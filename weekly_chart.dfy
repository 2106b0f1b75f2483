/** The weekly bar charts of the workout-progress screen: every snapshot of the
    signed-in user's workouts (or water entries) is folded into seven weekday
    buckets, Sunday first. There is no calendar-week window: every retained
    document counts in the bucket of its weekday. */
module WeeklyChart {
  import opened Records

  /** Seven empty buckets, as `new Array(7).fill(0)` makes them. */
  const Zeros: seq<real> := [0.0, 0.0, 0.0, 0.0, 0.0, 0.0, 0.0]

  /** Total measure of a sequence of documents. */
  function Total<T>(docs: seq<T>, measureOf: T -> real): real
  {
    if docs == [] then 0.0 else measureOf(docs[0]) + Total(docs[1..], measureOf)
  }

  /** The documents that fall on weekday `d`, in their original order. */
  function OnDay<T>(docs: seq<T>, dayOf: T -> Day, d: Day): (r: seq<T>)
    ensures |r| <= |docs|
  {
    if docs == [] then []
    else (if dayOf(docs[0]) == d then [docs[0]] else []) + OnDay(docs[1..], dayOf, d)
  }

  /** What a chart should show for a snapshot: bucket `d` is the total measure
      of the documents whose weekday is `d`. */
  function WeeklySummary<T>(docs: seq<T>, dayOf: T -> Day, measureOf: T -> real): (r: seq<real>)
    ensures |r| == 7
  {
    seq(7, d requires 0 <= d < 7 => Total(OnDay(docs, dayOf, d), measureOf))
  }

  /** Sum of a sequence of numbers. */
  function Sum(s: seq<real>): real
  {
    if s == [] then 0.0 else s[0] + Sum(s[1..])
  }

  /** How the workout chart reads a workout: weekday of its `date`, and its `duration`. */
  function WorkoutDay(weekday: string -> Day): Workout -> Day
  {
    (w: Workout) => weekday(w.date)
  }

  function Duration(w: Workout): real
  {
    w.duration
  }

  /** How the water chart reads an entry: weekday of its `date`, and its `amount`. */
  function WaterDay(weekday: string -> Day): WaterEntry -> Day
  {
    (e: WaterEntry) => weekday(e.date)
  }

  function Amount(e: WaterEntry): real
  {
    e.amount as real
  }

  lemma {:induction false} TotalAppend<T>(a: seq<T>, b: seq<T>, measureOf: T -> real)
    ensures Total(a + b, measureOf) == Total(a, measureOf) + Total(b, measureOf)
  {
    if a == [] {
      assert a + b == b;
    } else {
      assert (a + b)[1..] == a[1..] + b;
      TotalAppend(a[1..], b, measureOf);
    }
  }

  lemma {:induction false} OnDayAppend<T>(a: seq<T>, b: seq<T>, dayOf: T -> Day, d: Day)
    ensures OnDay(a + b, dayOf, d) == OnDay(a, dayOf, d) + OnDay(b, dayOf, d)
  {
    if a == [] {
      assert a + b == b;
    } else {
      var head := if dayOf(a[0]) == d then [a[0]] else [];
      calc {
        OnDay(a + b, dayOf, d);
        { assert (a + b)[0] == a[0]; assert (a + b)[1..] == a[1..] + b; }
        head + OnDay(a[1..] + b, dayOf, d);
        { OnDayAppend(a[1..], b, dayOf, d); }
        head + (OnDay(a[1..], dayOf, d) + OnDay(b, dayOf, d));
        (head + OnDay(a[1..], dayOf, d)) + OnDay(b, dayOf, d);
      }
    }
  }

  /** Bucket `d` is additive over concatenation of snapshots. */
  lemma BucketAppend<T>(a: seq<T>, b: seq<T>, dayOf: T -> Day, measureOf: T -> real, d: Day)
    ensures Total(OnDay(a + b, dayOf, d), measureOf)
         == Total(OnDay(a, dayOf, d), measureOf) + Total(OnDay(b, dayOf, d), measureOf)
  {
    OnDayAppend(a, b, dayOf, d);
    TotalAppend(OnDay(a, dayOf, d), OnDay(b, dayOf, d), measureOf);
  }

  /** One document adds its measure to the bucket of its own weekday and nothing elsewhere. */
  lemma BucketSingle<T>(x: T, dayOf: T -> Day, measureOf: T -> real, d: Day)
    ensures Total(OnDay([x], dayOf, d), measureOf) == if dayOf(x) == d then measureOf(x) else 0.0
  {
  }

  /** The loop step of the chart callbacks: folding in one more document `x`
      raises the bucket of `x`'s weekday by its measure and leaves the other
      six alone, whatever calendar week `x` lies in. */
  lemma {:induction false} AddDocument<T>(docs: seq<T>, x: T, dayOf: T -> Day, measureOf: T -> real)
    ensures forall d: Day ::
      WeeklySummary(docs + [x], dayOf, measureOf)[d]
        == WeeklySummary(docs, dayOf, measureOf)[d] + (if dayOf(x) == d then measureOf(x) else 0.0)
  {
    forall d: Day
      ensures WeeklySummary(docs + [x], dayOf, measureOf)[d]
        == WeeklySummary(docs, dayOf, measureOf)[d] + (if dayOf(x) == d then measureOf(x) else 0.0)
    {
      BucketAppend(docs, [x], dayOf, measureOf, d);
      BucketSingle(x, dayOf, measureOf, d);
    }
  }

  /** An empty snapshot gives seven zeros. */
  lemma EmptySnapshot<T>(dayOf: T -> Day, measureOf: T -> real)
    ensures WeeklySummary([], dayOf, measureOf) == Zeros
  {
  }

  lemma SumOfSeven(s: seq<real>)
    requires |s| == 7
    ensures Sum(s) == s[0] + s[1] + s[2] + s[3] + s[4] + s[5] + s[6]
  {
    assert Sum(s[6..]) == s[6] by { assert s[6..][1..] == []; }
    assert Sum(s[5..]) == s[5] + Sum(s[6..]) by { assert s[5..][1..] == s[6..]; }
    assert Sum(s[4..]) == s[4] + Sum(s[5..]) by { assert s[4..][1..] == s[5..]; }
    assert Sum(s[3..]) == s[3] + Sum(s[4..]) by { assert s[3..][1..] == s[4..]; }
    assert Sum(s[2..]) == s[2] + Sum(s[3..]) by { assert s[2..][1..] == s[3..]; }
    assert Sum(s[1..]) == s[1] + Sum(s[2..]) by { assert s[1..][1..] == s[2..]; }
  }

  /** The seven buckets together hold the total measure of the whole snapshot:
      every document lands in exactly one bucket. */
  lemma {:induction false} BucketsSumToTotal<T>(docs: seq<T>, dayOf: T -> Day, measureOf: T -> real)
    ensures Sum(WeeklySummary(docs, dayOf, measureOf)) == Total(docs, measureOf)
  {
    var s := WeeklySummary(docs, dayOf, measureOf);
    SumOfSeven(s);
    if docs != [] {
      var x, rest := docs[0], docs[1..];
      assert docs == [x] + rest;
      var r := WeeklySummary(rest, dayOf, measureOf);
      forall d: Day
        ensures s[d] == r[d] + (if dayOf(x) == d then measureOf(x) else 0.0)
      {
        BucketAppend([x], rest, dayOf, measureOf, d);
        BucketSingle(x, dayOf, measureOf, d);
      }
      SumOfSeven(r);
      BucketsSumToTotal(rest, dayOf, measureOf);
    }
  }

  /** Bucket `d` depends only on the multiset of documents, not on their order. */
  lemma {:induction false} BucketPermutation<T>(a: seq<T>, b: seq<T>, dayOf: T -> Day, measureOf: T -> real, d: Day)
    requires multiset(a) == multiset(b)
    ensures Total(OnDay(a, dayOf, d), measureOf) == Total(OnDay(b, dayOf, d), measureOf)
    decreases |a|
  {
    if a == [] {
      assert |b| == |multiset(b)| == 0;
    } else {
      var x := a[0];
      assert x in multiset(b);
      var i :| 0 <= i < |b| && b[i] == x;
      var b' := b[..i] + b[i + 1..];
      assert b == b[..i] + [x] + b[i + 1..];
      assert a == [x] + a[1..];
      assert multiset(b) == multiset(b[..i]) + multiset{x} + multiset(b[i + 1..]);
      assert multiset(a) == multiset{x} + multiset(a[1..]);
      assert multiset(b') == multiset(b[..i]) + multiset(b[i + 1..]);
      assert multiset(a[1..]) == multiset(a) - multiset{x};
      assert multiset(b') == multiset(b) - multiset{x};
      BucketPermutation(a[1..], b', dayOf, measureOf, d);
      BucketAppend([x], a[1..], dayOf, measureOf, d);
      BucketAppend(b[..i] + [x], b[i + 1..], dayOf, measureOf, d);
      BucketAppend(b[..i], [x], dayOf, measureOf, d);
      BucketAppend(b[..i], b[i + 1..], dayOf, measureOf, d);
    }
  }

  /** Reordering the documents of a snapshot does not change the chart. */
  lemma SummaryPermutation<T>(a: seq<T>, b: seq<T>, dayOf: T -> Day, measureOf: T -> real)
    requires multiset(a) == multiset(b)
    ensures WeeklySummary(a, dayOf, measureOf) == WeeklySummary(b, dayOf, measureOf)
  {
    forall d: Day
      ensures WeeklySummary(a, dayOf, measureOf)[d] == WeeklySummary(b, dayOf, measureOf)[d]
    {
      BucketPermutation(a, b, dayOf, measureOf, d);
    }
  }

  /** No week window: two workouts on the same weekday both count in that
      weekday's bucket, whatever their calendar dates. */
  lemma SameWeekdayAccumulates(w1: Workout, w2: Workout, weekday: string -> Day)
    requires weekday(w1.date) == weekday(w2.date)
    ensures WeeklySummary([w1, w2], WorkoutDay(weekday), Duration)[weekday(w1.date)]
         == w1.duration + w2.duration
  {
    AddDocument([w1], w2, WorkoutDay(weekday), Duration);
    BucketSingle(w1, WorkoutDay(weekday), Duration, weekday(w1.date));
    assert [w1] + [w2] == [w1, w2];
  }

  /** The bucketing loop shared by both snapshot callbacks: a fresh array of
      seven zeros, then `summary[day] += measure` for each document in turn. */
  method BucketByWeekday<T>(docs: seq<T>, dayOf: T -> Day, measureOf: T -> real) returns (summary: array<real>)
    ensures summary.Length == 7
    ensures summary[..] == WeeklySummary(docs, dayOf, measureOf)
  {
    summary := new real[7](_ => 0.0);
    for i := 0 to |docs|
      invariant forall d :: 0 <= d < 7 ==> summary[d] == Total(OnDay(docs[..i], dayOf, d), measureOf)
    {
      var day := dayOf(docs[i]);
      summary[day] := summary[day] + measureOf(docs[i]);
      assert docs[..i + 1] == docs[..i] + [docs[i]];
      forall d | 0 <= d < 7
        ensures Total(OnDay(docs[..i + 1], dayOf, d), measureOf)
             == Total(OnDay(docs[..i], dayOf, d), measureOf) + (if dayOf(docs[i]) == d then measureOf(docs[i]) else 0.0)
      {
        BucketAppend(docs[..i], [docs[i]], dayOf, measureOf, d);
        BucketSingle(docs[i], dayOf, measureOf, d);
      }
    }
    assert docs[..|docs|] == docs;
  }

  /** The chart screen's state: the two seven-slot summaries it renders. */
  class WorkoutChartScreen {
    var weeklyWorkoutData: seq<real>
    var weeklyWaterData: seq<real>

    ghost predicate Valid()
      reads this
    {
      |weeklyWorkoutData| == 7 && |weeklyWaterData| == 7
    }

    /** Both charts start as seven zeros. */
    constructor ()
      ensures Valid()
      ensures weeklyWorkoutData == Zeros && weeklyWaterData == Zeros
    {
      weeklyWorkoutData := Zeros;
      weeklyWaterData := Zeros;
    }

    /** The workouts snapshot callback. The new summary is built from the
        snapshot alone, so a repeated snapshot gives the same summary. */
    method OnWorkoutSnapshot(snapshot: seq<Doc<Workout>>, weekday: string -> Day)
      requires Valid()
      modifies this
      ensures Valid()
      ensures weeklyWorkoutData == WeeklySummary(DataOf(snapshot), WorkoutDay(weekday), Duration)
      ensures weeklyWaterData == old(weeklyWaterData)
    {
      var data := DataOf(snapshot);
      var summary := BucketByWeekday(data, WorkoutDay(weekday), Duration);
      weeklyWorkoutData := summary[..];
    }

    /** The water snapshot callback: the same fold with `amount` as the measure. */
    method OnWaterSnapshot(snapshot: seq<Doc<WaterEntry>>, weekday: string -> Day)
      requires Valid()
      modifies this
      ensures Valid()
      ensures weeklyWaterData == WeeklySummary(DataOf(snapshot), WaterDay(weekday), Amount)
      ensures weeklyWorkoutData == old(weeklyWorkoutData)
    {
      var data := DataOf(snapshot);
      var summary := BucketByWeekday(data, WaterDay(weekday), Amount);
      weeklyWaterData := summary[..];
    }
  }

  /** A snapshot delivered twice in a row leaves the chart as the first
      delivery did (`once`): nothing is counted twice, and the water chart is
      untouched. */
  method RedeliveredSnapshot(chart: WorkoutChartScreen, snapshot: seq<Doc<Workout>>, weekday: string -> Day)
    returns (once: seq<real>)
    requires chart.Valid()
    modifies chart
    ensures chart.Valid()
    ensures chart.weeklyWorkoutData == once
    ensures once == WeeklySummary(DataOf(snapshot), WorkoutDay(weekday), Duration)
    ensures chart.weeklyWaterData == old(chart.weeklyWaterData)
  {
    chart.OnWorkoutSnapshot(snapshot, weekday);
    once := chart.weeklyWorkoutData;
    chart.OnWorkoutSnapshot(snapshot, weekday);
  }
}
