/** The dashboard: today's workouts, taken from a live snapshot of the user's
    workouts, and today's water counter, kept in one `waterIntake` document
    per user and calendar day. */
module Dashboard {
  import opened Records

  /** The text before the first 'T', as `s.split('T')[0]` gives it: the
      calendar-date part of an ISO-8601 timestamp. */
  function DatePart(s: string): (r: string)
    ensures r <= s
    ensures 'T' !in r
    ensures |r| < |s| ==> s[|r|] == 'T'
  {
    if s == [] || s[0] == 'T' then [] else [s[0]] + DatePart(s[1..])
  }

  /** An element of the dashboard's `workouts` list: `{ id: doc.id, ...doc.data() }`. */
  datatype ListedWorkout = ListedWorkout(id: string, workout: Workout)

  /** The list a workouts snapshot replaces the old one with: one entry per
      document, in snapshot order, carrying the document's id. */
  function ToListed(docs: seq<Doc<Workout>>): (r: seq<ListedWorkout>)
    ensures |r| == |docs|
    ensures forall i :: 0 <= i < |docs| ==> r[i].id == docs[i].id && r[i].workout == docs[i].data
  {
    seq(|docs|, i requires 0 <= i < |docs| => ListedWorkout(docs[i].id, docs[i].data))
  }

  /** The documents a listed entry came from. */
  function FromListed(items: seq<ListedWorkout>): seq<Doc<Workout>>
  {
    seq(|items|, i requires 0 <= i < |items| => Doc(items[i].id, items[i].workout))
  }

  /** Listing a snapshot loses nothing: the snapshot can be read back from the list. */
  lemma ListedRoundTrip(docs: seq<Doc<Workout>>)
    ensures FromListed(ToListed(docs)) == docs
  {
  }

  predicate IsToday(item: ListedWorkout, today: string)
  {
    DatePart(item.workout.date) == today
  }

  /** `workouts.filter((workout) => workout.date.split('T')[0] === today)` */
  function TodayWorkouts(items: seq<ListedWorkout>, today: string): (r: seq<ListedWorkout>)
    ensures |r| <= |items|
    ensures forall x :: x in r <==> x in items && IsToday(x, today)
  {
    if items == [] then []
    else (if IsToday(items[0], today) then [items[0]] else []) + TodayWorkouts(items[1..], today)
  }

  /** The filter keeps order: filtering a concatenation filters each part in place. */
  lemma {:induction false} TodayWorkoutsAppend(a: seq<ListedWorkout>, b: seq<ListedWorkout>, today: string)
    ensures TodayWorkouts(a + b, today) == TodayWorkouts(a, today) + TodayWorkouts(b, today)
  {
    if a == [] {
      assert a + b == b;
    } else {
      var head := if IsToday(a[0], today) then [a[0]] else [];
      calc {
        TodayWorkouts(a + b, today);
        { assert (a + b)[0] == a[0]; assert (a + b)[1..] == a[1..] + b; }
        head + TodayWorkouts(a[1..] + b, today);
        { TodayWorkoutsAppend(a[1..], b, today); }
        head + (TodayWorkouts(a[1..], today) + TodayWorkouts(b, today));
      }
    }
  }

  /** Filtering twice is filtering once. */
  lemma {:induction false} TodayWorkoutsIdempotent(items: seq<ListedWorkout>, today: string)
    ensures TodayWorkouts(TodayWorkouts(items, today), today) == TodayWorkouts(items, today)
  {
    if items != [] {
      var head := if IsToday(items[0], today) then [items[0]] else [];
      var rest := TodayWorkouts(items[1..], today);
      TodayWorkoutsAppend(head, rest, today);
      assert TodayWorkouts(head, today) == head by {
        if head != [] { assert head[1..] == []; }
      }
      TodayWorkoutsIdempotent(items[1..], today);
    }
  }

  /** The id of the water document of a user and day: `${uid}_${today}`. */
  function WaterKey(uid: string, today: string): (r: string)
    ensures |r| == |uid| + 1 + |today|
    ensures r[..|uid|] == uid && r[|uid|] == '_' && r[|uid| + 1..] == today
  {
    uid + "_" + today
  }

  /** Distinct users or distinct days never share a water document, provided
      the day text has no '_' (an ISO calendar date never does). */
  lemma WaterKeyInjective(uid1: string, today1: string, uid2: string, today2: string)
    requires '_' !in today1 && '_' !in today2
    requires WaterKey(uid1, today1) == WaterKey(uid2, today2)
    ensures uid1 == uid2 && today1 == today2
  {
    var k := WaterKey(uid1, today1);
    assert k == WaterKey(uid2, today2);
    assert k[|uid1|] == '_' && k[|uid2|] == '_';
    if |today1| != |today2| {
      assert false;
    }
    assert uid1 == k[..|uid1|] == uid2;
    assert today1 == k[|uid1| + 1..] == today2;
  }

  /** The stored amount of a water document, or 0 when it does not exist yet. */
  function StoredAmount(water: map<string, WaterEntry>, key: string): (r: int)
    ensures key in water ==> r == water[key].amount
    ensures key !in water ==> r == 0
  {
    if key in water then water[key].amount else 0
  }

  /** The `waterIntake` collection of the document store, by document id. */
  class WaterCollection {
    var docs: map<string, WaterEntry>

    constructor (docs: map<string, WaterEntry>)
      ensures this.docs == docs
    {
      this.docs := docs;
    }
  }

  /** The dashboard's state: the listed workouts and the local water total. */
  class DashboardScreen {
    var workouts: seq<ListedWorkout>
    var waterIntake: int

    constructor ()
      ensures workouts == [] && waterIntake == 0
    {
      workouts := [];
      waterIntake := 0;
    }

    /** The local total is the one stored for this user and day. */
    ghost predicate InStep(store: WaterCollection, uid: string, today: string)
      reads this, store
    {
      waterIntake == StoredAmount(store.docs, WaterKey(uid, today))
    }

    /** The workouts snapshot callback: the list is replaced wholesale. */
    method OnWorkoutsSnapshot(snapshot: seq<Doc<Workout>>)
      modifies this
      ensures workouts == ToListed(snapshot)
      ensures waterIntake == old(waterIntake)
    {
      workouts := ToListed(snapshot);
    }

    /** `fetchWaterIntake`, run when the screen mounts and whenever the user
        changes: read today's document and adopt its amount, or 0.
        `readSucceeded` tells whether the read settles; a rejected read has no
        handler, so the local total keeps its old value. */
    method FetchWaterIntake(store: WaterCollection, uid: string, now: string, readSucceeded: bool)
      modifies this
      ensures readSucceeded ==> waterIntake == StoredAmount(store.docs, WaterKey(uid, DatePart(now)))
      ensures readSucceeded ==> InStep(store, uid, DatePart(now))
      ensures !readSucceeded ==> waterIntake == old(waterIntake)
      ensures workouts == old(workouts)
    {
      if !readSucceeded {
        return;
      }
      var today := DatePart(now);
      var key := WaterKey(uid, today);
      if key in store.docs {
        waterIntake := store.docs[key].amount;
      } else {
        waterIntake := 0;
      }
    }

    /** `addWater`: with a user, write the local total plus 250 to today's
        document and, once the write is accepted, adopt it locally. The stored
        amount is not read again. With no user nothing happens. */
    method AddWater(store: WaterCollection, user: Option<string>, now: string, writeAccepted: bool)
      modifies this, store
      ensures workouts == old(workouts)
      ensures user.None? || !writeAccepted ==>
        waterIntake == old(waterIntake) && store.docs == old(store.docs)
      ensures user.Some? && writeAccepted ==>
        && waterIntake == old(waterIntake) + 250
        && store.docs == old(store.docs)[WaterKey(user.value, DatePart(now)) :=
                                          WaterEntry(user.value, DatePart(now), old(waterIntake) + 250)]
      ensures user.Some? && writeAccepted ==> InStep(store, user.value, DatePart(now))
      ensures user.Some? && old(InStep(store, user.value, DatePart(now))) ==> InStep(store, user.value, DatePart(now))
    {
      if user.None? {
        return;
      }
      var today := DatePart(now);
      var key := WaterKey(user.value, today);
      var newAmount := waterIntake + 250;
      if writeAccepted {
        store.docs := store.docs[key := WaterEntry(user.value, today, newAmount)];
        waterIntake := newAmount;
      }
    }

    /** The list the dashboard renders under "Today's Summary": the listed
        workouts, in list order, whose date part is the date part of `now`. */
    function Today(now: string): (r: seq<ListedWorkout>)
      reads this
      ensures |r| <= |workouts|
      ensures forall x :: x in r <==> x in workouts && DatePart(x.workout.date) == DatePart(now)
    {
      TodayWorkouts(workouts, DatePart(now))
    }
  }
}
