/** The add-workout form: three text fields, a check that none is empty, the
    record written to the `workouts` collection, and the clearing of the form
    once the write is accepted. The lemmas at the end follow a written record
    into the dashboard's list and the weekly chart. */
module WorkoutForm {
  import opened Records
  import Dashboard
  import WeeklyChart

  /** `!workoutType || !duration || !calories`: some field is the empty text. */
  predicate HasEmptyField(workoutType: string, duration: string, calories: string): (b: bool)
    ensures !b <==> |workoutType| > 0 && |duration| > 0 && |calories| > 0
  {
    workoutType == "" || duration == "" || calories == ""
  }

  /** How a call of the handler ends. `Added` and `WriteFailed` carry the
      record that was handed to the store. */
  datatype Outcome = NotSignedIn | MissingFields | Added(record: Workout) | WriteFailed(record: Workout)

  /** The alert an outcome raises (title, message); no alert without a user. */
  function OutcomeAlert(o: Outcome): (a: Option<(string, string)>)
    ensures a.None? <==> o.NotSignedIn?
    ensures a.Some? ==> (a.value.0 == "Success" <==> o.Added?)
  {
    match o
    case NotSignedIn => None
    case MissingFields => Some(("Error", "Please fill all the fields before submitting."))
    case Added(_) => Some(("Success", "Workout added successfully."))
    case WriteFailed(_) => Some(("Error", "An error occurred while adding the workout. Please try again."))
  }

  /** The form's state: the three input texts. */
  class WorkoutFormScreen {
    var workoutType: string
    var duration: string
    var calories: string

    constructor ()
      ensures workoutType == "" && duration == "" && calories == ""
    {
      workoutType, duration, calories := "", "", "";
    }

    /** `handleAddWorkout`, with `parseFloat` and the current ISO timestamp
        given, and `addAccepted` telling whether the store accepts the write.
        The record holds the workout type as typed, the parsed duration and
        calories, the timestamp as `date`, and the user's uid. The fields are
        cleared, and `goBack` asks the navigator to return to the previous
        screen, only after an accepted write. */
    method HandleAddWorkout(user: Option<string>, now: string, parseFloat: string -> real, addAccepted: bool)
      returns (outcome: Outcome, goBack: bool)
      modifies this
      ensures goBack <==> outcome.Added?
      ensures user.None? ==> outcome == NotSignedIn
      ensures user.Some? && HasEmptyField(old(workoutType), old(duration), old(calories)) ==> outcome == MissingFields
      ensures user.Some? && !HasEmptyField(old(workoutType), old(duration), old(calories)) ==>
        var record := Workout(old(workoutType), parseFloat(old(duration)), parseFloat(old(calories)), now, user.value);
        outcome == if addAccepted then Added(record) else WriteFailed(record)
      ensures outcome.Added? ==> workoutType == "" && duration == "" && calories == ""
      ensures !outcome.Added? ==>
        workoutType == old(workoutType) && duration == old(duration) && calories == old(calories)
    {
      if user.None? {
        return NotSignedIn, false;
      }
      if workoutType == "" || duration == "" || calories == "" {
        return MissingFields, false;
      }
      var record := Workout(workoutType, parseFloat(duration), parseFloat(calories), now, user.value);
      if !addAccepted {
        return WriteFailed(record), false;
      }
      workoutType := "";
      duration := "";
      calories := "";
      outcome, goBack := Added(record), true;
    }
  }

  /** A workout recorded at `now` shows in the dashboard's list for the day
      of `now` as soon as a snapshot holding it arrives, wherever the store
      puts it in the snapshot. */
  lemma RecordedWorkoutShowsToday(snapshot: seq<Doc<Workout>>, id: string, record: Workout, now: string)
    requires record.date == now
    requires Doc(id, record) in snapshot
    ensures Dashboard.ListedWorkout(id, record) in Dashboard.TodayWorkouts(Dashboard.ToListed(snapshot), Dashboard.DatePart(now))
  {
  }

  /** A newly recorded workout raises the chart bucket of its weekday by its
      duration and leaves the other six alone, in whatever order the next
      snapshot delivers the documents. */
  lemma RecordedWorkoutCharted(before: seq<Workout>, after: seq<Workout>, record: Workout, weekday: string -> Day)
    requires multiset(after) == multiset(before) + multiset{record}
    ensures forall d: Day ::
      WeeklyChart.WeeklySummary(after, WeeklyChart.WorkoutDay(weekday), WeeklyChart.Duration)[d]
        == WeeklyChart.WeeklySummary(before, WeeklyChart.WorkoutDay(weekday), WeeklyChart.Duration)[d]
           + (if weekday(record.date) == d then record.duration else 0.0)
  {
    assert multiset(before + [record]) == multiset(after);
    WeeklyChart.SummaryPermutation(before + [record], after, WeeklyChart.WorkoutDay(weekday), WeeklyChart.Duration);
    WeeklyChart.AddDocument(before, record, WeeklyChart.WorkoutDay(weekday), WeeklyChart.Duration);
  }
}
