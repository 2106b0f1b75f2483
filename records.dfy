/** Document shapes the screens share: what the workout form writes to the
    `workouts` collection, what the dashboard writes to `waterIntake`, and
    how a query snapshot delivers documents. */
module Records {

  datatype Option<+T> = None | Some(value: T)

  /** A weekday as `Date.prototype.getDay` returns it: 0 is Sunday, 6 is Saturday. */
  type Day = d: int | 0 <= d < 7

  /** A document of the `workouts` collection (src/components/WorkoutForm.js:23-29).
      `date` is the ISO-8601 timestamp text of the moment it was recorded. */
  datatype Workout = Workout(workoutType: string, duration: real, calories: real, date: string, uid: string)

  /** A document of the `waterIntake` collection (src/screens/DashboardScreen.js:53).
      `date` is the ISO calendar date `YYYY-MM-DD`. */
  datatype WaterEntry = WaterEntry(uid: string, date: string, amount: int)

  /** One document of a query snapshot: its store-assigned id and its fields. */
  datatype Doc<D> = Doc(id: string, data: D)

  /** The fields of every document of a snapshot, in snapshot order
      (`snapshot.docs.map((doc) => doc.data())`). */
  function DataOf<D>(docs: seq<Doc<D>>): (r: seq<D>)
    ensures |r| == |docs|
    ensures forall i :: 0 <= i < |docs| ==> r[i] == docs[i].data
  {
    seq(|docs|, i requires 0 <= i < |docs| => docs[i].data)
  }
}
