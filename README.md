# Health and fitness tracker: verified model of the screen logic

This project models, in Dafny, the logic inside the screens of a React Native
fitness tracker backed by a remote document store. The app records workouts
and water intake, shows a dashboard for today, draws weekly bar charts, and
computes a body-mass index. The six screens and components with logic are
modelled, one Dafny module each, on top of two shared modules: **Records**
(the document shapes and the snapshot's `doc.data()` list) and **Auth** (see
Signup and Login below).

- **WeeklyChart** (`src/components/WeeklyChart.js`). Each full snapshot of the
  user's workouts, or of the user's water entries, is folded into a fresh
  seven-slot array, Sunday first. Each document adds its `duration` (or
  `amount`) to the slot of its weekday. The loop is `BucketByWeekday`, a method
  over a Dafny `array`. It is proved equal to `WeeklySummary`, where bucket `d`
  is the total measure of the documents whose weekday is `d`. There is no
  calendar-week window: every Monday of every week lands in bucket 1.
  `getDay` is a parameter `weekday: string -> Day`.
- **Dashboard** (`src/screens/DashboardScreen.js`). A workouts snapshot replaces
  the list wholesale. Today's list keeps the workouts whose `date` text before
  the first `'T'` equals today's date. The water counter lives in the document
  `uid + "_" + today`. A fetch adopts its `amount`, or 0 if it is missing.
  `addWater` writes the **local** total plus 250 without reading the store
  again, and adopts that value once the write is accepted. The store is a
  `WaterCollection` object holding a `map`. The current ISO timestamp is a
  parameter `now`, and `today` is its date part.
- **Bmi** (`src/screens/BMIScreen.js`). Input validation covers NaN and
  non-positive values; `parseFloat` is a parameter giving `None` for NaN. The
  formula is `weight / (height * height)` on exact reals. The category is
  decided on the unrounded value, with the thresholds exactly as written. The
  displayed value is `toFixed(1)`, read back as a number. The recommendation is
  decided on that displayed value. Reset clears all four state fields.
- **Signup** and **Login** (`src/screens/SignupScreen.js`,
  `src/screens/LoginScreen.js`). Each async handler is split at its one
  `await`. `Begin…` is the part before the authentication call: the ordered
  password checks for sign-up, then raising `loading`, clearing `error`, and
  building the credentials with the trimmed e-mail. `Finish…` is the part
  after the call settles: the error-code table with its default message, and
  lowering `loading`. `Handle…` composes the two, with the authentication
  service as a function parameter. **Auth** holds what both use:
  `String.prototype.trim` over the ECMAScript whitespace set, the credentials,
  and the call's outcome.
- **WorkoutForm** (`src/components/WorkoutForm.js`). The handler checks for a
  user and for empty fields, builds the record, and clears the three fields
  only after the store accepts the write. Two lemmas follow a recorded workout
  into the dashboard's list for today and into the weekly chart.

Two facts about the code shape the model:
- In the BMI category, Normal weight stops at 24.9 while Overweight starts at
  25, and Overweight stops at 29.9 while nothing starts there, so [24.9, 25)
  and [29.9, 30) fall to Obesity. The recommendation is not derived from the
  category: it is decided from the rounded display value, on thresholds of its
  own (18.5, 24.9, 29.9).
- Subscriptions carry no generation tag and water increments are not
  serialised; each snapshot callback and each `addWater` call runs on its own,
  and the model has nothing beyond that.

## Model

| member | source | states |
|---|---|---|
| `WeeklyChart.BucketByWeekday` | src/components/WeeklyChart.js:25-30 | The loop over a fresh seven-zero array returns exactly `WeeklySummary` of the documents: bucket d is the total measure of the documents on weekday d. |
| `WeeklyChart.WeeklySummary` | src/components/WeeklyChart.js:25-30 | A summary always has exactly 7 entries. |
| `WeeklyChart.EmptySnapshot` | src/components/WeeklyChart.js:25 | An empty snapshot yields seven zeros. |
| `WeeklyChart.AddDocument` | src/components/WeeklyChart.js:27-30 | Folding in one more document raises the bucket of its weekday by its measure and leaves the other six unchanged. |
| `WeeklyChart.BucketsSumToTotal` | src/components/WeeklyChart.js:27-30 | The seven buckets sum to the total measure of all documents in the snapshot. |
| `WeeklyChart.BucketAppend` | src/components/WeeklyChart.js:27-30 | Each bucket of a concatenation of snapshots is the sum of the buckets of the parts. |
| `WeeklyChart.BucketPermutation` | src/components/WeeklyChart.js:27-30 | A bucket depends only on the multiset of documents. |
| `WeeklyChart.SummaryPermutation` | src/components/WeeklyChart.js:25-30 | Reordering a snapshot's documents does not change the summary. |
| `WeeklyChart.SameWeekdayAccumulates` | src/components/WeeklyChart.js:28-29 | Two workouts with the same weekday both count in that bucket, whatever their calendar dates: there is no week window. |
| `WeeklyChart.WorkoutChartScreen.constructor` | src/components/WeeklyChart.js:10-11 | Both charts start as seven zeros. |
| `WeeklyChart.WorkoutChartScreen.OnWorkoutSnapshot` | src/components/WeeklyChart.js:23-33 | The workout chart becomes the summary of the snapshot's data by weekday of `date` and `duration`. The result does not depend on the previous chart. The water chart is unchanged. |
| `WeeklyChart.WorkoutChartScreen.OnWaterSnapshot` | src/components/WeeklyChart.js:41-51 | The water chart becomes the summary of the snapshot's data by weekday of `date` and `amount`. The workout chart is unchanged. |
| `WeeklyChart.RedeliveredSnapshot` | src/components/WeeklyChart.js:24-32 | Delivering the same snapshot twice leaves the workout chart equal to `once`, the chart after the first delivery, which is the summary of that snapshot: nothing is counted twice. The water chart is unchanged. |
| `Records.DataOf` | src/components/WeeklyChart.js:24 | `snapshot.docs.map((doc) => doc.data())`: one entry per document, in snapshot order, each that document's fields. |
| `Dashboard.DatePart` | src/screens/DashboardScreen.js:57-59 | `split('T')[0]` is the prefix of the text that has no 'T' and stops at the first 'T' or at the end. |
| `Dashboard.ToListed` | src/screens/DashboardScreen.js:23-26 | A snapshot becomes one list entry per document, in order, each carrying that document's id and fields. |
| `Dashboard.ListedRoundTrip` | src/screens/DashboardScreen.js:23-26 | The snapshot can be recovered from the list: listing loses nothing. |
| `Dashboard.TodayWorkouts` | src/screens/DashboardScreen.js:57-60 | An entry is in today's list exactly when it is in the list and its date part equals today; the result is never longer than the list. |
| `Dashboard.TodayWorkoutsAppend` | src/screens/DashboardScreen.js:58-60 | Filtering a concatenation filters each part in place, so the filter keeps the original order. |
| `Dashboard.TodayWorkoutsIdempotent` | src/screens/DashboardScreen.js:58-60 | Filtering today's list again changes nothing. |
| `Dashboard.WaterKey` | src/screens/DashboardScreen.js:32 | The water document id is the uid, then one '_', then the day text, and nothing else. |
| `Dashboard.WaterKeyInjective` | src/screens/DashboardScreen.js:32 | When the day text has no '_', two users or two days never share a water document id. |
| `Dashboard.StoredAmount` | src/screens/DashboardScreen.js:35-39 | The amount read is the stored `amount` if the document exists, and 0 otherwise. |
| `Dashboard.DashboardScreen.constructor` | src/screens/DashboardScreen.js:9-10 | The screen starts with no workouts and a water total of 0. |
| `Dashboard.DashboardScreen.OnWorkoutsSnapshot` | src/screens/DashboardScreen.js:22-28 | Each snapshot replaces the list wholesale by its listing. The water total is unchanged. |
| `Dashboard.DashboardScreen.FetchWaterIntake` | src/screens/DashboardScreen.js:31-41 | When the read succeeds, the local total becomes the amount stored under `uid_today`, or 0, so local and stored totals agree. When the read is rejected, the local total keeps its old value. The workout list is unchanged. |
| `Dashboard.DashboardScreen.AddWater` | src/screens/DashboardScreen.js:46-55 | Without a user, or when the write is rejected, nothing changes. Otherwise `{uid, date: today, amount: local + 250}` is written under `uid_today`, the local total rises by exactly 250, and it equals the stored amount afterwards. |
| `Dashboard.DashboardScreen.Today` | src/screens/DashboardScreen.js:57-60 | The list rendered under "Today's Summary" holds exactly the listed workouts whose date part is the date part of the render-time timestamp, and is never longer than the list. |
| `Bmi.LabelInjective` | src/screens/BMIScreen.js:37-45 | The four category texts are distinct. |
| `Bmi.ValidInputs` | src/screens/BMIScreen.js:16-21 | The input is rejected exactly when either parsed number is NaN or at most 0. |
| `Bmi.BmiValue` | src/screens/BMIScreen.js:16-30 | A value exists exactly when both parsed inputs are numbers above 0. It is positive, and times height squared it gives back the weight. |
| `Bmi.DetermineCategory` | src/screens/BMIScreen.js:36-46 | Below 18.5 is Underweight; [18.5, 24.9) is Normal weight; [25, 29.9) is Overweight; [24.9, 25) and from 29.9 on are Obesity. Each value gets exactly one category. |
| `Bmi.CategoryGapExample` | src/screens/BMIScreen.js:39-44 | As written, 24.95 is Obesity while 25 is Overweight and 29.95 is Obesity, so the categories are not ordered by value. |
| `Bmi.IntendedCategory` | src/screens/BMIScreen.js:37-45 | The corrected decision is the partition below 18.5, [18.5, 25), [25, 30), from 30 on. |
| `Bmi.IntendedCategoryMonotone` | src/screens/BMIScreen.js:37-45 | Under the corrected decision, a larger value never gets an earlier category. |
| `Bmi.CategoryDiscrepancy` | src/screens/BMIScreen.js:39-44 | The written and corrected decisions differ exactly on [24.9, 25) and [29.9, 30). |
| `Bmi.RoundToTenth` | src/screens/BMIScreen.js:31 | `toFixed(1)` gives the multiple of 0.1 nearest the value, taking the larger one on a tie. |
| `Bmi.GetRecommendation` | src/screens/BMIScreen.js:57-63 | The thresholds 18.5, 24.9 and 29.9 split the reals into four contiguous bands, one recommendation each. |
| `Bmi.RecommendationMonotone` | src/screens/BMIScreen.js:57-63 | A larger value never selects an earlier recommendation. |
| `Bmi.CategoryAdviceDisagree` | src/screens/BMIScreen.js:31-32 | Raw 24.96 is displayed as 25.0 and gets the overweight-band recommendation, but its category is Obesity. |
| `Bmi.WorkedExamples` | src/screens/BMIScreen.js:30-46 | 70 kg at 1.75 m shows 22.9 and is Normal weight. 50 kg at 1.70 m shows 17.3 and is Underweight. |
| `Bmi.BmiScreen.constructor` | src/screens/BMIScreen.js:6-9 | Weight and height start as "", bmi as null, category as "". |
| `Bmi.BmiScreen.CalculateBmi` | src/screens/BMIScreen.js:12-33 | On NaN or non-positive input the alert is raised and nothing changes. Otherwise the displayed value is the rounded BMI and the category comes from the unrounded BMI. The inputs are never changed, and the displayed value stays a non-negative one-decimal number. |
| `Bmi.BmiScreen.ResetCalculator` | src/screens/BMIScreen.js:49-54 | Weight and height become "", bmi null, category "". |
| `Bmi.BmiScreen.Recommendation` | src/screens/BMIScreen.js:97-99 | The recommendation is `getRecommendations` of the displayed value. The screen keeps that value on the one-decimal grid, so the bands shown are up to 18.4, 18.5 to 24.8, 24.9 to 29.8, and from 29.9. |
| `Bmi.RecommendationOfRaw` | src/screens/BMIScreen.js:31 | Because the recommendation is decided on `toFixed(1)` of the raw value, the bands on the raw value start 0.05 early: below 18.45, [18.45, 24.85), [24.85, 29.85), from 29.85. |
| `Auth.Trim` | src/screens/LoginScreen.js:25 | The trimmed e-mail is one contiguous piece of the input. Only whitespace is cut from either side, and the piece neither starts nor ends with whitespace. |
| `Auth.TrimIdempotent` | src/screens/LoginScreen.js:25 | Trimming twice is trimming once. |
| `Auth.TrimKeepsTrimmed` | src/screens/SignupScreen.js:36 | Text with no whitespace at either end is passed on unchanged. |
| `Signup.ValidateSignup` | src/screens/SignupScreen.js:22-30 | A mismatch gives "Passwords don't match" whatever the length. Matching passwords under 6 characters give the length error. Only matching passwords of 6 or more pass. |
| `Signup.SignupErrorMessage` | src/screens/SignupScreen.js:40-45 | A known code gets its table message; exactly the unknown codes get the default message; the message is never empty. |
| `Signup.SignupMessagesDistinct` | src/screens/SignupScreen.js:40-44 | The three known codes have three different messages. |
| `Signup.SignupScreen.constructor` | src/screens/SignupScreen.js:15-19 | All texts start empty and `loading` false. |
| `Signup.SignupScreen.BeginSignup` | src/screens/SignupScreen.js:22-36 | A failed check sets its message, leaves `loading` alone and makes no call. Otherwise `loading` is true and `error` "" before the call, which gets the trimmed e-mail and the password. |
| `Signup.SignupScreen.FinishSignup` | src/screens/SignupScreen.js:36-48 | On success the screen navigates to log-in. On failure the error is the table message. `loading` is false either way. |
| `Signup.SignupScreen.HandleSignup` | src/screens/SignupScreen.js:21-49 | The whole handler: no call unless validation passes. After a call, `loading` is false, and `error` is "" on success or the table message of the service's code on failure. |
| `Login.LoginErrorMessage` | src/screens/LoginScreen.js:28-33 | The three known codes get their fixed messages; exactly the other codes get "Failed to log in. Please try again."; the message is never empty. |
| `Login.LoginMessagesDistinct` | src/screens/LoginScreen.js:28-32 | The three known codes have three different messages. |
| `Login.LoginScreen.constructor` | src/screens/LoginScreen.js:15-19 | Texts start empty and `loading` false. |
| `Login.LoginScreen.BeginLogin` | src/screens/LoginScreen.js:22-25 | `loading` is true and `error` "" before the call, which gets the trimmed e-mail and the password. |
| `Login.LoginScreen.FinishLogin` | src/screens/LoginScreen.js:26-36 | On failure the error is the table message. `loading` is false whatever the outcome. |
| `Login.LoginScreen.HandleLogin` | src/screens/LoginScreen.js:21-37 | After the attempt `loading` is false, and `error` is "" on success or the table message of the service's code on failure. |
| `WorkoutForm.HasEmptyField` | src/components/WorkoutForm.js:17 | The form passes the check exactly when all three fields have at least one character. |
| `WorkoutForm.OutcomeAlert` | src/components/WorkoutForm.js:14-42 | Every outcome except a missing user raises an alert, and only an accepted write raises the success alert. |
| `WorkoutForm.WorkoutFormScreen.constructor` | src/components/WorkoutForm.js:9-11 | The three fields start as "". |
| `WorkoutForm.WorkoutFormScreen.HandleAddWorkout` | src/components/WorkoutForm.js:14-42 | Without a user nothing happens. With an empty field there is an error and no write. Otherwise the record holds exactly the type, the parsed duration and calories, the timestamp as `date`, and the uid. The fields are cleared, and the form navigates back, only after the write is accepted. |
| `WorkoutForm.RecordedWorkoutShowsToday` | src/components/WorkoutForm.js:27 | A workout recorded at `now` appears in the dashboard's list for the day of `now` once a snapshot holds it. |
| `WorkoutForm.RecordedWorkoutCharted` | src/components/WorkoutForm.js:23-29 | A newly recorded workout raises the chart bucket of its weekday by its duration and no other bucket, in whatever order the snapshot lists it. |

## Left out

- Rendering, styles, chart drawing, and the route-to-icon and signed-in
  switches of the navigators: all of it is UI. Which alert a handler raises
  and where it navigates are modelled as results (`OutcomeAlert`,
  `invalidAlert`, `navigateToLogin`, `goBack`); the dialogs and the navigator
  themselves are not.
- `console.error` in the add-workout handler: a log line with no effect on state.
- Firebase calls. Subscriptions, one-shot reads, writes and authentication
  calls become parameters: a snapshot is a `seq` of documents; the water
  collection is an object holding a `map`; a write's acceptance is a `bool`;
  the authentication service is a function from credentials to an outcome.
  Store-assigned document ids are inputs.
- Effect cleanup and unsubscription: lifecycle plumbing with no logic.
- Concurrency. Two overlapping `addWater` calls can both read the same local
  total, so one update is lost. The model has only sequential calls.
- Date semantics. `getDay` (local time) is the parameter `weekday`.
  `toISOString` (UTC) is the parameter `now`. The water chart parses a bare
  `YYYY-MM-DD` as UTC midnight; that is also inside `weekday`.
- Dashboard.DashboardScreen.AddWater: the local total is fetched when the
  screen mounts and again whenever the signed-in user changes, not when the
  day changes. Across midnight, `addWater` writes the earlier day's total plus
  250 under the new day's id. The contract states this behaviour but nothing
  beyond it.
- Dashboard.DashboardScreen.FetchWaterIntake: a rejected read is not caught,
  so the local total keeps its old value (0 right after mount). The next
  `addWater` then overwrites the stored total with that value plus 250. The
  contract states both steps, so local and stored totals agree only after a
  successful read.
- Floating point. Numbers are exact reals (water amounts are integers), so
  IEEE rounding of `/` and of `+=` is not modelled. `Infinity` as a parsed
  input is not modelled either.
- Bmi.BmiScreen.CalculateBmi: `bmi` holds the displayed number, not the string
  `toFixed(1)` returns. `parseFloat` is a parameter and is not interpreted.
- WorkoutForm.WorkoutFormScreen.HandleAddWorkout: `parseFloat` is a total
  function to reals here. Non-numeric text, which the code stores as NaN, is
  not modelled, so neither is the NaN such a record puts in a chart bucket.
- Signup.ValidateSignup: the length check counts Unicode scalar values.
  JavaScript's `length` counts UTF-16 code units, so the two differ for
  characters outside the Basic Multilingual Plane.
- Signup.SignupErrorMessage: the table is a plain JavaScript object, so a code
  naming an inherited property (such as `constructor`) would yield a non-string
  truthy value. The model gives the default message instead.
- Login.LoginErrorMessage: the same inherited-property case as for sign-up is
  not modelled.
- Login.LoginScreen: the show/hide-password toggle is UI state with no logic.
- `src/screens/ProfileScreen.js` and `src/screens/HistoryScreen.js` (store and
  auth calls plus display), `src/components/WaterTracker.js` (a +1 counter) and
  `src/components/WorkoutItem.js` (a display row) are not part of this model.

## Findings

| source | as written | input that shows it | evidently intended | confidence | as-written member | corrected member |
|---|---|---|---|---|---|---|
| src/screens/BMIScreen.js:39-41 | Normal weight is `< 24.9` and Overweight is `>= 25 && < 29.9`. Values in [24.9, 25) and [29.9, 30) match no branch and fall to the final `else`, "Obesity". | A BMI of 24.95 gives "Obesity" while 25.0 gives "Overweight". 29.95 gives "Obesity". | The standard bands: Normal weight below 25, Overweight below 30. | medium; not executed | `Bmi.CategoryGapExample` | `Bmi.IntendedCategoryMonotone` |

The screen model, `Bmi.BmiScreen.CalculateBmi`, keeps the thresholds as
written, because it models the screen as it is. `Bmi.IntendedCategory` is the
corrected decision. `Bmi.CategoryDiscrepancy` proves exactly where the two
differ.
