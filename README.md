# FitHub movement-estimation core in Dafny

A Dafny model of the logic inside FitHub, a fitness-tracking web application. The application has a React front end and an Express/SQLite back end. The model covers eight parts of it:

- **The step, distance and energy model** (`src/lib/stepCalculations.ts`), module `StepCalculations`:
  - the BMI-bucket stride adjustment and the gender constants;
  - the conversion from distance to steps and back;
  - the walking-intensity calorie estimator;
  - the MET-based calorie calculation with its steps-only fallback.
- **The filtered live tracker** (`src/lib/locationTracking.ts`), module `LocationTracking`:
  - `Tracker` is the state object that the position-watch callback updates in place;
  - stopping, average speed, maximum speed and the session record are functions of that state's value.
- **The unfiltered premium tracker** (`src/components/app/MapTracker.tsx`, without the map drawing), module `MapTracker`:
  - every position is appended;
  - the path distance is recomputed from scratch;
  - the speed comes from the last five positions and feeds the step and MET model;
  - stopping emits the session record.
- **The server-side step log** (`server/controllers/stepsController.ts`), module `StepsController`:
  - request validation;
  - the upsert keyed by user and date, and deletion;
  - the weekly and monthly statistics.
- **Saving a premium session** (`server/controllers/trackController.ts`), module `TrackController`: the ordered guard checks and the row that is stored.
- **The BMI and hydration tools** (`src/pages/app/Tools.tsx`), module `Tools`.
- **The Mifflin-St Jeor calorie calculator** (`src/components/website/CalorieCalculator.tsx`), module `CalorieCalculator`: the form bounds and the TDEE (total daily energy expenditure) result.
- **The user store** (`server/models/User.ts`), module `UserModel`:
  - the profile-update statement builder;
  - the reset-token expiry rule;
  - password update and account creation.

Two shared modules support the others:

- **`Js`** holds the JavaScript semantics the code relies on:
  - optional values and truthiness (`0`, `""`, `null` and `undefined` are falsy);
  - `Math.round`, as the floor of `x + 0.5`;
  - `Number(x.toFixed(n))`, as decimal rounding.
- **`Geo`** holds the path length over a distance function.

Numbers are exact reals. The haversine functions are not evaluated. Each tracker takes the distance function as a value of type `Geo.DistanceFn`: any function of two coordinates that is never negative.

The clock (`Date.now()`), the geolocation positions and their error codes become method arguments. So do the watch ids, the premium flag read from the database and the next row id.

Behaviours of the code that the model keeps as written:

- the watch callback of the filtered tracker (`src/lib/locationTracking.ts:133-162`) checks only the accuracy and the distance moved, so a fix whose timestamp is older than the last one is still recorded;
- the zod bounds of the calorie form (`src/components/website/CalorieCalculator.tsx:8-10`) are inclusive `.max(300)`, `.max(250)` and `.max(100)`, so weight 300, height 250 and age 100 are accepted although the messages say "less than";
- `addSteps` answers a missing user with 400 together with the missing-field cases (`server/controllers/stepsController.ts:73-75`), where the other step handlers answer 401;
- `getAverageSpeed` mixes seconds and milliseconds (see Findings).

## Model

| member | source | states |
|---|---|---|
| Js.Round | src/lib/stepCalculations.ts:53 | `Math.round` gives an integer within half a unit of its argument, ties rounded up. |
| Js.ToFixed | src/lib/stepCalculations.ts:71 | `Number(x.toFixed(n))` times 10ⁿ is x × 10ⁿ rounded half away from zero, so the result has at most n decimals. It is within half a unit in the n-th decimal of x and keeps x's sign. |
| Geo.PathLengthAppend | src/lib/locationTracking.ts:155-157 | Appending a point to a path adds exactly the leg from the previous last point. |
| Geo.PathLengthNonNegative | src/components/app/MapTracker.tsx:192-196 | With non-negative legs a path's length is never negative. |
| StepCalculations.GenderConstant | src/lib/stepCalculations.ts:13-17 | 0.43 exactly for "male", 0.41 exactly for "female", and 0.42 for any other gender (the `|| 0.42` fallback). |
| StepCalculations.AdjustmentForBmi | src/lib/stepCalculations.ts:29-32 | 1.05 iff BMI < 18.5; 1.0 iff 18.5 ≤ BMI ≤ 24.9; 0.95 iff 24.9 < BMI ≤ 29.9; 0.90 iff BMI > 29.9. |
| StepCalculations.WeightAdjustment | src/lib/stepCalculations.ts:20-33 | The adjustment is always one of the four values 1.05, 1.0, 0.95 and 0.90. |
| StepCalculations.AdjustmentNonIncreasing | src/lib/stepCalculations.ts:29-32 | A larger BMI never gets a larger adjustment. |
| StepCalculations.WeightAdjustmentNonIncreasingInWeight | src/lib/stepCalculations.ts:20-33 | At a fixed height, more weight never gets a larger adjustment. |
| StepCalculations.Bmi | src/lib/stepCalculations.ts:20-22 | The BMI times the squared height in metres is the weight. |
| StepCalculations.StepsPerKm | src/lib/stepCalculations.ts:46-51 | The factor times height × gender constant × weight adjustment is exactly 100000. It is positive for a positive height. |
| StepCalculations.StepsFromDistance | src/lib/stepCalculations.ts:41-54 | The result is within half a step of stepsPerKm × distance. It is 0 for distance 0 and non-negative for a positive height and a non-negative distance. |
| StepCalculations.StepsMonotone | src/lib/stepCalculations.ts:41-54 | For a positive height, a longer distance never gives fewer steps. |
| StepCalculations.DistanceFromSteps | src/lib/stepCalculations.ts:62-72 | The result times 100 is steps / stepsPerKm × 100 rounded half away from zero, with the same factor as the forward conversion. So it is within 0.005 km of steps / stepsPerKm. It is non-negative for non-negative steps. |
| StepCalculations.StepsDistanceRoundTrip | src/lib/stepCalculations.ts:41-72 | Distance → steps → distance lands within 0.5/stepsPerKm + 0.005 km of the original. |
| StepCalculations.IntensityMultiplier | src/lib/stepCalculations.ts:86-90 | The multiplier is 0.8 for slow, 1.0 for moderate and 1.3 for fast. |
| StepCalculations.EstimateCaloriesBurned | src/lib/stepCalculations.ts:79-93 | The result is within half a kcal of weight × distance × 0.57 × multiplier. It is 0 when the distance or the weight is 0. |
| StepCalculations.EstimateDefaultsToModerate | src/lib/stepCalculations.ts:82 | An omitted intensity gives the moderate result. |
| StepCalculations.EstimateIntensityOrder | src/lib/stepCalculations.ts:84-92 | For non-negative inputs, slow ≤ moderate ≤ fast. |
| StepCalculations.StrideConstant | src/lib/stepCalculations.ts:125 | The stride fraction is 0.415 iff male, 0.413 iff female, and 0.414 otherwise. |
| StepCalculations.MetForSpeed | src/lib/stepCalculations.ts:132-142 | For a known positive speed: 2.8 iff speed < 3.2, 3.5 iff 3.2 ≤ speed < 4.8, 5.0 iff speed ≥ 4.8. Without one: 3.5. |
| StepCalculations.MetForSpeedMonotone | src/lib/stepCalculations.ts:133-137 | A faster positive speed never gets a smaller MET. |
| StepCalculations.DerivedDistance | src/lib/stepCalculations.ts:120-128 | A given distance is used as is. Without one, a distance exists exactly when steps and height are both truthy, and then distance × 1000 = height/100 × stride fraction × steps. |
| StepCalculations.DurationSpeed | src/lib/stepCalculations.ts:146-151 | The duration divides by the given speed when it is a truthy positive number, and by 4.8 otherwise. Either way it is positive. |
| StepCalculations.CaloriesMET | src/lib/stepCalculations.ts:107-167 | See the note after this table. |
| StepCalculations.MetEquationWithGivenDistance | src/lib/stepCalculations.ts:144-160 | With a positive weight and a given positive distance, calories are within half a kcal of (distance × 60 / speed) × met × 3.5 × w / 200. |
| StepCalculations.CaloriesUseDistanceWhenGiven | src/lib/stepCalculations.ts:144-160 | With a positive weight and a given positive distance, that distance is used and the duration is positive, so the MET equation applies. |
| StepCalculations.CaloriesNonNegative | src/lib/stepCalculations.ts:157-164 | Calories are never negative for a non-negative weight, MET override and step count. |
| LocationTracking.FromPosition | src/lib/locationTracking.ts:134-141 | A position becomes a record with the same coordinates, accuracy and time. A zero or missing speed or altitude is dropped. |
| LocationTracking.ErrorMessage | src/lib/locationTracking.ts:256-267 | Codes 1, 2 and 3 each map to their own message, in both directions. Every other code maps to the unknown-error message. |
| LocationTracking.StartRejection | src/lib/locationTracking.ts:103-186 | The start is rejected with "not supported" exactly when geolocation is missing, and otherwise with the message for the initial request's error code. |
| LocationTracking.Tracker.Start | src/lib/locationTracking.ts:113-129 | The initial state: tracking, distance 0, only the initial fix (its accuracy unchecked), start = now, no error, duration 0, the watch id set, and the running-distance invariant. |
| LocationTracking.Accepts | src/lib/locationTracking.ts:146-158 | A fix is accepted exactly when its accuracy is below 20 m and the leg from the last recorded fix is more than 0.005 km. |
| LocationTracking.Tracker.OnFix | src/lib/locationTracking.ts:133-162 | See the note after this table. |
| LocationTracking.Tracker.OnError | src/lib/locationTracking.ts:163-165 | The state snapshot after the call is the one before it with `error` set to the message for the code. The invariant is kept. |
| LocationTracking.Stop | src/lib/locationTracking.ts:191-205 | A copy that is not tracking, ends at now, and has totalDuration = the whole seconds since the start (a null start counts as 0). Distance, locations, start, error and watch id are preserved. |
| LocationTracking.AverageSpeed | src/lib/locationTracking.ts:210-215 | 0 without a start or with fewer than two fixes. Otherwise defined exactly when the divisor is non-zero, and then speed × divisor = distance × 3 600 000. The divisor is totalDuration, or the elapsed milliseconds when totalDuration is 0. |
| LocationTracking.AverageSpeedPositive | src/lib/locationTracking.ts:213-214 | A positive distance over a positive divisor gives a positive average. |
| LocationTracking.AverageSpeedSecondsReadAsMilliseconds | src/lib/locationTracking.ts:213 | 1 km over a 3600 s totalDuration reports 1000 km/h as written, and 1 km/h when the units are consistent. |
| LocationTracking.IntendedAverageSpeed | src/lib/locationTracking.ts:210-215 | With the recorded seconds converted to milliseconds: 0 for the same short cases; otherwise defined iff the duration is non-zero, and then speed × milliseconds = distance × 3 600 000. |
| LocationTracking.IntendedAverageAfterStop | src/lib/locationTracking.ts:191-215 | After a stop at least one second in, the corrected speed × totalDuration (s) = distance × 3600, i.e. km/h. |
| LocationTracking.PeakSpeed | src/lib/locationTracking.ts:220-232 | The peak is ≥ 0 and ≥ speed × 3.6 of every fix with a truthy speed. It is either 0 or attained by one of those fixes. |
| LocationTracking.MaxSpeed | src/lib/locationTracking.ts:220-232 | The loop's result is the peak over all fixes except the last. |
| LocationTracking.CreateTrackingSession | src/lib/locationTracking.ts:237-251 | The session has id = now, is not saved, and copies times, distance and locations. Its average is the as-written average speed. Its maximum is the peak speed over every fix but the last, so it is ≥ 0 and bounds each of them. |
| MapTracker.Metrics | src/components/app/MapTracker.tsx:199-203 | A missing value becomes 170, 70 or "other". A present truthy height, weight or gender is kept exactly. Otherwise the default is used. None of the three is ever 0 or empty. |
| MapTracker.ElapsedTelescopes | src/components/app/MapTracker.tsx:216 | The summed pairwise seconds equal (last − first timestamp) / 1000. |
| MapTracker.Window | src/components/app/MapTracker.tsx:208-212 | The window is the last min(5, n) positions. |
| MapTracker.WindowSpeed | src/components/app/MapTracker.tsx:207-222 | A speed exists exactly when the window has two positions and a positive summed time. Then speed × window hours = window distance. |
| MapTracker.WindowSpeedDefined | src/components/app/MapTracker.tsx:207-222 | The speed exists iff the window's last timestamp is after its first. Then speed × window milliseconds = window distance × 3 600 000. |
| MapTracker.UpdateFor | src/components/app/MapTracker.tsx:191-231 | The update carries the whole path's length as its distance, the windowed speed, and the steps for that distance. Its calories and met are those the MET model returns for that distance and speed with the user's metrics. |
| MapTracker.UpdateNonNegative | src/components/app/MapTracker.tsx:191-231 | For a profile without negative values, the reported distance, steps and calories are non-negative. |
| MapTracker.LiveDistanceGrows | src/components/app/MapTracker.tsx:192-196 | Each new position adds exactly its leg to the reported distance, so the distance never decreases. |
| MapTracker.SessionOf | src/components/app/MapTracker.tsx:257-266 | Start and end are the first and last timestamps, or null for an empty path or a 0 timestamp. The distance times 1000 is the live distance × 1000 rounded half away from zero, so it is within 0.0005 of it. Steps, calories and path are the live values. |
| MapTracker.TotalDistance | src/components/app/MapTracker.tsx:192-196 | The loop's sum is the path length over every consecutive pair, and is non-negative. |
| MapTracker.RecentSpeed | src/components/app/MapTracker.tsx:207-222 | The window loop's speed is the windowed speed: the window distance over the window hours, or undefined when the summed time is ≤ 0. |
| MapTracker.Tracker.constructor | src/components/app/MapTracker.tsx:26-32 | The component's initial state: empty path, not running, zero live values, no error, no watch. |
| MapTracker.Tracker.Start | src/components/app/MapTracker.tsx:141-158 | Without geolocation nothing changes. Otherwise the path and live values are reset. Without a ready map: not running, a "still loading" error, no watch; with one: running and watching. |
| MapTracker.Tracker.OnPosition | src/components/app/MapTracker.tsx:161-234 | The position is always appended. With more than one position, the stored distance, steps and calories are those of the update, which is fired once. Its met is the MET the calorie model used. Otherwise there is no update and nothing else changes. |
| MapTracker.Tracker.Stop | src/components/app/MapTracker.tsx:250-270 | The watch is cleared, tracking stops, and the session built from the current path and live values is emitted. |
| StepsController.AddCheck | server/controllers/stepsController.ts:73-79 | Missing-fields exactly when there is no user, no date, or undefined steps. Otherwise invalid-steps exactly when steps is not a number in 0..100000 inclusive. Accepted otherwise. |
| StepsController.NullIfFalsy | server/controllers/stepsController.ts:92 | A missing value or 0 is stored as null; anything else as given. |
| StepsController.NullIfEmpty | server/controllers/stepsController.ts:92 | A missing or empty note is stored as null. |
| StepsController.EntryFor | server/controllers/stepsController.ts:92 | The stored row carries the steps, the null-if-falsy calories, distance and notes, and the mode. The mode is "manual" exactly when it is missing, empty or "manual". |
| StepsController.StepsLog.AddSteps | server/controllers/stepsController.ts:68-114 | A rejected request changes nothing. An accepted one writes exactly the (user, date) entry: it overwrites and keeps the id, or inserts under a fresh id. Every other entry is untouched, and row ids stay distinct. |
| StepsController.StepsLog.DeleteSteps | server/controllers/stepsController.ts:194-211 | Without a user: 401 and no change. Otherwise exactly the (user, date) entry is gone and all others are unchanged. |
| StepsController.TotalStepsNonNegative | server/controllers/stepsController.ts:134 | With no negative step counts the total is non-negative. |
| StepsController.TotalStepsAppend | server/controllers/stepsController.ts:134 | The total of two runs of rows is the sum of their totals; the total of no rows is 0. |
| StepsController.TotalCaloriesNonNegative | server/controllers/stepsController.ts:137 | With no negative calories the calorie total is non-negative. |
| StepsController.TotalCaloriesAppend | server/controllers/stepsController.ts:137 | The calorie total of two runs of rows is the sum of their totals; the total of no rows is 0. |
| StepsController.TotalAtMostCountTimesMax | server/controllers/stepsController.ts:134-136 | A total is at most n times any bound on the rows' steps. |
| StepsController.RowAtMostTotal | server/controllers/stepsController.ts:134 | With no negative step counts, each row's steps are at most the total. |
| StepsController.MaxSteps | server/controllers/stepsController.ts:136 | 0 for no rows; otherwise ≥ every row's steps and equal to one of them. |
| StepsController.StatsOf | server/controllers/stepsController.ts:134-146 | The total is the sum of the steps and the calories total counts a missing value as 0. The average is within half a step of total/n (0 for no rows). The maximum is attained and bounds every row. daysTracked = n. |
| StepsController.PeriodStatsFor | server/controllers/stepsController.ts:156-191 | 401 exactly without a user, else the statistics of the period's rows. The weekly handler at lines 117-153 is the same. |
| StepsController.StatsOrdered | server/controllers/stepsController.ts:134-136 | For non-empty rows of non-negative whole step counts, avg ≤ max ≤ total. |
| TrackController.ValidationError | server/controllers/trackController.ts:12-23 | The four checks run in order and the first failure wins, each stated as an if-and-only-if. No error exactly when every present count is a non-negative number and a present path is an array. |
| TrackController.CountOrZero | server/controllers/trackController.ts:39-41 | A present count is stored as given, a missing one as 0; either way it is non-negative. |
| TrackController.RowFor | server/controllers/trackController.ts:35-43 | The stored row: falsy times become null, the counts go through `CountOrZero`, and the path is the array or []. |
| TrackController.SaveSession | server/controllers/trackController.ts:4-50 | 401 without a user, then 400 with the first validation message, then 403 for a missing or non-premium user. A premium user with a valid body gets the new id and the row built from the body. A row is stored exactly when the reply is saved. |
| TrackController.ValidationPrecedesPremium | server/controllers/trackController.ts:12-29 | An invalid body gets the same 400 whatever the premium status, never a 403. |
| Tools.CategoryOf | src/pages/app/Tools.tsx:18-22 | Underweight iff < 18.5, Normal iff [18.5, 25), Overweight iff [25, 30), Obese iff ≥ 30. |
| Tools.CategoryMonotone | src/pages/app/Tools.tsx:18-22 | A larger BMI never gets a lighter category. |
| Tools.BmiValue | src/pages/app/Tools.tsx:15-16 | The BMI times the squared height in metres is the weight. It is positive for a positive weight. |
| Tools.CalculateBmi | src/pages/app/Tools.tsx:13-25 | No result iff height ≤ 0 or weight ≤ 0. Otherwise the shown BMI is `Math.round(bmi × 10) / 10` of w/(h/100)², so it is within 0.05 of it. The category is that of the unrounded BMI. |
| Tools.CategoryMonotoneInWeight | src/pages/app/Tools.tsx:15-22 | At a fixed height, more weight never gets a lighter category. |
| Tools.RoundToTenth | src/pages/app/Tools.tsx:24 | `Math.round(x * 10) / 10` is within 0.05 of x. |
| Tools.BmiButton | src/pages/app/Tools.tsx:84-87 | An empty or zero input clears the result. Otherwise a computed result replaces it, and an early return keeps the shown one. |
| Tools.ActivityFactor | src/pages/app/Tools.tsx:32-38 | 1.0 for low, 1.2 for moderate, 1.5 for high, and 1.0 for any other activity. |
| Tools.CalculateHydration | src/pages/app/Tools.tsx:27-40 | No result iff weight ≤ 0. Otherwise the result is within half a millilitre of w × 30 × factor, and non-negative. |
| Tools.HydrationActivityOrder | src/pages/app/Tools.tsx:30-39 | For a positive weight, low ≤ moderate ≤ high. |
| Tools.HydrationButton | src/pages/app/Tools.tsx:129-132 | An empty or zero weight clears the result, a negative one keeps it, and a positive one shows the computed value. |
| CalorieCalculator.ParseGender | src/components/website/CalorieCalculator.tsx:11 | Only "male" and "female" are accepted, each iff given. |
| CalorieCalculator.ParseActivity | src/components/website/CalorieCalculator.tsx:12 | Only the five activity names are accepted, each iff given. |
| CalorieCalculator.Validate | src/components/website/CalorieCalculator.tsx:7-13 | Accepted iff weight in [20, 300], height in [100, 250], age in [10, 100], and both choices valid. The accepted form carries the given values. |
| CalorieCalculator.Bmr | src/components/website/CalorieCalculator.tsx:25-30 | The Mifflin-St Jeor BMR: 10w + 6.25h − 5a, plus 5 for a male and minus 161 for a female. |
| CalorieCalculator.Multiplier | src/components/website/CalorieCalculator.tsx:32-38 | 1.2, 1.375, 1.55, 1.725 and 1.9 for the five activity levels, so never below 1.2. |
| CalorieCalculator.MultiplierIncreasing | src/components/website/CalorieCalculator.tsx:32-38 | The multipliers strictly increase with the activity level. |
| CalorieCalculator.Tdee | src/components/website/CalorieCalculator.tsx:40-41 | The result is within half a kcal of BMR × multiplier. |
| CalorieCalculator.Submit | src/components/website/CalorieCalculator.tsx:19-41 | A rejected form leaves the shown result; an accepted one shows its TDEE. |
| CalorieCalculator.MaleFemaleDifference | src/components/website/CalorieCalculator.tsx:25-30 | With everything else equal, the male BMR is the female BMR + 166. |
| CalorieCalculator.BmrPositiveOnValidForms | src/components/website/CalorieCalculator.tsx:7-30 | Every accepted form has a BMR of at least 164. |
| CalorieCalculator.TdeeMonotoneInWeight | src/components/website/CalorieCalculator.tsx:25-41 | The result is non-decreasing in weight. |
| CalorieCalculator.TdeeMonotoneInHeight | src/components/website/CalorieCalculator.tsx:25-41 | The result is non-decreasing in height. |
| CalorieCalculator.TdeeNonIncreasingInAge | src/components/website/CalorieCalculator.tsx:25-41 | The result is non-increasing in age. |
| CalorieCalculator.TdeeMonotoneInActivity | src/components/website/CalorieCalculator.tsx:25-41 | On an accepted form, the result is non-decreasing in the activity level. |
| UserModel.Create | server/models/User.ts:19-23 | A taken email leaves the table alone. Otherwise a row with is_premium = 1 is added under the next id, which no row holds yet. Every earlier row is kept, and the AUTOINCREMENT invariant (every id below the next one) is preserved. |
| UserModel.SetResetToken | server/models/User.ts:45-48 | Only the user's token and expiry change; the expiry is now + expiresIn, 3 600 000 by default. An unknown id changes nothing. The AUTOINCREMENT invariant is kept. |
| UserModel.FindByResetToken | server/models/User.ts:35-38 | A returned user has the token with an expiry after now. No user is returned only when no row matches. |
| UserModel.ResetTokenWindow | server/models/User.ts:35-48 | A freshly set token matches exactly while now < set time + expiresIn. |
| UserModel.UpdatePassword | server/models/User.ts:55-58 | The new hash is stored and the token and expiry are cleared, so no token matches any more. Other rows are untouched. The AUTOINCREMENT invariant is kept. |
| UserModel.Assignments | server/models/User.ts:66-72 | At most five assignments, none exactly when every field is undefined. |
| UserModel.PushIfDefined | server/models/User.ts:68-72 | One field's step appends its clause and parameter exactly when it is defined. |
| UserModel.BuildProfileUpdate | server/models/User.ts:65-78 | No statement iff every field is undefined. Otherwise one "col = ?" clause and one parameter per defined field, in the fixed order, with the user id last: params = clauses + 1. |
| UserModel.WithProfile | server/models/User.ts:65-79 | The reference effect: only defined profile fields are overwritten; email, password, premium flag and token survive. |
| UserModel.AssignmentsImplementProfile | server/models/User.ts:66-77 | Running the built SET clauses on a row gives exactly the reference effect. |
| UserModel.UpdateProfile | server/models/User.ts:65-79 | No change when no field is defined or the user is missing. Otherwise only that user's row changes, to the reference effect. The AUTOINCREMENT invariant is kept. |

Notes on the two longest contracts:

- **StepCalculations.CaloriesMET**:
  - a weight ≤ 0 returns calories 0 and met = override || 0, and nothing else;
  - otherwise the distance is `StepCalculations.DerivedDistance`: the given one, else the stride estimate;
  - the met is the non-zero override, else the speed bucket;
  - a duration exists iff a distance does, and duration × speed = distance × 60;
  - with a positive duration, calories are within half a kcal of duration × met × 3.5 × w / 200;
  - otherwise calories are the steps estimate, or 0.
- **LocationTracking.Tracker.OnFix**:
  - a fix is recorded iff its accuracy < 20 and its leg from the last recorded fix is > 0.005 km;
  - a recorded fix adds exactly that leg and appends the fix; a rejected one changes neither;
  - distance never decreases and locations only grow;
  - the running distance stays equal to the path length;
  - totalDuration is the whole seconds since the start.

## Findings

| source | as written | input that shows it | evidently intended | confidence | as-written member | corrected member |
|---|---|---|---|---|---|---|
| src/lib/locationTracking.ts:213 | A non-zero `totalDuration`, which holds whole seconds, is divided by 3 600 000 as if it were milliseconds. | distance 1 km, two fixes, totalDuration 3600 s: the average is 1000 km/h | convert seconds to milliseconds first; the example then gives 1 km/h | high, not executed | LocationTracking.AverageSpeed, with LocationTracking.AverageSpeedSecondsReadAsMilliseconds | LocationTracking.IntendedAverageSpeed, with LocationTracking.IntendedAverageAfterStop |

`CreateTrackingSession` keeps the as-written average, because it models what the code stores.

## Left out

- The haversine formula (`calculateDistance`, `haversineDistance`) is trigonometry on doubles. The trackers are proved for every non-negative distance function instead.
- IEEE-754 behaviour is not modelled: exact reals replace doubles, so `NaN`, `Infinity` and binary rounding artefacts are absent.
- LocationTracking.AverageSpeed returns `None` where JavaScript would divide by zero and produce `Infinity` or `NaN`.
- Browser I/O is not modelled: geolocation, `Date.now()` and the Google Fit integration are arguments or absent.
- `getCurrentPosition` and `isGeolocationSupported` are wrappers around the browser API. Only their record conversion (`FromPosition`) and error text are modelled.
- MapTracker's Leaflet map (script loading, polyline, marker, panning) and the premium gate that only renders are not modelled.
- MapTracker.Tracker.Stop uses the current state; the source's `stop` may read positions from an earlier render through a stale closure, which is not modelled.
- The watch error callback of MapTracker (`'Geolocation failed: ' + message`) and the exception handler of `start` are not modelled.
- The SQL date windows (`date('now', '-7 days')`, `-30 days`) and the `ORDER BY` are not modelled. The statistics are stated over whatever rows the query returns.
- Non-numeric `caloriesBurned`, `distanceKm` and `notes` values in a steps request are not modelled; each is a number or string, or absent.
- `getStepsHistory` and `getStepsByDate` are single SELECTs and are not modelled. Neither are database errors (the 500 replies).
- In TrackController, `JSON.stringify` of the path is represented by the path's items. The ISO time strings MapTracker builds are represented by the timestamps.
- `findByEmail`, `findById`, `findByRememberToken`, `setRememberToken`, `updatePremium` and `addOfflineSteps` are single statements without logic and are not modelled.
- The `created_at` value `create` returns is not modelled.
- A profile field given as `null` (not undefined) is not modelled, since it is written as NULL.
- StepCalculations.StepsPerKm, StepsFromDistance and DistanceFromSteps require a non-zero height. The source divides by zero there, and only the positive-height results are meaningful.
- StepsController.StatsOrdered requires whole step counts: with fractional counts the rounded average can exceed the maximum (one row of 0.5 steps averages to 1).
- CalorieCalculator.Validate does not model the per-field error messages the form collects; a form is either accepted as a whole or not submitted.
