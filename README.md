# Flood monitoring: alert evaluator, simulator and training data

This project models the decision logic of a small flood-monitoring system and proves properties of it in Dafny.
It has three parts:

- **The server** (`server.js`). Its `/update` handler validates one water-level sample from the field. It then:
  - computes the rate of change of the upstream level B against the previous sample;
  - drives a rapid-rise latch;
  - reads the two predictor replies, falling back to defaults;
  - sends a status-change push and a periodic danger reminder through Firebase Cloud Messaging;
  - builds the database record with a formatted countdown;
  - mirrors the sample to a cloud target, queueing it in an offline file when the post fails. A periodic sync pass re-posts the queue.

  The process-wide `appState` is the class `Server.AppState`. Each of its methods is proved against a pure function:
  - `RapidRiseStage`, `StatusChangeStage`, `ReminderStage`, `AlertStages`, `Process` and `Evaluate` describe one call as a value;
  - the lemmas about runs of calls use `States`.

  The offline queue is the class `OfflineQueue.UnsyncedFile`. The pure helpers are in module `Notify`: `formatCountdown`, the push title and body.
- **The simulator** (`fake_sensor.js`). Each call of `generateRealisticData` advances a five-phase flood machine:
  - NORMAL → RAINING → RISING → PEAK → FALLING → NORMAL, with fixed call budgets;
  - interpolates B and the flow towards their peak or baseline;
  - replays B as the downstream level A through a 15-deep lag queue;
  - counts down to the expected danger time;
  - classifies A and B into four statuses, with a log that fires only on a change;
  - clamps both levels.

  The module-level state is the class `Sensor.Simulator`. The `Math.random()` draws of a call are a parameter (`Draws`).
- **Training-data preparation** (`analyze.py`, `analyze_time.py`). This covers:
  - the ordered decision table that labels a stored row with a status;
  - the seven per-row features derived from the rows sorted by creation time. NaN and the infinities of pandas arithmetic are modelled explicitly (`Analyze.Float`);
  - the seven selected columns (`Analyze.Inputs`) handed to the classifier and to the regressor, with the labels or the countdown as target.

Everything outside the process is an input. This covers the predictor replies, the outcome of each push (sent, or an error code), whether each cloud post went through, and the clock readings (`Server.Replies`, `Server.Request`). It also covers whether Firebase is initialised and whether a sync target is configured (`Server.Env`), and the random draws of the simulator.

Levels, rates and countdowns are exact reals. Clock readings are integers in milliseconds.

Some requirements stated for this system do not exist in the source. These include alerts on an absolute jump or a high level, a cooldown or escalation rule on the rapid-rise alert, and re-arming at a fraction of the threshold. The model follows the code. It has exactly three alert blocks:
- a rapid-rise latch that re-arms only on a rate ≤ 0;
- the status-change notification;
- the danger reminder.

The danger countdown is likewise set only when RAINING is entered, not on entering every flood phase.

Files:
- `common.dfy`: `Option`, the four status strings, their severity order, clamping.
- `notify.dfy`: decimal rendering, countdown text, push title and body.
- `queue.dfy`: offline queue.
- `server.dfy`: `/update` and `appState`.
- `sensor.dfy`: simulator.
- `analyze.dfy`: labels and features.

## Model

| member | source | states |
|---|---|---|
| Notify.Decimal | server.js:130-131 | the decimal text of a whole number is non-empty and all digits |
| Notify.DecimalRoundTrip | server.js:130-131 | the digits of a rendered number read back as that number |
| Notify.LeadingDigits | server.js:130-131 | the length of the longest digit prefix: every character before it is a digit, the one at it is not |
| Notify.LeadingDigitsAt | server.js:130-131 | a digit prefix followed by a non-digit (or the end) is the longest one |
| Notify.ParseRender | server.js:130-131 | every "M phút S giây" / "S giây" text reads back as exactly the minutes and seconds it was rendered from |
| Notify.DigitsThenWord | server.js:130-131 | digits followed by a space-led word split back into the digits and the word |
| Notify.ParseWithMinutes | server.js:130 | the text with a minutes part parses to both numbers |
| Notify.MinutesPartAt | server.js:130 | digits followed by " phút " are the leading digits, and the text has a minutes part that splits off the rest |
| Notify.CountdownFields | server.js:128-129 | the minutes are the floor of s/60 (60·m ≤ s < 60·(m+1)) and the seconds are the remainder rounded half up, never more than 60 |
| Notify.FormatCountdown | server.js:126-132 | no text exactly for a missing, NaN or negative countdown; otherwise a text that reads back as the minutes and seconds of the countdown, with a minutes part exactly when the minutes are positive |
| Notify.WholeSecondsCountdown | server.js:126-132 | for whole seconds s the text is "s/60 phút s%60 giây" when s ≥ 60 and "s giây" otherwise |
| Notify.RoundedSecondsCanReachSixty | server.js:128-129 | rounding after the split gives 119.6 s as 1 minute and 60 seconds |
| Notify.NotificationTitle | server.js:134-142 | the four statuses get their fixed titles; any other status gets "Cảnh báo: " followed by the status itself, and a title starts with that prefix exactly for a status outside the four |
| Notify.BaseMessage | server.js:144-151 | the four statuses get their fixed sentences; any other status gets "Trạng thái: " followed by the status itself, and a message starts with that prefix exactly for a status outside the four |
| Notify.TitleInjective | server.js:134-142 | two statuses with the same push title are the same status (the four fixed titles and the "Cảnh báo: " fallback never collide) |
| Notify.CountdownTail | server.js:152-158 | the countdown sentence is appended iff the countdown formats and the status is not normal; it carries the formatted countdown; the evacuation call ends the body iff in addition the countdown is below 300 |
| Notify.NotificationBody | server.js:144-160 | the body starts with the status's base message and continues with exactly the countdown tail |
| OfflineQueue.Failed | server.js:251-260 | the failed entries are at most as many as the queued ones |
| OfflineQueue.Rejected | server.js:256-259 | the failed positions are in range, increasing and complete |
| OfflineQueue.FailedAreTheRejected | server.js:251-260 | the entries kept are exactly the entries at the failed positions, in queue order |
| OfflineQueue.NoneFailedIffAllPosted | server.js:261-267 | the queue ends empty exactly when every re-post succeeded |
| OfflineQueue.UnsyncedFile.constructor | server.js:231 | no queue file at start |
| OfflineQueue.UnsyncedFile.SaveUnsyncedData | server.js:228-240 | the payload and its clock reading are appended at the end, the file created if missing |
| OfflineQueue.UnsyncedFile.SyncPendingData | server.js:242-271 | with no target, no file or an empty queue nothing changes; otherwise the file is deleted when no post failed and holds exactly the failed entries in order when some did |
| Server.Decode | server.js:330-342 | a sample is refused exactly when a level does not parse or `isRaining` is absent; the rain flag is true only for `true` or "true" |
| Server.RateOf | server.js:347-355 | 0 without a stored timestamp or elapsed time, otherwise the rate times the elapsed seconds is the change against the stored value (the current one when none is stored) |
| Server.TokenClearing | server.js:175-204 | a push is delivered only with Firebase ready, a token and a successful send; the token is cleared exactly on one of the two invalid-token errors of a handed-over push |
| Server.AppState.constructor | server.js:109-115 | the initial `appState` |
| Server.AppState.RegisterFcmToken | server.js:309-320 | a missing or empty token is refused and changes nothing; otherwise it becomes the token |
| Server.Push | server.js:175-204 | one send as a value: nothing without Firebase or a token; otherwise the outcome, and the token is cleared exactly on an invalid-token error (its properties: `TokenClearing`) |
| Server.AppState.ShouldSendAIStatusNotification | server.js:162-172 | a status push is due exactly when a token is registered and the status differs from the last one sent (its properties: `StatusChangeRule`) |
| Server.AppState.SendPushNotificationInternal | server.js:175-204 | the result and the new token are those of `Push` |
| Server.AppState.SendAIStatusNotification | server.js:206-215 | the push carries the title and body for the status; token as `Push` |
| Server.AppState.SendRapidRiseNotification | server.js:217-225 | one rapid-rise push when handed over; token as `Push` |
| Server.AppState.CheckRapidRise | server.js:359-366 | the new state, pushes and firing are those of `RapidRiseStage` |
| Server.AppState.CheckStatusChange | server.js:386-390 | the new state, pushes and firing are those of `StatusChangeStage` (through `shouldSendAIStatusNotification`) |
| Server.AppState.CheckDangerReminder | server.js:392-398 | the new state, pushes and firing are those of `ReminderStage` |
| Server.AppState.RatesOfChange | server.js:346-355 | both rates are `RateOf` against the stored sample |
| Server.AppState.RaiseAlerts | server.js:358-398 | the three alert blocks in order leave the state and pushes of `AlertStages` |
| Server.AppState.Accept | server.js:344-461 | for a valid sample, the new state, response, pushes, record and queue are those of `Process` |
| Server.AppState.MirrorToCloud | server.js:429-451 | the payload is queued with its clock reading exactly when a target is configured and the post failed |
| Server.AppState.Update | server.js:323-461 | the whole handler: the new `appState`, response, pushes, record and queue file are those of `Evaluate` |
| Server.RapidRiseStage | server.js:359-366 | the rapid-rise block as a value: fire and raise the flag above 0.5 with the flag down, lower it on a rate ≤ 0 (its properties: `RapidRiseLatch`, `LatchStages`) |
| Server.StatusChangeStage | server.js:386-390 | the status-change block as a value (its properties: `StatusChangeRule`, `TimerStep`) |
| Server.ReminderStage | server.js:392-398 | the danger-reminder block as a value (its properties: `DangerReminderRule`, `TimerStep`) |
| Server.AlertStages | server.js:358-398 | the three alert blocks in source order, each on the state the previous one left (its properties: `LatchStages`, `TimerInvariantKept`, `EnteringDangerPushesTwice`) |
| Server.PersistedCountdown | server.js:408-414 | the countdown text stored with the record (its properties: `PersistedCountdownChoice`) |
| Server.Process | server.js:344-461 | one valid sample as a value: rates, predictor defaults, alerts, record, response and cloud mirroring (its properties: `RateAgainstPrevious`, `PredictorDefaults`, `RapidRiseLatch`, `StatusChangeRule`, `DangerReminderRule`) |
| Server.Evaluate | server.js:323-461 | one `/update` call as a value: 400 and no change on an invalid sample, else `Process` (its properties: `InvalidSampleRejected` and the lemmas listed for `Process`) |
| Server.InvalidSampleRejected | server.js:339-342 | a request gets 400 exactly when validation fails, and then no state, push, record or queue change happens |
| Server.RateAgainstPrevious | server.js:347-356 | the rates sent to the predictor are 0 without a reference or elapsed time, else the change over the elapsed seconds; the accepted sample becomes the next reference |
| Server.RapidRiseLatch | server.js:359-366 | the alert fires exactly when the rate exceeds 0.5 with the flag down, and raises the flag; the flag falls only on a rate ≤ 0; no rapid-rise push without firing |
| Server.LatchStages | server.js:359-398 | only the rapid-rise block touches the flag or pushes a rapid-rise notice |
| Server.PredictorDefaults | server.js:324-325 | status "Lỗi dự đoán" and time -1 unless the matching reply is usable, each independently (as parsed at lines 378-383) |
| Server.StatusChangeRule | server.js:386-390 | the status push is sent iff a token is still registered and the status differs from the last one sent; sending records the status and stops the danger timer unless the status is the danger status; without a token nothing changes |
| Server.DangerReminderRule | server.js:392-398 | a reminder fires only for the danger status with a token and a due timer, and restarts the timer at its clock reading; with a token that no earlier push invalidated those conditions suffice |
| Server.TimerStep | server.js:389-396 | only a reminder sets the timer; otherwise it keeps its value or is cleared |
| Server.PersistedCountdownChoice | server.js:408-414 | the stored countdown text formats the simulator's countdown when sent, else the predicted one; none exactly for a negative countdown |
| Server.TimerInvariantKept | server.js:386-398 | the danger timer runs only while the danger status is the last one sent, across any call |
| Server.EnteringDangerPushesTwice | server.js:386-398 | entering the danger status with a working token pushes the status alert and then the first reminder, with the same title and body, in one call |
| Server.States | server.js:323-461 | a run of calls has one state per call plus the start |
| Server.StatesStep | server.js:323-461 | each state of a run is the previous one after that call |
| Server.FlagComesDown | server.js:363-366 | a flag up at one call and down at a later one came down at a call in between |
| Server.RapidRiseRearmsOnlyAfterFall | server.js:359-366 | between two rapid-rise alerts of a run there is a valid sample whose B rate was not positive |
| Server.TimerHeld | server.js:392-397 | after a reminder the timer keeps its clock reading until the next reminder, while it runs |
| Server.RemindersSpaced | server.js:392-398 | consecutive reminders with the timer running throughout are more than two minutes apart (unless the first clock read 0) |
| Sensor.DerivedConstants | fake_sensor.js:27-29 | the three derived constants follow from the base ones (0.8 cm per call, 26.25 and 51.25 calls) |
| Sensor.NextClock | fake_sensor.js:55-98 | a call keeps the phase or moves to the next one; NORMAL becomes RAINING iff the rain draw fires; the counter restarts on every move; a flood phase ends exactly when its budget is used |
| Sensor.RainDrawIgnoredDuringFlood | fake_sensor.js:55 | outside NORMAL the rain draw changes nothing |
| Sensor.ClockRunLast | fake_sensor.js:61-98 | a run of n+1 calls is a run of n calls and one more |
| Sensor.ClockRunAdd | fake_sensor.js:61-98 | runs compose |
| Sensor.PhaseBudget | fake_sensor.js:63-90 | a flood phase entered at counter j stays for exactly the rest of its budget, then the next phase starts at 0 |
| Sensor.RainingSpansTenCalls | fake_sensor.js:55-67 | RAINING lasts exactly 10 calls counting the call that starts the rain |
| Sensor.FloodCycle | fake_sensor.js:61-91 | RISING, PEAK and FALLING last 30, 15 and 30 calls; the flood returns to NORMAL 84 calls after the rain's first call |
| Sensor.ReportedCountdown | fake_sensor.js:106-107 | the reported countdown is absent exactly in NORMAL, and otherwise max(0, 2 · remaining calls): never negative and at least twice the remaining calls |
| Sensor.CountdownAlongFlood | fake_sensor.js:106-107 | the k-th call of a flood reports max(0, 2·(51.25 − k)) seconds |
| Sensor.Approach | fake_sensor.js:69-73 | one interpolation call stays between the level and the target and lands on it with one call left |
| Sensor.SwitchLevels | fake_sensor.js:61-98 | the levels after the phase switch: unchanged while RAINING, interpolation in RISING and FALLING, noise in PEAK, a mean-reverting walk in NORMAL (its properties: `InterpolationEndpoints`, `GlideLands`) |
| Sensor.MeanRevert | fake_sensor.js:93-95 | one NORMAL walk step: a random step, then a tenth of the way back to the baseline |
| Sensor.RecedeIsApproach | fake_sensor.js:82-85 | the FALLING step is the same interpolation towards the baseline |
| Sensor.ApproachGap | fake_sensor.js:71 | one call leaves (r−1)/r of the gap |
| Sensor.GlideGap | fake_sensor.js:69-85 | after k of r calls the gap is (r−k)/r of the original |
| Sensor.GlideGapStep | fake_sensor.js:69-85 | the induction step of the gap law |
| Sensor.ClampedGlideIsGlide | fake_sensor.js:148 | clamping is inert while the level and target are in range |
| Sensor.GlideLands | fake_sensor.js:69-85 | after all r calls the level is on the target |
| Sensor.InterpolationEndpoints | fake_sensor.js:69-86 | B and the flow land exactly on their peaks on the last RISING call and on their baselines on the last FALLING call |
| Sensor.LagPush | fake_sensor.js:101-102 | a push keeps the queue within 15 and shifts a value out iff 15 were held |
| Sensor.LagQueue | fake_sensor.js:101-103 | the lag queue after a series of pushes from empty (its properties: `LagReplay`) |
| Sensor.LagOutput | fake_sensor.js:101-103 | the value the last push of a series shifts out, if any (its properties: `LagReplay`) |
| Sensor.LagReplay | fake_sensor.js:101-103 | the queue holds the last min(n, 15) pushed values, and from the 16th call on every call shifts out the value pushed 15 calls earlier |
| Sensor.ClassifyA | fake_sensor.js:110-113 | A's status with strict cutoffs above 28 / 25 / 20 |
| Sensor.ClassifyB | fake_sensor.js:127-134 | B's status with danger from 28 inclusive, then strict cutoffs 25 / 20 |
| Sensor.ClassifiersDifferOnlyAtPeak | fake_sensor.js:110-134 | the two classifications differ exactly at 28 |
| Sensor.ClassifyMonotone | fake_sensor.js:110-134 | a higher level never gives a less severe status |
| Sensor.EdgeLog | fake_sensor.js:116-123 | a line exactly when the status changes; the "safe" line only on a return from another status |
| Sensor.LogLines | fake_sensor.js:116-143 | at most one line per gauge per call |
| Sensor.EdgeLogs | fake_sensor.js:116-143 | one log decision per call of a series |
| Sensor.LogOnlyOnChange | fake_sensor.js:116-143 | over a series a line is logged exactly at the calls whose status differs from the previous call's |
| Sensor.Simulator.constructor | fake_sensor.js:31-50 | the start-up state, in RAINING with the full countdown under `--flood` |
| Sensor.Simulator.AdvancePhase | fake_sensor.js:54-98 | the rain trigger and the switch: the phase machine of `NextClock`, the levels of the handled phase, the countdown one above its reported value; the FALLING `else` is unreachable |
| Sensor.Simulator.ShiftLagQueue | fake_sensor.js:100-103 | the queue after the push, and A as the shifted value or its own walk |
| Sensor.Simulator.CountDown | fake_sensor.js:105-107 | one call less outside NORMAL, reported as `ReportedCountdown` |
| Sensor.Simulator.GenerateRealisticData | fake_sensor.js:52-159 | one call keeps the invariant (counter within budget, rain iff not NORMAL, countdown tied to the calls elapsed, 0 ≤ A ≤ 30, 0 ≤ B ≤ 28, queue ≤ 15) and states the new phase, levels before and after clamping, lag replay, statuses on the unclamped levels, logs and the returned sample |
| Analyze.FillNa | analyze.py:33 | no NaN afterwards, finite values kept |
| Analyze.Clean | analyze.py:32-33 | every cell finite afterwards; finite values kept, the others 0 |
| Analyze.TargetLabel | analyze.py:12-16 | every label is one of the four statuses |
| Analyze.CountdownTiers | analyze.py:14-15 | a countdown in (0,30], (30,60] or above 60 gives danger, high warning or warning whatever A is |
| Analyze.ZeroCountdownTiers | analyze.py:13-16 | with a zero or missing countdown, A above 28 / 25 / 20 gives danger / high / warning (first match wins), else normal; a missing A counts as 0 |
| Analyze.NegativeCountdownIsNormal | analyze.py:14-16 | a negative countdown gives the default label |
| Analyze.CreateTargetLabels | analyze.py:12-16 | one label per row, each a status, each the decision table's |
| Analyze.InsertSorted | analyze.py:21 | insertion keeps the rows sorted by creation time |
| Analyze.InsertPermutes | analyze.py:21 | insertion adds exactly the one row |
| Analyze.SortByCreatedAt | analyze.py:21 | sorted by creation time and a permutation of the rows |
| Analyze.Diff | analyze.py:23-25 | `Series.diff()`: NaN first, then each cell minus the previous one (its properties: `DiffTelescopes`, `RatesAreDiffOverGap`) |
| Analyze.DiffTelescopes | analyze.py:23-25 | on a finite column, the first cell plus the differences up to row i is the cell of row i: the difference column loses nothing but the first value |
| Analyze.FeatureOf | analyze.py:19-34 | the feature row derived from the i-th sorted row and the one before it (its properties: `FeaturesFollowSortedRows`, `RatesAreDiffOverGap`, `AbDiffFeature`, `RainFeature`, `NoMissingOrInfiniteValues`) |
| Analyze.CreateFeatures | analyze.py:19-34 | one feature row per row, row i derived from the i-th sorted row |
| Analyze.FeaturesFollowSortedRows | analyze.py:21-33 | feature rows come out in creation-time order with the sorted rows' own values, missing ones as 0 |
| Analyze.RatesAreDiffOverGap | analyze.py:23-33 | both rates are the difference over a positive gap when both values are present; 0 on the first row, a zero gap or a missing value |
| Analyze.RateCell | analyze.py:23-33 | the IEEE pipeline for one rate cell equals its closed form |
| Analyze.AbDiffFeature | analyze.py:26-33 | `ab_diff` is B − A when both are present, else 0 |
| Analyze.AbDiffCell | analyze.py:26-33 | the same for one cell |
| Analyze.RainFeature | analyze.py:30 | `is_raining_now` is 1 exactly when the countdown is present and positive, else 0 |
| Analyze.NoMissingOrInfiniteValues | analyze.py:32-33 | no NaN or infinity remains in any feature column |
| Analyze.SelectInputs | analyze.py:48-57 | `df_features[features]`: one input row of the seven selected columns per feature row |
| Analyze.InputsLeaveOutTarget | analyze.py:48-57 | the inputs do not depend on the countdown, the creation time or the time gap |
| Analyze.ClassifierTrainingData | analyze.py:45-61 | the classifier gets the seven selected columns of each feature row and that row's label; training is refused exactly when all labels are equal |
| Analyze.ClassCount | analyze.py:59-61 | fewer than two distinct labels exactly when all labels are equal |
| Analyze.RegressorTrainingData | analyze_time.py:13-51 | nothing below 50 rows; otherwise the seven selected columns of each feature row (the countdown is not among them) and, as target, the countdown column of the sorted rows with missing values as 0 |

## Left out

- HTTP routing, CORS, uploads, the health route, the database pool and table creation: one record is built per valid sample (`SensorRecord`), and writing it is not modelled.
- Firebase Admin initialisation and the messaging call itself: only whether Firebase is ready and the outcome of each send are inputs.
- The HTTP calls to the predictor and to the cloud target, the `setInterval` timers and the file reads and writes: their outcomes are inputs and the queue file is a field (`UnsyncedFile.file`).
- The `created_at` field of the cloud payload: it comes from the database reply or the wall clock.
- A queue file that does not parse as JSON, or holds something other than an array: `syncPendingData` then logs and keeps the file, which is not modelled.
- The 500 path of `/update` (server.js:463-475): it needs an exception inside code that does not throw once the outside calls are inputs.
- Interleaving of concurrent `/update` calls at `await` points: each call runs to completion.
- OfflineQueue.UnsyncedFile.SyncPendingData, OfflineQueue.UnsyncedFile.SaveUnsyncedData: each runs to completion, so the lost update of the source is not modelled. `syncPendingData` reads the file once (server.js:246-247) and then awaits each post (server.js:253). An `/update` that runs `saveUnsyncedData` meanwhile (server.js:443, 231-235) appends an entry that the final unlink or overwrite (server.js:261-267) then discards. A second `setInterval` pass (server.js:272) can start while the first is still posting and post the same entries twice.
- `RAPID_RISE_THRESHOLD` from the environment: the default 0.5 is a constant.
- A predictor `prediction` or a token that is not a string, and a status named like an object property (`titleMap[status]` on a prototype key): statuses and tokens are strings.
- Infinity as a level or a predicted time: reals have none; NaN is `None`.
- `toFixed`, the rounding of numbers to text and of JavaScript floats: levels are exact reals, and `Math.round` is round-half-up on exact values.
- Notify.FormatCountdown: a number rendered in exponent notation by JavaScript (very large countdowns) is rendered as plain digits.
- The `time_until_a_danger` column is VARCHAR in the database (server.js:287) but is read back as a number by the training scripts: rows are modelled with an optional numeric countdown.
- Sensor.Simulator.GenerateRealisticData: the `console` lines are modelled as which gauge logged which status, not as text.
- The sort's tie order for rows with equal `created_at` (pandas' default sort is not stable): any order sorted by creation time is accepted.
- The sklearn training and evaluation, `train_test_split` and the `joblib` dumps in analyze.py and analyze_time.py.
- Server.RemindersSpaced, Server.TimerHeld: they assume the timer keeps running between the two reminders; a status change away from danger clears it.
- model_api.py and sync.js are not part of this model.
