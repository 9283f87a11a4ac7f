# Driver-safety monitoring core, modelled in Dafny

This project models the decision logic of the driver-safety web frontend:

- the per-frame risk scoring and alert policy of the detection hook (`useAIDetection`): six weighted signals give a 0..140 score, the score is bucketed into `safe`/`moderate`/`high`/`critical`, up to five typed alerts are attempted per frame, each type has its own 5000 ms cooldown, and a toast is chosen per created alert;
- the session store (`useDriverStore`) and its actions, including the newest-first alert log capped at 100 entries;
- the SOS popup: the ten-second countdown, automatic and manual dispatch, cancel and close;
- the alert popup: the ten-second auto-dismiss, the alarm sound and the mute toggle;
- the drive page: which alert is put on screen, dismissal, trip start and end, the duration counter and its `HH:MM:SS` text;
- the emergency-contact list of the emergency page;
- the detection overlay's indicators;
- the history page's search, summary figures, score colour and alert badge.

One module per source file:

| module | file |
|---|---|
| `Types` | types.dfy |
| `Decimal` (integer-to-text rendering) | decimal.dfy |
| `Store` | store.dfy |
| `RiskPolicy` (the hook's policy as pure functions) | risk_policy.dfy |
| `AIDetectionHook` (the hook as a class proved against `RiskPolicy`) | ai_detection.dfy |
| `SosPopup` | sos_popup.dfy |
| `AlertPopup` | alert_popup.dfy |
| `DrivePage` | drive_page.dfy |
| `EmergencyPage` | emergency_page.dfy |
| `DetectionOverlay` | detection_overlay.dfy |
| `HistoryPage` | history_page.dfy |

Objects that the source updates in place are classes: the store, the hook's cooldown table, the popups' component state and the pages' local state. Each class method states its whole new state. It is either the old state with some fields replaced, or a pure step function applied to the old view. The properties are proved about those step functions.

React effects, intervals and the simulated dispatch delay are explicit steps:

- `Refresh`/`RunEffect` is one run of an effect: its cleanup, then its body.
- `Tick` is one firing of an interval.
- `Complete` is the resolution of one pending dispatch.

`Date.now()`, `Math.random()` and the frame sample are parameters.

Where the code and the design description of the system disagree, the model follows the code:

- The SOS popup offers cancel while a dispatch is in flight, and "Close" calls the same handler. The design says cancelling is refused once sending has begun.
- The dispatch always succeeds. There is no failure branch.
- "Send Now" leaves the countdown interval running, so the countdown still fires a second dispatch when it runs out.
- The alert popup calls `onDismiss` at 0 and keeps calling it on every later tick. It does not reset itself.
- The drive page puts the newest unacknowledged urgent alert on screen, because the store prepends.
- A cooldown entry of 0 reads as "never fired", because the check is a JavaScript truthiness test.

## Model

| member | source | states |
|---|---|---|
| `Types.Rank` | frontend/lib/types.ts:3 | the four risk levels are totally ordered, safe lowest and critical highest |
| `Decimal.NatToString` | frontend/app/drive/page.tsx:140 | `toString()` of a non-negative integer is a non-empty string of decimal digits; it has one digit exactly below 10 and at most two exactly below 100 |
| `Decimal.NatToStringRoundTrip` | frontend/app/drive/page.tsx:140 | reading the rendered digits back gives the number |
| `Decimal.NatToStringInjective` | frontend/hooks/use-ai-detection.ts:89 | distinct numbers render differently, so the instant embedded in an id is recoverable |
| `Decimal.PadStart2` | frontend/app/drive/page.tsx:140 | `padStart(2, "0")` keeps the text as its suffix, only prepends zeros, and yields length max(2, len) |
| `Decimal.PadStart2Value` | frontend/app/drive/page.tsx:140 | padding keeps the text all digits and keeps the number it denotes |
| `Store.MergeSettingsLaws` | frontend/lib/store.ts:124-132 | merging an empty partial changes nothing; merging the same partial twice equals merging it once |
| `Store.PrependCapped` | frontend/lib/store.ts:106-109 | the new alert is first, the old log follows in order, and the length is min(old + 1, 100) |
| `Store.PrependAllNewestFirst` | frontend/lib/store.ts:106-109 | after any run of additions the log is the most recent alerts, newest first, at most 100, with the oldest evicted |
| `Store.Acknowledge` | frontend/lib/store.ts:111-114 | same length; an entry is acknowledged iff it was or its id matches; no other field of any entry changes |
| `Store.AcknowledgeIdempotent` | frontend/lib/store.ts:111-114 | acknowledging an id twice equals acknowledging it once |
| `Store.Unacknowledged` | frontend/components/layout/top-bar.tsx:27 | the log's entries not yet acknowledged, each as often as in the log, in log order; so the count and the first five shown are those of the log |
| `Store.AcknowledgeClearsId` | frontend/lib/store.ts:111-114 | after acknowledging an id, no unacknowledged entry has that id and every one was already in the log |
| `Store.EndTripState` | frontend/lib/store.ts:83-96 | without a current trip the state is unchanged; otherwise the trip is appended to the archive as completed at the end instant, the current trip is cleared, status idle, monitoring and camera off, risk safe, and no other field changes |
| `Store.DriverStore.constructor` | frontend/lib/store.ts:51-65 | the store starts in the initial state with an empty alert log |
| `Store.DriverStore.SetUser` | frontend/lib/store.ts:72 | sets the user; authenticated iff a user is given; nothing else changes |
| `Store.DriverStore.SetAuthenticated` | frontend/lib/store.ts:73 | sets only the authentication flag |
| `Store.DriverStore.StartTrip` | frontend/lib/store.ts:75-81 | the trip becomes current and active; monitoring and camera on; nothing else changes |
| `Store.DriverStore.EndTrip` | frontend/lib/store.ts:83-96 | the new state is `EndTripState` of the old one: with no current trip nothing changes; otherwise the trip is archived completed with its end time, monitoring and camera go off, and the risk level returns to safe, with alerts, detection and SOS flag kept |
| `Store.DriverStore.SetDetection` | frontend/lib/store.ts:103 | stores the detection and takes the risk level from it |
| `Store.DriverStore.SetRiskLevel` | frontend/lib/store.ts:104 | sets only the risk level |
| `Store.DriverStore.AddAlert` | frontend/lib/store.ts:106-109 | the log becomes `PrependCapped` of the old log and stays within capacity; nothing else changes |
| `Store.DriverStore.AcknowledgeAlert` | frontend/lib/store.ts:111-114 | the log becomes `Acknowledge` of the old log; nothing else changes |
| `Store.DriverStore.SetLocation` | frontend/lib/store.ts:116 | sets only the current location |
| `Store.DriverStore.SetDestination` | frontend/lib/store.ts:117 | sets only the destination |
| `Store.DriverStore.SetCameraActive` | frontend/lib/store.ts:118 | sets only the camera flag |
| `Store.DriverStore.SetMonitoring` | frontend/lib/store.ts:119 | sets only the monitoring flag |
| `Store.DriverStore.TriggerSOS` | frontend/lib/store.ts:121 | SOS on and trip status emergency; nothing else changes |
| `Store.DriverStore.CancelSOS` | frontend/lib/store.ts:122 | SOS off and trip status active, whatever it was; nothing else changes |
| `Store.DriverStore.UpdateSettings` | frontend/lib/store.ts:124-132 | without a user nothing changes; otherwise only the user's settings change, to the merge of old settings and patch |
| `Store.DriverStore.Reset` | frontend/lib/store.ts:134 | every field returns to the initial state |
| `RiskPolicy.RiskScore` | frontend/hooks/use-ai-detection.ts:39-45 | the score is within 0..140 |
| `RiskPolicy.BucketBoundaries` | frontend/hooks/use-ai-detection.ts:47-51 | safe iff score < 30, moderate iff 30..59, high iff 60..79, critical iff >= 80 |
| `RiskPolicy.BucketMonotone` | frontend/hooks/use-ai-detection.ts:47-51 | a higher score never gives a lower level |
| `RiskPolicy.MoreSignalsNeverSafer` | frontend/hooks/use-ai-detection.ts:39-51 | a frame showing at least the signals of another has at least its score and its level |
| `RiskPolicy.Classify` | frontend/hooks/use-ai-detection.ts:52 | the stored frame is the sample with only its overall risk replaced, by the bucket of its score |
| `RiskPolicy.Attempts` | frontend/hooks/use-ai-detection.ts:60-74 | attempts come in the fixed order drowsiness, distraction, phone, no-face, yawning, each with its type's severity |
| `RiskPolicy.AttemptsExactlyTriggered` | frontend/hooks/use-ai-detection.ts:60-74 | a type is attempted iff its condition holds, and then with exactly its type's severity |
| `RiskPolicy.AttemptsDistinct` | frontend/hooks/use-ai-detection.ts:60-74 | a frame attempts each type at most once |
| `RiskPolicy.DrowsinessAlertNeverSafe` | frontend/hooks/use-ai-detection.ts:40-61 | a frame that attempts a drowsiness alert has a level above safe, and the attempt carries that level |
| `RiskPolicy.DistractionAlertCanBeSafe` | frontend/hooks/use-ai-detection.ts:41-64 | some frame attempts a distraction alert with severity safe, which raises no toast |
| `RiskPolicy.LastFired` | frontend/hooks/use-ai-detection.ts:82 | a type counts as fired iff it has a non-zero table entry, and then at that entry's instant |
| `RiskPolicy.AlertTypeNameRoundTrip` | frontend/lib/types.ts:4-12 | every alert type is read back from its string value |
| `RiskPolicy.AlertIdSuffix` | frontend/hooks/use-ai-detection.ts:89 | an id is "alert-" followed by the instant, "-" and the type |
| `RiskPolicy.AlertIdInjective` | frontend/hooks/use-ai-detection.ts:89 | equal ids imply equal instants and equal types |
| `RiskPolicy.FreshAlerts` | frontend/hooks/use-ai-detection.ts:88-95 | one new, unacknowledged alert per attempt, in order |
| `RiskPolicy.EntryUntouched` | frontend/hooks/use-ai-detection.ts:86 | attempts of other types leave a type's cooldown entry as it was |
| `RiskPolicy.UnsuppressedSnoc` | frontend/hooks/use-ai-detection.ts:82-84 | an attempt appended to a frame adds itself to the unsuppressed ones iff its type is outside the cooldown |
| `RiskPolicy.ExpectedStep` | frontend/hooks/use-ai-detection.ts:79-97 | one more attempt of a new type keeps the frame's outcome equal to the closed form |
| `RiskPolicy.EvaluateFiresUnsuppressed` | frontend/hooks/use-ai-detection.ts:58-97 | a frame fires exactly its attempts outside their cooldown, in attempt order, and records `now` for exactly those types |
| `RiskPolicy.SpacedAlertsHaveDistinctIds` | frontend/hooks/use-ai-detection.ts:89 | alerts of one type at least 5000 ms apart with ids of the source's form never share an id |
| `RiskPolicy.FireConsistent` | frontend/hooks/use-ai-detection.ts:79-97 | one createAlert at a later non-zero instant keeps table and log consistent and the cooldown respected |
| `RiskPolicy.EvaluateConsistent` | frontend/hooks/use-ai-detection.ts:58-97 | a whole frame keeps table and log consistent |
| `RiskPolicy.ReplayRespectsCooldown` | frontend/hooks/use-ai-detection.ts:12-13 | over any time-ordered drive with non-zero instants, two alerts of one type are at least 5000 ms apart and all ids are distinct |
| `RiskPolicy.ReplayConsistent` | frontend/hooks/use-ai-detection.ts:58-97 | after any time-ordered drive the table's instants are at most the last frame's and every fired alert is covered by its type's entry |
| `RiskPolicy.ZeroInstantEscapesCooldown` | frontend/hooks/use-ai-detection.ts:82 | two frames at instant 0 raise two alerts with the same id, since 0 reads as "never fired" |
| `RiskPolicy.ToastFor` | frontend/hooks/use-ai-detection.ts:99-121 | no toast iff severity is safe; an error toast of 5000 ms iff high or critical, else a warning of 3000 ms |
| `RiskPolicy.ToastDurationMonotone` | frontend/hooks/use-ai-detection.ts:112-120 | a more severe alert never gets a shorter toast |
| `RiskPolicy.ToastsOf` | frontend/hooks/use-ai-detection.ts:99-121 | a frame's toasts are exactly those of its created alerts with a toast, and no more than the alerts |
| `AIDetectionHook.EvaluateSnoc` | frontend/hooks/use-ai-detection.ts:60-74 | a frame with one more attempt is the shorter frame followed by one createAlert |
| `AIDetectionHook.PrependAllSnoc` | frontend/lib/store.ts:106-109 | adding one more alert to the log is one more capped prepend |
| `AIDetectionHook.ToastsOfSnoc` | frontend/hooks/use-ai-detection.ts:99-121 | one more created alert adds its own toast, if any, at the end |
| `AIDetectionHook.AIDetection.constructor` | frontend/hooks/use-ai-detection.ts:12 | the cooldown table starts empty |
| `AIDetectionHook.AIDetection.CreateAlert` | frontend/hooks/use-ai-detection.ts:79-121 | inside the cooldown nothing changes and no toast is shown; otherwise the type's entry becomes `now`, the new alert is prepended to the store's log with nothing else changed, and its toast is shown |
| `AIDetectionHook.AIDetection.TryAlert` | frontend/hooks/use-ai-detection.ts:60-74 | one conditional createAlert advances the table, the log and the toasts exactly as the policy fold does |
| `AIDetectionHook.AIDetection.RunAttempts` | frontend/hooks/use-ai-detection.ts:58-74 | the five attempts leave the table, the log and the toasts as the policy evaluation of the frame's attempts gives them, with the rest of the store unchanged |
| `AIDetectionHook.AIDetection.ProcessFrame` | frontend/hooks/use-ai-detection.ts:15-77 | when not monitoring nothing changes; otherwise the classified frame and its level are stored and exactly the policy's fired alerts are prepended, with their toasts; for a log within its 100-entry capacity (which every store action keeps) the log stays within capacity and becomes the fired alerts newest first followed by the old log, cut at 100 |
| `SosPopup.InvPreserved` | frontend/components/safety/sos-popup.tsx:17-72 | every step keeps the countdown within 0..10, the interval running only while active with time left, and the idle state reset |
| `SosPopup.InitialInv` | frontend/components/safety/sos-popup.tsx:10-23 | the mounted state satisfies the invariant whatever the SOS flag |
| `SosPopup.ProgressBounds` | frontend/components/safety/sos-popup.tsx:99 | the progress bar stays within 0..100 |
| `SosPopup.ClearingResets` | frontend/components/safety/sos-popup.tsx:17-23 | when the flag clears: countdown 10, not sending, not sent, no interval, no alarm |
| `SosPopup.TicksCountDown` | frontend/components/safety/sos-popup.tsx:33-42 | while above 1, each tick only decrements the countdown |
| `SosPopup.AutoSendOnTenthTick` | frontend/components/safety/sos-popup.tsx:33-42 | from a fresh countdown nine ticks dispatch nothing; the tenth starts one dispatch, sets 0 and stops the interval |
| `SosPopup.SendNowThenTimerSendsAgain` | frontend/components/safety/sos-popup.tsx:33-65 | "Send Now" keeps the interval running, so the countdown's end starts a second dispatch |
| `SosPopup.CancelWhileSendingLeavesStaleSent` | frontend/components/safety/sos-popup.tsx:53-72 | cancel is offered during a dispatch; the dispatch still completes and the next SOS opens already "sent" with only Close offered |
| `SosPopup.CompleteShowsSent` | frontend/components/safety/sos-popup.tsx:53-65 | a completed dispatch is always sent and not sending, the alarm is no longer playing, and only Close is offered |
| `SosPopup.SosPopup.constructor` | frontend/components/safety/sos-popup.tsx:10-51 | mounting runs the effect once over the initial state |
| `SosPopup.SosPopup.Refresh` | frontend/components/safety/sos-popup.tsx:17-51 | the effect re-runs only when the SOS flag changed, keeping the invariant |
| `SosPopup.SosPopup.SendEmergencyAlert` | frontend/components/safety/sos-popup.tsx:53-57 | sending is set and one more dispatch is pending |
| `SosPopup.SosPopup.Tick` | frontend/components/safety/sos-popup.tsx:33-42 | one interval firing, as `TickStep`, keeping the invariant |
| `SosPopup.SosPopup.SendNow` | frontend/components/safety/sos-popup.tsx:139 | dispatches only while active, not sent and not sending |
| `SosPopup.SosPopup.Complete` | frontend/components/safety/sos-popup.tsx:59-64 | one pending dispatch resolves as sent and pauses the alarm |
| `SosPopup.SosPopup.Cancel` | frontend/components/safety/sos-popup.tsx:67-72 | when active the store's SOS flag clears and its trip returns to active, and the popup resets; otherwise nothing changes |
| `AlertPopup.SoundFor` | frontend/components/safety/alert-popup.tsx:34-44 | a sound exists iff the alert is high or critical; it loops iff critical and plays iff not muted |
| `AlertPopup.InvPreserved` | frontend/components/safety/alert-popup.tsx:47-75 | the countdown stays within 0..10 through every step |
| `AlertPopup.TicksCountDown` | frontend/components/safety/alert-popup.tsx:47-55 | while above 1, each tick only decrements the countdown |
| `AlertPopup.DismissOnTenthTick` | frontend/components/safety/alert-popup.tsx:47-55 | from mounting, onDismiss is not called on the first nine ticks and is called on the tenth, leaving the countdown at 0 |
| `AlertPopup.TickAtZeroDismissesAgain` | frontend/components/safety/alert-popup.tsx:47-55 | the interval keeps running at 0, so each later tick calls onDismiss again |
| `AlertPopup.ToggleTwice` | frontend/components/safety/alert-popup.tsx:66-75 | toggling the mute twice restores the flag and the sound |
| `AlertPopup.AlertPopup.constructor` | frontend/components/safety/alert-popup.tsx:15-64 | mounting gives the full countdown, unmuted, with the effect run |
| `AlertPopup.AlertPopup.RunEffect` | frontend/components/safety/alert-popup.tsx:32-64 | the sound is recreated for the severity and mute flag, and the interval runs, with the countdown kept |
| `AlertPopup.AlertPopup.Tick` | frontend/components/safety/alert-popup.tsx:47-55 | one interval firing and whether it calls onDismiss |
| `AlertPopup.AlertPopup.ToggleSound` | frontend/components/safety/alert-popup.tsx:66-75 | the mute flag flips, the countdown is kept and the sound matches the new flag |
| `AlertPopup.AlertPopup.Close` | frontend/components/safety/alert-popup.tsx:110 | the close button always calls onDismiss |
| `AlertPopup.AlertPopup.Unmount` | frontend/components/safety/alert-popup.tsx:57-63 | the interval stops and the sound is dropped |
| `DrivePage.FirstCandidate` | frontend/app/drive/page.tsx:80 | the index of the first unacknowledged high or critical alert, or the length when there is none |
| `DrivePage.SelectAlert` | frontend/app/drive/page.tsx:79-84 | an alert already on screen stays; otherwise one is shown iff a candidate exists, and it is the first in the log |
| `DrivePage.NewestUrgentSelected` | frontend/app/drive/page.tsx:79-84 | a freshly added urgent alert is the one put on screen |
| `DrivePage.DismissedNotReselected` | frontend/app/drive/page.tsx:129-134 | after dismissal an alert with that id is never selected, and whatever is selected was in the log |
| `DrivePage.RiskDisplayScore` | frontend/app/drive/page.tsx:206 | the meter's score is strictly between 0 and 100 |
| `DrivePage.RiskDisplayScoreDecreasing` | frontend/app/drive/page.tsx:206 | a higher risk level shows a strictly lower score |
| `DrivePage.DurationSplit` | frontend/app/drive/page.tsx:137-139 | minutes and seconds are below 60 and the parts add back up to the duration |
| `DrivePage.PaddedDenotes` | frontend/app/drive/page.tsx:140 | a padded part is digits, at least two, exactly two below 100, and denotes its number |
| `DrivePage.PaddedInjective` | frontend/app/drive/page.tsx:140 | distinct numbers pad to distinct texts |
| `DrivePage.PaddedThenColon` | frontend/app/drive/page.tsx:140 | a padded number followed by a colon is read back unambiguously |
| `DrivePage.ClockInjective` | frontend/app/drive/page.tsx:140 | equal `HH:MM:SS` texts have equal hours, minutes and seconds |
| `DrivePage.FormatDurationDenotes` | frontend/app/drive/page.tsx:136-141 | the text is three colon-separated digit groups; minutes and seconds are two digits below 60, and hours*3600 + minutes*60 + seconds is the duration |
| `DrivePage.FormatDurationInjective` | frontend/app/drive/page.tsx:136-141 | distinct durations are shown as distinct texts |
| `DrivePage.NewTrip` | frontend/app/drive/page.tsx:100-116 | the new trip has id `trip-<now>` and user "user-1", is active, starts now with zero distance and duration and full scores; each start coordinate is the known position's when that is non-zero and the default point's otherwise (no position, or a 0 coordinate) |
| `DrivePage.DrivePage.constructor` | frontend/app/drive/page.tsx:47-51 | setup shown, empty input, zero duration, no alert on screen |
| `DrivePage.DrivePage.SetDestinationInput` | frontend/app/drive/page.tsx:48 | only the input text changes |
| `DrivePage.DrivePage.SelectActiveAlert` | frontend/app/drive/page.tsx:79-84 | the scan leaves the alert on screen equal to `SelectAlert` of the previous one and the log |
| `DrivePage.DrivePage.DismissAlert` | frontend/app/drive/page.tsx:129-134 | the alert on screen, if any, is acknowledged in the store and taken down; otherwise nothing changes |
| `DrivePage.DrivePage.DurationTick` | frontend/app/drive/page.tsx:70-76 | the counter grows by one only while monitoring |
| `DrivePage.DrivePage.StartTrip` | frontend/app/drive/page.tsx:86-120 | an empty destination changes nothing; otherwise the destination is set near the default point, the new trip is started, the setup closes and the counter restarts |
| `DrivePage.DrivePage.EndTrip` | frontend/app/drive/page.tsx:122-127 | the store's new state is `EndTripState` of the old one, the setup reopens and the counter is 0 |
| `EmergencyPage.AddContact` | frontend/app/emergency/page.tsx:44-61 | rejected iff name or phone is empty; otherwise exactly one contact is appended with the form's fields and id `ec-<now>`, primary iff the list was empty |
| `EmergencyPage.DeleteContact` | frontend/app/emergency/page.tsx:68-72 | keeps exactly the contacts with another id, in order |
| `EmergencyPage.SetPrimary` | frontend/app/emergency/page.tsx:76-84 | same contacts, each primary iff its id matches, nothing else changed |
| `EmergencyPage.AddKeepsAtMostOnePrimary` | frontend/app/emergency/page.tsx:55 | adding never makes a second primary, and the first contact added is primary |
| `EmergencyPage.PrimaryCountZero` | frontend/app/emergency/page.tsx:55 | a list with no primary flag counts zero primaries |
| `EmergencyPage.PrimaryCountOne` | frontend/app/emergency/page.tsx:82 | a list with exactly one primary flag counts one |
| `EmergencyPage.SetPrimaryUnique` | frontend/app/emergency/page.tsx:76-84 | with distinct ids, choosing a listed id leaves exactly one primary, an unlisted one none |
| `EmergencyPage.DeleteAbsentIsIdentity` | frontend/app/emergency/page.tsx:68-72 | deleting an absent id leaves the list as it is |
| `EmergencyPage.DeleteAppend` | frontend/app/emergency/page.tsx:68-72 | deletion distributes over concatenation |
| `EmergencyPage.AddThenDeleteRestores` | frontend/app/emergency/page.tsx:44-72 | deleting a just-added contact under a fresh id restores the list |
| `EmergencyPage.DeletePrimaryLeavesNone` | frontend/app/emergency/page.tsx:68-72 | deleting the primary contact promotes no other |
| `EmergencyPage.EmergencyPage.constructor` | frontend/app/emergency/page.tsx:30-36 | the form starts empty with relationship "Family", closed |
| `EmergencyPage.EmergencyPage.AddContactHandler` | frontend/app/emergency/page.tsx:44-66 | a rejected form changes nothing; otherwise the user's list becomes `AddContact`'s and the form is reset and closed |
| `EmergencyPage.EmergencyPage.DeleteContactHandler` | frontend/app/emergency/page.tsx:68-74 | the user's list becomes `DeleteContact`'s; nothing else of the store changes |
| `EmergencyPage.EmergencyPage.SetPrimaryHandler` | frontend/app/emergency/page.tsx:76-86 | the user's list becomes `SetPrimary`'s; nothing else of the store changes |
| `DetectionOverlay.Band` | frontend/components/ai/detection-overlay.tsx:27-28 | ok below 50, warning from 50 below 80, danger from 80 |
| `DetectionOverlay.BandMonotone` | frontend/components/ai/detection-overlay.tsx:27-28 | a higher score never shows a milder band |
| `DetectionOverlay.FaceIndicator` | frontend/components/ai/detection-overlay.tsx:17-22 | named "Face"; detected as the face is; ok iff a face is seen, else warning, never danger |
| `DetectionOverlay.EyesIndicator` | frontend/components/ai/detection-overlay.tsx:23-30 | named "Eyes"; its status is the 50/80 band of the drowsiness score (ok below 50, warning below 80, danger from 80); detected iff drowsiness < 50, i.e. iff ok |
| `DetectionOverlay.PhoneIndicator` | frontend/components/ai/detection-overlay.tsx:31-36 | named "Phone"; detected iff no phone is seen; danger iff a phone is seen, else ok, never warning |
| `DetectionOverlay.FocusIndicator` | frontend/components/ai/detection-overlay.tsx:37-44 | named "Focus"; its status is the 50/80 band of the distraction score; detected iff distraction < 50, i.e. iff ok |
| `DetectionOverlay.YawnIndicator` | frontend/components/ai/detection-overlay.tsx:45-50 | named "Yawn"; detected iff not yawning; warning iff yawning, else ok, never danger |
| `DetectionOverlay.HeadPositionOf` | frontend/components/ai/detection-overlay.tsx:99-102 | forward iff the absolute yaw is below 15 |
| `DetectionOverlay.Render` | frontend/components/ai/detection-overlay.tsx:14-51 | shown iff monitoring and a detection exists; then exactly the five indicators Face, Eyes, Phone, Focus, Yawn of that detection, in that order, and its head position |
| `DetectionOverlay.HiddenAfterTripEnds` | frontend/components/ai/detection-overlay.tsx:14 | in the state the store's endTrip leaves (`EndTripState`) after a current trip, the overlay shows nothing |
| `DetectionOverlay.AlertsShowDanger` | frontend/components/ai/detection-overlay.tsx:17-50 | a drowsiness or distraction attempt shows its indicator at danger; no-face, phone and yawn attempts happen iff their indicators are flagged |
| `DetectionOverlay.EyesDangerWithoutAlertAt80` | frontend/components/ai/detection-overlay.tsx:23-30 | at drowsiness exactly 80 the eyes show danger while no drowsiness alert is attempted |
| `DetectionOverlay.HeadPoseAndScore` | frontend/components/ai/detection-overlay.tsx:99-102 | a forward head adds nothing to the risk score; between 15 and 20 degrees the head shows turned and still adds nothing |
| `HistoryPage.LowerChar` | frontend/app/history/page.tsx:69 | upper-case ASCII letters are shifted to lower case; every other character is kept |
| `HistoryPage.Lower` | frontend/app/history/page.tsx:69 | same length, lower-cased character by character |
| `HistoryPage.LowerIdempotent` | frontend/app/history/page.tsx:69-70 | lower-casing twice equals lower-casing once |
| `HistoryPage.Includes` | frontend/app/history/page.tsx:70 | true iff the query occurs at some position of the text |
| `HistoryPage.FilterTrips` | frontend/app/history/page.tsx:66-74 | keeps exactly the trips whose start or end location contains the query, ignoring case, each as often as in the list, in list order |
| `HistoryPage.QueryCaseIgnored` | frontend/app/history/page.tsx:66-74 | the case of the query does not change the result |
| `HistoryPage.EmptyQueryKeepsLocated` | frontend/app/history/page.tsx:66-74 | an empty query keeps exactly the trips with some location |
| `HistoryPage.TotalsAppend` | frontend/app/history/page.tsx:103 | the distance and alert totals add up over any split of the list |
| `HistoryPage.Round` | frontend/app/history/page.tsx:122 | `Math.round`: the nearest integer, halves rounding up |
| `HistoryPage.TotalSafetyBounds` | frontend/app/history/page.tsx:123-126 | with scores in 0..100 the sum is between 0 and 100 per trip |
| `HistoryPage.AverageSafetyBounds` | frontend/app/history/page.tsx:121-128 | with scores in 0..100 the average shown is in 0..100, and 0 with no trips |
| `HistoryPage.AverageOfEqualScores` | frontend/app/history/page.tsx:121-128 | the average of equal scores is that score, rounded |
| `HistoryPage.TotalSafetyConstant` | frontend/app/history/page.tsx:123-126 | equal scores sum to their count times the score |
| `HistoryPage.ColourFor` | frontend/app/history/page.tsx:229-233 | safe iff >= 90, warning iff 70..89, danger iff below 70 |
| `HistoryPage.AlertBadge` | frontend/app/history/page.tsx:238-242 | a badge iff alerts > 0; it starts with the count and " alert" and ends in "s" iff more than one |

## Left out

- Simulated sampling (use-ai-detection.ts lines 21-36): the random sample is a parameter of `ProcessFrame`. Its value ranges are not assumed.
- Alert timestamp: an alert's timestamp is the `now` of its frame. The source takes `new Date()` in the same call.
- Toast texts and the alert popup's messages: only the toast's type, style and duration are modelled.
- `updateTrip` (store.ts lines 98-101): no caller in the repository.
- Persistence of the store to local storage: I/O.
- The camera feed, geolocation watching, the weather lookup (drive page lines 95-98) and the router redirects: devices, network and navigation.
- The history fetch and its error state: network. The trip list is a parameter.
- The per-trip `waypoints` and `alerts` arrays of a store trip, and the location's timestamp object: never read by the core.
- `onDismiss` identity: the alert popup's effect also depends on the `onDismiss` closure, which the drive page recreates whenever the alert on screen changes. The model re-runs the effect only for a change of the mute flag and at mounting.
- Render interleaving: React's batching of state updates, and the order in which effects and intervals fire relative to renders, are not modelled. Every step is atomic.
- `HistoryPage.LowerChar`: lower-cases ASCII letters only. JavaScript's `toLowerCase` also folds non-ASCII letters.
- Number formatting: `toFixed(0)` of the total distance, the overlay's percentage texts and the head marker's position are display arithmetic on floats. Scores are `real`.
- `Store.DriverStore.EndTrip`: the end instant is a parameter, standing for `new Date()`.
- `EmergencyPage.EmergencyPage.AddContactHandler`, `DeleteContactHandler`, `SetPrimaryHandler`: they require a signed-in user, as the source's `user!` assumes. The source's fallbacks for a missing user are not modelled.
- The SOS alarm and alert sounds are modelled as handle states. Playback itself is left out, including a `play()` that fails silently.
