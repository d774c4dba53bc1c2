# Driver drowsiness detection: a verified model of its bookkeeping

This project models the parts of the driver drowsiness detector that are not computer vision, and proves properties of that model:

- **Backend (`app.py`).** A Flask server counts consecutive frames with both eyes classified closed. It turns the count into a drowsiness percentage. It keeps an `alarm_on` latch that writes one ALERT log line per episode. It keeps a 100-entry log, records a `Session` per detection run, and runs an `is_running` start/stop state machine. It clamps the frame threshold to [5, 50] and lists stored sessions newest first.
- **Alert system (`static/js/alert-system.js`).** The browser classifies each polled percentage as no alert, LOW, MEDIUM or HIGH (thresholds 30/50/70). It redraws the indicator only when the class changes, and it restarts the new level's sound only then.
- **Dashboard (`static/js/main.js`).** The dashboard keeps a 60-sample rolling chart with labels and data in lockstep, and a one-bar eye-closure chart. It keeps a log panel trimmed to 100 items and status fields flagged when their text changes. A `DetectionSystem` object accepts or rejects the server's start/stop answers.
- **Profile settings (`static/js/user-settings.js`).** Profiles are created from the defaults by a shallow copy, so the `thresholds` object is shared with the defaults. On load, the current profile is the stored one or a new default one. `updateSetting` writes one field and stamps `lastModified`.

Files:

| file | contents |
|---|---|
| `wrappers.dfy` | `Option` (JavaScript `null` and Python `None`) |
| `text.dfy` | decimal rendering of integers, ASCII lower-casing, Python's string order |
| `window.dfy` | push-then-shift bounded windows (`Slide`) against "the last n" (`Keep`) |
| `alerts.dfy` | `alert-system.js` |
| `backend.dfy` | `app.py` |
| `dashboard.dfy` | `main.js` |
| `settings.dfy` | `user-settings.js` |

Pure parts are functions with lemmas. Objects that the source updates in place are classes whose methods are proved against those functions. Examples are `AlertSystem.HandleAlert` against `Handle`, `Server.ProcessFrame` against `Observe`, and `Page.AddLog` against `Keep`.

The following become parameters:

- the camera and the face-mesh/eye-classifier results (one `FaceResult` per grabbed frame);
- whether the model files exist, and the loader's error;
- whether the webcam opens;
- clocks and `Date.now()`, one parameter per reading (each `add_to_log` line and each `new Date()` has its own);
- the ids `setInterval` returns;
- the decoded `fetch` answers (`None` for a failed request);
- the presence of each DOM element the scripts test for, and of `#userLogin`, which `loadProfiles` reads without a test;
- the browser's time zone.

### Behaviour of the code worth knowing

- **The alert classes are half-open.** `getAlertLevel` compares with `>=` against 70, then 50, then 30 (static/js/alert-system.js:23-28), so 65 is MEDIUM and 70 is HIGH. `Alerts.ExampleRun` shows the classification for the score sequence 10, 35, 35, 65, 20.
- **Only the new level's clip is restarted.** `handleAlert` pauses and rewinds the clip of the new level (static/js/alert-system.js:40-43) and leaves the other clips as they are, so a clip started earlier may still be playing. `Alerts.Handle` states that only that one clip changes.
- **Saved sessions have no frames.** app.py never calls `Session.add_frame_data`, so every saved session has no frames. `Backend.Session.AddFrameData` models the method as written.
- **A failed webcam open stays cached.** When the webcam does not open, `cap` keeps the unopened capture object (app.py:299-302). The next `start_detection` then skips the `cap is None` test and succeeds, and every frame is skipped at app.py:125. `Backend.Server.StartDetection` states this with `Capture(false)`.
- **`already_running` clears the session id.** The server's `already_running` answer has no `session_id`, so the page sets `currentSessionId` to `undefined` (static/js/main.js:28).
- **Polling timers leak.** An accepted start while polling is already on overwrites `statusUpdateInterval` without clearing the old timer (static/js/main.js:71). `Dashboard.RestartKeepsOldTimer` shows that the first timer survives a later stop.
- **An empty error message reads as unknown.** `data.message || 'Unknown error'` treats an empty message like a missing one (static/js/main.js:37).
- **A falsy stored profile is replaced.** `profiles.get(user) || createNewProfile(user)` creates a new profile when the stored value is falsy (static/js/user-settings.js:31). The model stands for every falsy value with `null`.
- **Defaults change through new profiles.** A threshold edit on a freshly created profile also changes `defaultSettings.thresholds` (static/js/user-settings.js:44). `Settings.SharedThresholds` shows this.
- **A missing `#userLogin` leaves no current profile.** `loadProfiles` replaces `this.profiles` (static/js/user-settings.js:27) before it reads `#userLogin` (static/js/user-settings.js:30); without that element the read throws, and the new profiles stay with the old current profile.

## Model

| member | source | states |
|---|---|---|
| Text.IntToString | app.py:399 | the decimal text of an integer: non-empty, a leading minus exactly for negatives followed by the digits of the magnitude, and the digits of the number otherwise |
| Text.ParseNatToString | app.py:399 | reading the rendered digits back gives the number, so a rendered threshold identifies its value |
| Text.NatToStringInjective | app.py:399 | different numbers have different decimal texts |
| Text.LowerChar | static/js/alert-system.js:62 | an ASCII capital becomes the small letter 32 code points above it; any other character is kept |
| Text.Lower | static/js/alert-system.js:62 | same length; each ASCII capital becomes its small letter and every other character is kept, so no capital is left |
| Text.LexLe | app.py:370 | a prefix comes no later than the string it begins |
| Text.LexLeFirstDifference | app.py:370 | `a` comes no later than `b` iff it is a prefix of `b` or its first character that differs from `b`'s is the smaller |
| Text.LexLeTotal | app.py:370 | any two start times are ordered one way or the other |
| Text.LexLeTransitive | app.py:370 | the string order on start times is transitive |
| Text.LexLeAntisymmetric | app.py:370 | start times ordered both ways are equal |
| Window.Slide | app.py:114-118 | the pushed element is last; below capacity nothing is dropped; at or over capacity the length stays the same |
| Window.Keep | app.py:116-118 | at most `cap` elements; all of them when there are no more than `cap`; exactly `cap` otherwise; the newest element stays last |
| Window.SlideKeeps | app.py:112-118 | within capacity, one append-then-drop keeps the last `cap` elements; the new element is last; nothing is dropped below capacity; exactly the oldest is dropped when full |
| Window.KeepAppend | static/js/main.js:188-193 | trimming, appending and trimming again equals trimming once |
| Window.SlideAllKeeps | static/js/main.js:188-193 | any number of pushes into a window within capacity leaves exactly the last `cap` elements of everything pushed |
| Alerts.Name | static/js/alert-system.js:4-6 | each level's key is an upper-case word |
| Alerts.Threshold | static/js/alert-system.js:3-7 | the thresholds are 30, 50 and 70, 20 apart in order of severity |
| Alerts.SoundFileNumbered | static/js/alert-system.js:4-6 | each level's sound is `/static/sounds/alertN.mp3` with N its severity 1, 2 or 3, so no two levels share a sound |
| Alerts.GetAlertLevel | static/js/alert-system.js:3-28 | HIGH iff d >= 70; MEDIUM iff 50 <= d < 70; LOW iff 30 <= d < 50; none iff d < 30 |
| Alerts.GetAlertLevelMonotone | static/js/alert-system.js:23-28 | a higher percentage never gives a lower level (none < LOW < MEDIUM < HIGH) |
| Alerts.GetAlertLevelAtThreshold | static/js/alert-system.js:3-28 | a percentage exactly on a level's threshold is that level |
| Alerts.LevelClass | static/js/alert-system.js:62 | the lower-cased names are "low", "medium", "high" |
| Alerts.RenderIndicator | static/js/alert-system.js:61-68 | the class always begins with "alert-indicator"; the content is empty iff there is no level, and otherwise ends in a percent sign |
| Alerts.RenderIndicatorText | static/js/alert-system.js:63 | a shown indicator's text is the alert icon, the level's upper-case name, " Alert — ", the percentage in decimal and a percent sign, each piece at its own offset |
| Alerts.RenderIndicatorPercent | static/js/alert-system.js:63 | the digits a shown indicator prints before the percent sign read back as the percentage it was given |
| Alerts.RenderIndicatorShows | static/js/alert-system.js:61-68 | the indicator gets extra classes and content iff there is a level; with none, the class is the bare "alert-indicator" and the content is empty |
| Alerts.RenderIndicatorClass | static/js/alert-system.js:62 | a shown indicator's class is "alert-indicator show " plus the level's lower-case name |
| Alerts.InitialSoundsComplete | static/js/alert-system.js:14-21 | preloading gives every level its own table sound, at time 0 and paused |
| Alerts.Initial | static/js/alert-system.js:2-12 | a new alert system has a clip for every level, each the level's table sound, rewound and paused |
| Alerts.Handle | static/js/alert-system.js:30-50 | the new level is the classification; the indicator is redrawn iff the level changed; an unchanged level changes nothing and plays nothing; a sound plays iff the level changed to a level and sound is on, and it is that level's clip; only that clip is restarted |
| Alerts.HandleSameBucket | static/js/alert-system.js:34 | a second call in the same bucket renders nothing, plays nothing and leaves the state as it was |
| Alerts.Polls | static/js/alert-system.js:30-50 | one outcome per poll |
| Alerts.PollsAt | static/js/alert-system.js:30-50 | over any poll sequence, poll i redraws iff its class differs from the previous poll's (or the initial level), and restarts that level's sound iff, in addition, sound is on and the class is a level |
| Alerts.SustainedIsSilent | static/js/alert-system.js:34-47 | a class sustained over a run of polls fires nothing after the first poll |
| Alerts.ExampleRun | static/js/alert-system.js:23-47 | scores 10, 35, 35, 65, 20 sound LOW and then MEDIUM, redraw on polls 2, 4 and 5, and classify 65 as MEDIUM |
| Alerts.AlertSystem.constructor | static/js/alert-system.js:2-12 | no current level, sound on, one preloaded clip per level, nothing played or drawn yet |
| Alerts.AlertSystem.InitializeSounds | static/js/alert-system.js:14-21 | the loop adds exactly the three preloaded clips |
| Alerts.AlertSystem.UpdateIndicator | static/js/alert-system.js:52-69 | the element exists afterwards and holds the rendering for the level; one more write of the element |
| Alerts.AlertSystem.HandleAlert | static/js/alert-system.js:30-50 | returns the classification of the percentage whatever the prior state and `eyesClosed`; the new state is `Handle`'s; the indicator is written once iff `Handle` redraws, and `play()` is called once, on `Handle`'s sound, iff it has one, so a level held over several polls is played only on entry; `soundEnabled` is untouched |
| Alerts.SameBandPlaysOnce | static/js/alert-system.js:30-50 | two polls in the same band call `play()` at most once and write the indicator at most once |
| Backend.ClampThreshold | app.py:393-396 | the result lies in [5, 50] and is the identity on that range |
| Backend.ClampThresholdMonotone | app.py:393-396 | clamping keeps the order of requests and is idempotent |
| Backend.DrowsinessLevel | app.py:205 | the level lies in [0, 100]; it is 0 with no closed frames and 100 at or above the threshold |
| Backend.DrowsinessLevelMonotone | app.py:205 | more consecutive closed frames never lower the level |
| Backend.Observe | app.py:196-241 | the counter adds one iff a face has both eyes closed and resets otherwise (no face included); no face gives eyes 0, level 0 and no alert; on face frames the alert is active iff the count reaches the threshold; the latch equals the alert; the ALERT line is raised iff the alert is active and the latch was off |
| Backend.Observations | app.py:122-241 | one outcome per grabbed frame |
| Backend.AlertOnRisingEdge | app.py:213-232 | over any run of frames, the ALERT line is written exactly on a false-to-true edge of the alert |
| Backend.SustainedClosure | app.py:199-232 | with eyes held closed, frame i counts c+i+1 closed frames and raises the alert exactly once, when the count reaches the threshold |
| Backend.Session.constructor | app.py:53-57 | a new session is empty and recording |
| Backend.Session.AddFrameData | app.py:59-68 | appends exactly one record while recording; otherwise does nothing |
| Backend.Session.Stop | app.py:70-72 | recording ends |
| Backend.StopThenAdd | app.py:59-72 | after `stop()`, adding a frame records nothing |
| Backend.FaceLog | app.py:192-194 | one "Error processing eye: REASON" line per eye error, in order, each with its own clock reading; none without a face |
| Backend.FirstExisting | app.py:94-97 | the first existing path of the list, none iff no path exists |
| Backend.ModelLoadLog | app.py:99-110 | one not-found line when no file exists; otherwise "Loading model from: PATH" read before loading, then the success line or the error, read after |
| Backend.FindModelPath | app.py:91-98 | the first existing model path in order (`.keras` before `.h5`), and none exactly when no path exists |
| Backend.Server.constructor | app.py:19-36 | the module's initial globals: empty log, threshold 20, counters cleared, not running, no session, no model, no camera |
| Backend.Server.AddToLog | app.py:112-118 | the log is the old log with the entry appended and the oldest dropped once over 100 |
| Backend.Server.AddAllToLog | app.py:112-118 | several `add_to_log` calls in a row slide every entry through the 100-entry window |
| Backend.Server.LoadDetectionModel | app.py:87-110 | succeeds iff a model file exists and loads; the log gains exactly the lines of `ModelLoadLog`, each with its own clock reading; the model stays loaded once loaded |
| Backend.Server.ProcessFrame | app.py:122-241 | nothing happens without an opened camera; a failed grab only logs; a grabbed frame updates the counter, latch and status as `Observe` says, stamps `last_update`, logs the eye errors of a face frame, and after them logs ALERT only on the rising edge |
| Backend.Server.DetectionThreadStarted | app.py:259-263 | logs the start and resets the counter |
| Backend.Server.DetectionThreadStopped | app.py:265-269 | logs the stop |
| Backend.Server.StartDetection | app.py:280-313 | while running: `already_running`, nothing changes; otherwise `started` iff the model is (or gets) loaded and a camera is cached or opens, and then it is running with a fresh empty recording session under the given id; a missing model gives "Failed to load model", a camera that does not open gives "Could not open webcam" and stays cached unopened; afterwards the model is loaded iff it was or the load succeeded; counters, status and threshold are untouched |
| Backend.Server.StopDetection | app.py:319-346 | `stopped` iff it was running; then not running, the session stopped with its id, start time and data kept, the camera released; while idle: `not_running` and nothing changes; the log, counters, status, threshold and model are untouched either way |
| Backend.Server.SetThreshold | app.py:389-400 | the threshold becomes the clamped request, and the log gains "Drowsiness threshold set to N" with the clamped N |
| Backend.Summaries | app.py:359-368 | no more summaries than directory entries |
| Backend.SummariesMembers | app.py:354-368 | a summary is listed iff some `.json` entry has that id and start time and the frame count of that file |
| Backend.InsertDesc | app.py:370 | inserting adds exactly the one element |
| Backend.InsertDescSorted | app.py:370 | inserting into a newest-first list keeps it newest first |
| Backend.SortDesc | app.py:370 | the result is a permutation of the input, sorted by start time descending |
| Backend.ListSessions | app.py:353-370 | an empty answer without a sessions directory; otherwise a permutation of the `.json` summaries, newest first |
| Dashboard.MakeLogItem | static/js/main.js:251-253 | the class is "log-item log-" followed by the kind; the text is the time in brackets, a space, then the message |
| Dashboard.Logged | static/js/main.js:248-256 | a page without a log panel stays without one; otherwise at most 100 items, the new one last |
| Dashboard.ChartWindow | static/js/main.js:188-193 | any run of polls from an empty chart leaves the last 60 labels and the last 60 samples, of equal length when as many labels as samples were pushed |
| Dashboard.FailureReason | static/js/main.js:37 | a non-empty server message is shown as is; a missing or empty one reads "Unknown error" |
| Dashboard.StartAnswer | app.py:288-313 | the page accepts exactly the server's non-error start answers (status `started` or `already_running`); `started` carries the session id; an error is reported with the server's message |
| Dashboard.StopAnswer | app.py:327-346 | the page accepts both of the server's stop answers; `stopped` is the answer exactly when detection was running |
| Dashboard.Page.constructor | static/js/main.js:3-135 | each chart exists iff its canvas does; the line chart starts empty and the bar at [0]; no timer, no video, no session |
| Dashboard.Page.UpdateCharts | static/js/main.js:182-200 | labels and data each slide by one through the 60-window and stay in lockstep; the bar dataset keeps length 1 and holds the new eyes-closed count |
| Dashboard.Page.AddLog | static/js/main.js:248-256 | the new item is appended and, once there are more than 100, the oldest are removed, leaving at most 100 items with the new one last; it has class "log-item log-TYPE" and text "[TIME] MESSAGE" |
| Dashboard.Page.UpdateStatusValue | static/js/main.js:156-166 | the `changed` class is added iff the element exists and its old text differs from the value's string form; the text becomes that string; no other field changes |
| Dashboard.Page.ClearChanged | static/js/main.js:163 | the scheduled callback removes only the `changed` class |
| Dashboard.DetectionSystem.constructor | static/js/main.js:11-17 | inactive, holding the page's video element and buttons |
| Dashboard.DetectionSystem.StartVideoFeed | static/js/main.js:63-65 | the video source becomes the stream URL with the time as cache-buster, when the element exists |
| Dashboard.DetectionSystem.StopVideoFeed | static/js/main.js:66-68 | the video source is cleared, when the element exists |
| Dashboard.DetectionSystem.StartStatusUpdates | static/js/main.js:69-72 | the new timer is recorded and running; an older one keeps running |
| Dashboard.DetectionSystem.StopStatusUpdates | static/js/main.js:73-78 | the recorded timer, if any, is cancelled, and none is recorded afterwards |
| Dashboard.DetectionSystem.StartDetection | static/js/main.js:22-42 | success iff the answer's status is `started` or `already_running`: then active, Start disabled, Stop enabled, video on, session id taken from the answer, polling on, "Detection system started" logged; any other answer or a failed request changes nothing but the log, which gains the matching error line; the charts and status fields are untouched |
| Dashboard.DetectionSystem.StopDetection | static/js/main.js:43-62 | success iff the answer's status is `stopped` or `not_running`: then inactive, Start enabled, Stop disabled, video cleared, polling cancelled, "Detection system stopped" logged; otherwise only the error line is logged; the charts, status fields and session id are untouched |
| Dashboard.StopStatusUpdatesTwice | static/js/main.js:73-78 | a second `stopStatusUpdates` changes nothing: it is idempotent |
| Dashboard.RestartKeepsOldTimer | static/js/main.js:26-78 | start, then an `already_running` start, then a stop leaves the first timer running and none recorded |
| Settings.DefaultSettings | static/js/user-settings.js:5-17 | volume 70, sound on, notifications off, thresholds 20/30/50/70, light theme, the browser's time zone |
| Settings.SettingsObject.Copy | static/js/user-settings.js:44 | the copy has the same values and shares the very same thresholds object |
| Settings.SettingsObject.Defaults | static/js/user-settings.js:5-17 | a fresh defaults object with those values and its own thresholds object |
| Settings.ParsePath | static/js/user-settings.js:111-137 | a recognised path string is exactly the path of the key it names |
| Settings.ParsePathString | static/js/user-settings.js:111-137 | every key's path string parses back to that key |
| Settings.Apply | static/js/user-settings.js:145-150 | the addressed field holds the written value and the time zone is kept |
| Settings.ApplyWritesOneField | static/js/user-settings.js:145-150 | an update sets the addressed field to the value and leaves every other field and the time zone unchanged |
| Settings.SettingsExtensional | static/js/user-settings.js:145-150 | settings agreeing on every path and on the time zone are equal, so the fields addressed by paths are the whole settings apart from the time zone |
| Settings.ApplyOverwrites | static/js/user-settings.js:145-150 | a second write to a field supersedes the first; writing a field's current value changes nothing |
| Settings.OnChange | static/js/user-settings.js:110-138 | sliders pass their number, toggles their checked state, and the theme toggle gives "dark" when checked and "light" otherwise |
| Settings.OnChangePaths | static/js/user-settings.js:110-138 | each control addresses the path the listener names |
| Settings.UserSettings.constructor | static/js/user-settings.js:2-17 | no current profile, no profiles, fresh defaults with those values |
| Settings.UserSettings.CreateNewProfile | static/js/user-settings.js:41-51 | a fresh profile under the given name with `createdAt` and `lastModified` from two clock readings, settings equal to the defaults, the thresholds object shared with the defaults, stored under its name |
| Settings.UserSettings.LoadProfiles | static/js/user-settings.js:23-39 | a failed load changes nothing; otherwise the store holds the loaded profiles; without a `#userLogin` element the current profile stays as it was; otherwise it is the stored profile for the user when there is one, else a new default profile, which is also stored |
| Settings.UserSettings.UpdateSetting | static/js/user-settings.js:141-155 | nothing without a current profile; otherwise its settings become `Apply(old settings, update)` and `lastModified` becomes `now` |
| Settings.SharedThresholds | static/js/user-settings.js:31-152 | a new user's threshold edit shows in the defaults; a volume edit does not |

## Left out

- Computer vision and the model (MediaPipe, the eye crops, the classifier, drawing on the frame, JPEG encoding; app.py:136-194): their outcome is the `FaceResult` input.
- Backend.DrowsinessLevel: uses exact integer arithmetic, `min(100, floor(100·c/t))`. The source computes `int((c/t)*100)` in floating point, which can be one lower. With the threshold in [5, 50], the one such input is 29 closed frames at threshold 50: 29/50·100 evaluates to 57.99…, so the source reports 57. `Observe` and `Server.ProcessFrame` use the exact value and report 58 there. Both values fall in the same 50-70 MEDIUM band, so no alert class changes. The contract of `DrowsinessLevel` itself holds for both: the [0, 100] bound, 0 and 100 at the ends, and monotonicity.
- Backend.SortDesc: the result is proved sorted and a permutation. That Python's sort is stable is not stated, so the order of sessions with equal start times is not claimed.
- The detection thread, its `join` and the MJPEG generator (app.py:252-278, 336-338): concurrency is not modelled. `DetectionThreadStarted`/`DetectionThreadStopped` stand for the thread's first and last steps.
- Backend.Server.StartDetection: the `except Exception` branch (app.py:315-317) is not modelled, because it answers with the text of an exception raised by foreign code. The same holds for the one in `stop_detection` (app.py:348-350).
- `Session.save`, the file reads of `list_sessions` and `get_session`, and the profile GET/POST routes: these are file I/O. A session directory arrives as its decoded entries.
- The Flask logger and the `print` in `add_to_log`: console output only.
- The `/status`, `/logs`, `/video_feed` routes: they only serialise state that the model holds.
- Alerts.AlertSystem.HandleAlert: the `play()` promise and its autoplay rejection are outside the model. A restarted clip is marked as requested to play and its level is appended to the `played` record of `play()` calls; whether the browser actually sounds it is not modelled.
- main.js `updateStatus`: the poll glue that feeds `/status` into the status fields, the alert system and the charts. Each of its steps is modelled on its own, and the `fetch` is not.
- The duplicate indicator renderer in main.js (`updateAlertIndicator`, static/js/main.js:167-181): not modelled, and not claimed to render like `_updateIndicator`.
- `updateSessionsList`, the modal and session-play helpers, the clock display and `beforeunload` in main.js: DOM and `fetch` glue.
- Chart.js rendering, scrolling, locale time formatting and `setTimeout`/`setInterval` scheduling: the results are inputs (labels, times, timer ids).
- `applySettings`, `updateProfileUI` and `saveProfiles` in user-settings.js: they push settings into the DOM and into `AlertSystem` methods that do not exist, and post to the server. The alert thresholds stay the constants of the alert table.
- Settings.UserSettings.UpdateSetting: takes a typed update instead of a dotted path string and walks no path. `ParsePath` relates each string the listeners pass to its typed key. Paths outside those eight, and `parseInt` giving `NaN`, are not modelled.
- Settings.UserSettings.LoadProfiles: the console error and the "Failed to load user profile" log line of the `catch` block are not modelled. The loaded map stands for the decoded JSON, with any falsy value as `null`.
- main.py and ui-controls.js: a standalone camera loop that duplicates the backend counter, and UI chrome.
