# QR scanner view controller — scan handling model

This project models the scan-handling part of the QR code scanner screen in
`QrCodeApp/QrCodeApp/ViewController.swift`. The camera delivers batches of
detected metadata objects to a delegate callback on one serial queue. For
each object the callback checks that it is a QR code with a string value.
When the bounding-box switch is on, it also converts the object into preview
coordinates and posts an outline update. It then passes the payload through
a duplicate gate. The gate decides whether the success sound, the success
haptic and the log line are issued, and whether the payload is recorded in
the history of scanned payloads (`scannedQRs`). Four of the screen's five
switches steer this; the duplicate switch also clears that history. The
torch switch is left out.

Modules:

- `Metadata` (`metadata.dfy`): detected objects, points and the feedback
  events (`Sound`, `Haptic`, `Log(payload)`, `Box(corners)`), with `Logs` and
  `Count` to read an event sequence.
- `ScanGate` (`scan_gate.dfy`): the callback as pure functions. `Decide` is
  the guards of one loop iteration, `Gate` the duplicate gate, `Run` one
  whole callback, `RunSession` several callbacks between two actions of the
  duplicate switch. Each callback carries its own settings, because the
  sound, haptic and bounding-box switches may move in between without
  clearing the history.
  `Accepted` gives the payloads of the objects that get through the guards.
  `FirstOccurrences` is an independent reference definition of duplicate
  suppression.
- `ScanProperties` (`scan_properties.dfy`): the properties of the callback,
  proved about `ScanGate`.
- `BoundingPath` (`bounding_path.dfy`): the closed outline through a corner
  list.
- `Controller` (`view_controller.dfy`): the controller as a class. Its
  fields are the four scanning switches, `scannedQRs` and the shape layer. Its methods
  are the switch actions, the feedback helpers, `UpdateBoundingBox` and the
  delegate callback `MetadataOutput`. Each method is proved against the pure
  model.

Where the code and the flag's name disagree, the model follows the code.
With `allowDuplicateReading` ON, a payload already in the history is
suppressed. With it OFF, every read is reported and the history is not
touched. The flag's name suggests the opposite polarity. The code has no
separate reset operation, and neither has the model: the only way to clear
the history is the duplicate switch action, in either direction.

Calls into the platform are replaced by values: the detected objects, the
outcome of the preview transform, and the emitted events.

## Model

| member | source | states |
|---|---|---|
| `ScanGate.SuccessSound` | QrCodeApp/QrCodeApp/ViewController.swift:242-247 | the success sound is issued exactly when the sound switch is on, at most once |
| `ScanGate.SuccessHaptic` | QrCodeApp/QrCodeApp/ViewController.swift:257-263 | the success haptic is issued exactly when the haptic switch is on, at most once |
| `ScanGate.SuccessFeedbackCounts` | QrCodeApp/QrCodeApp/ViewController.swift:353-356 | a successful read logs its payload exactly once, with one sound if sound is on, one haptic if haptics are on, and no box |
| `ScanGate.SuccessFeedback` | QrCodeApp/QrCodeApp/ViewController.swift:353-362 | a successful read issues at most three events, ending with its log line; it contains a sound if and only if the sound switch is on, and a haptic if and only if the haptic switch is on |
| `ScanGate.Decide` | QrCodeApp/QrCodeApp/ViewController.swift:331-341 | an object gets through the guards if and only if it is a QR code with a string value and, when the bounding box is shown, its transform succeeds, so with the box hidden the transform outcome plays no part; it then goes on with its string value, with one box update of the transformed corners when the box is shown and none when hidden |
| `ScanGate.Gate` | QrCodeApp/QrCodeApp/ViewController.swift:349-363 | with allowDuplicateReading on, a payload already in the history issues nothing and leaves the history as it is, and a new payload is added to the history; with it off, the history is unchanged |
| `ScanGate.GateFeedback` | QrCodeApp/QrCodeApp/ViewController.swift:349-363 | the gate logs nothing for a suppressed repeat and the payload once otherwise; it issues one sound and one haptic per log line when their switches are on, none when off, and no box |
| `ScanGate.Run` | QrCodeApp/QrCodeApp/ViewController.swift:325-365 | a callback never removes a payload from the history, and with allowDuplicateReading off it leaves the history unchanged |
| `ScanProperties.SuppressionRecordsAccepted` | QrCodeApp/QrCodeApp/ViewController.swift:349-351 | with allowDuplicateReading on, the history after a callback is the old history plus every accepted payload |
| `ScanProperties.SuppressionLogsFirstOccurrences` | QrCodeApp/QrCodeApp/ViewController.swift:349-357 | with allowDuplicateReading on, the log of a callback equals the reference suppression of its accepted payloads against the history: first occurrences not already seen, in order |
| `ScanProperties.EveryDetectionLogged` | QrCodeApp/QrCodeApp/ViewController.swift:358-363 | with allowDuplicateReading off, every accepted payload is logged in order, repeats included, and the history is unchanged |
| `ScanProperties.SuppressedCallbackLogsOnce` | QrCodeApp/QrCodeApp/ViewController.swift:349-357 | with allowDuplicateReading on, no payload is logged twice in a callback; a payload is logged if and only if it is accepted and not already in the history |
| `ScanProperties.AbortedObjectEndsCallback` | QrCodeApp/QrCodeApp/ViewController.swift:331-341 | an object that fails the guards, and every object after it, issues no event and changes no history |
| `ScanProperties.UnreadableObjectEndsCallback` | QrCodeApp/QrCodeApp/ViewController.swift:331-337 | an object that is not a QR code or has no string value ends the callback, whatever the switches |
| `ScanProperties.FailedTransformEndsCallback` | QrCodeApp/QrCodeApp/ViewController.swift:339-341 | with the bounding box shown, a failed preview transform ends the callback before that object's own box or feedback |
| `ScanProperties.BoxesFollowSwitch` | QrCodeApp/QrCodeApp/ViewController.swift:339-347 | a callback posts one box update per accepted object when the switch is on, repeats included, and none when it is off |
| `ScanProperties.FeedbackFollowsSwitches` | QrCodeApp/QrCodeApp/ViewController.swift:242-263 | over a whole callback, the number of sounds is the number of log lines when sound is on and zero when off; the same holds for haptics |
| `ScanProperties.AcceptedIgnoresOtherSwitches` | QrCodeApp/QrCodeApp/ViewController.swift:331-341 | which objects a callback accepts depends only on the bounding-box switch |
| `ScanProperties.FeedbackSwitchesIndependent` | QrCodeApp/QrCodeApp/ViewController.swift:283-297 | the sound and haptic switches change neither the history nor the log |
| `ScanProperties.SessionHistoryGrows` | QrCodeApp/QrCodeApp/ViewController.swift:350-351 | over any number of callbacks, under any switch settings, the history only grows |
| `ScanProperties.SessionLogsFirstOccurrences` | QrCodeApp/QrCodeApp/ViewController.swift:349-357 | between two duplicate-switch actions, with allowDuplicateReading on and the other switches free to move between callbacks, the log of all callbacks is the reference suppression of all their accepted payloads, and the history gains exactly those payloads |
| `ScanProperties.SessionLogsAtMostOnce` | QrCodeApp/QrCodeApp/ViewController.swift:349-357 | between two duplicate-switch actions, with allowDuplicateReading on and the other switches free to move between callbacks, each payload is logged at most once, and every accepted payload not in the starting history is logged |
| `ScanProperties.FirstOccurrencesAppend` | QrCodeApp/QrCodeApp/ViewController.swift:349-351 | suppressing a concatenation equals suppressing the first part, then the second part against the history extended by the first |
| `ScanProperties.FirstOccurrencesMembers` | QrCodeApp/QrCodeApp/ViewController.swift:350 | reference suppression keeps a payload if and only if it occurs and is not in the history |
| `ScanProperties.FirstOccurrencesDistinct` | QrCodeApp/QrCodeApp/ViewController.swift:350-351 | reference suppression never keeps a payload twice |
| `ScanProperties.SuppressionExample` | QrCodeApp/QrCodeApp/ViewController.swift:349-357 | with suppression on and an empty history, reading a, b, a, c logs a, b, c |
| `ScanProperties.PassThroughExample` | QrCodeApp/QrCodeApp/ViewController.swift:358-363 | with suppression off, reading a three times logs a three times |
| `BoundingPath.ClosedPath` | QrCodeApp/QrCodeApp/ViewController.swift:189-196 | for a non-empty corner list the path moves to the first corner, lines to each further corner in order, and closes with a line back to the first corner |
| `BoundingPath.ClosedPolygonUnique` | QrCodeApp/QrCodeApp/ViewController.swift:189-196 | that description fixes the path: any path that fits it equals `ClosedPath` |
| `BoundingPath.ClosedPolygonSegments` | QrCodeApp/QrCodeApp/ViewController.swift:196 | the closed outline through n corners has exactly n line segments |
| `Controller.ShapeLayer.constructor` | QrCodeApp/QrCodeApp/ViewController.swift:37 | a new outline layer has no path and is not hidden |
| `Controller.ViewController.constructor` | QrCodeApp/QrCodeApp/ViewController.swift:37-44 | every switch starts off, the history starts empty, and the box layer starts with no path |
| `Controller.ViewController.SetAllowDuplicateReading` | QrCodeApp/QrCodeApp/ViewController.swift:299-306 | whichever way the switch moves, the history becomes empty and allowDuplicateReading equals the switch state; the other switches keep their values |
| `Controller.ViewController.SetMakeSound` | QrCodeApp/QrCodeApp/ViewController.swift:283-289 | makeSound equals the switch state; the other switches and the history keep their values |
| `Controller.ViewController.SetMakeHaptic` | QrCodeApp/QrCodeApp/ViewController.swift:291-297 | makeHapticFeedback equals the switch state; the other switches and the history keep their values |
| `Controller.ViewController.SetShowBoundingBox` | QrCodeApp/QrCodeApp/ViewController.swift:308-314 | showBoundingBox equals the switch state; the other switches and the history keep their values |
| `Controller.ViewController.PlaySuccessSound` | QrCodeApp/QrCodeApp/ViewController.swift:242-247 | issues what `SuccessSound` describes for the current sound switch |
| `Controller.ViewController.HapticSuccessNotification` | QrCodeApp/QrCodeApp/ViewController.swift:257-263 | issues what `SuccessHaptic` describes for the current haptic switch |
| `Controller.ViewController.UpdateBoundingBox` | QrCodeApp/QrCodeApp/ViewController.swift:184-200 | an empty corner list leaves the layer's path and visibility untouched; otherwise the layer gets the closed outline through the corners and becomes visible |
| `Controller.ViewController.ReportRead` | QrCodeApp/QrCodeApp/ViewController.swift:349-363 | the in-place duplicate gate issues and records exactly what `Gate` describes |
| `Controller.ViewController.MetadataOutput` | QrCodeApp/QrCodeApp/ViewController.swift:325-365 | the delegate callback issues exactly the events of `Run` and leaves the history as `Run` says; the switches are unchanged and the history only grows |
| `Controller.RescanAfterToggle` | QrCodeApp/QrCodeApp/ViewController.swift:299-306 | with suppression on, a second read of "A" is silent, and after the duplicate switch is turned off and on again, "A" is logged again |

## Left out

- Camera session setup, permission requests and the preview layer (lines 20-26, 65-169): platform I/O with nothing to state.
- The region of interest and the preview-coordinate conversion (lines 86-97, 340): opaque platform calls. A transform is an outcome on each object: it fails, or it gives the converted corners.
- Coordinates are integers, not floating point. The model never computes with them.
- Zoom and torch (lines 214-239, 275-281, 316-318): device locking and hardware settings.
- `hideBoundingBox(after:)` (lines 202-208): a wall-clock timer. A `Box` event stands for the outline update together with its scheduled hide.
- Threading (lines 61, 71-98, 153, 343-346): callbacks arrive on one serial queue. The main-queue outline update is an event issued in order.
- `Controller.ViewController.MetadataOutput` and `ScanGate.Run`: read the switches once per callback, so a switch action can only happen between two callbacks. In the source the switch actions (lines 283-314) run on the main thread while the callback runs on `metadataObjectQueue`. The loop re-reads the flags on every iteration (lines 243, 258, 339, 349). The history can be cleared on the main thread (line 300) while the callback inserts into it (line 351), with no synchronisation. The model does not capture such interleavings or the data race on `scannedQRs`.
- `ScanGate.Gate`: payloads are code-point sequences compared code point by code point. Swift's `String` equality, used by `Set<String>` `contains` and `insert` (lines 350-351), is Unicode canonical equivalence. So "caf\u{E9}" and "cafe\u{301}" are one payload in the source and two in the model. Unicode normalisation is not modelled.
- `Controller.ViewController.MetadataOutput`: returns the `Box(corners)` event and does not call `UpdateBoundingBox` itself. In the source that call runs later, on the main queue. `UpdateBoundingBox` is modelled separately.
- Concrete system sound IDs, `UINotificationFeedbackGenerator` and the log line's text (lines 242-271, 356, 362): these become the events `Sound`, `Haptic` and `Log(payload)`.
- `playErrorSound`, `HapticErrorNotification` and `resetViews` (lines 249-254, 265-271, 210-212): nothing calls them.
- `setupBoundingBox` (lines 174-181): the layer's frame, colours and line width, and attaching it to the preview. These are platform presentation with nothing to state.
- The commented-out Vision detector (lines 368-400): dead code.
