# Wacom STU signature capture: stroke reconstruction and connection supervision

This project models the two pieces of sequential logic in a browser page that
captures signatures from a Wacom STU pad through the SigCaptX bridge, and
proves properties of them in Dafny.

- **Stroke reconstruction** (`js/app.js`). Each pen report `{x, y, pressure}` is
  scaled from tablet to canvas resolution. Pen-down and pen-up are decided by
  two pressure marks (hysteresis). Near-duplicate samples are dropped by a
  squared-distance gate of 10. Each report draws zero or one line segment.
  Module `Stroke` (`stroke.dfy`) states this as pure functions: `Step` for one
  report, `Run` for a sequence of reports. Class `Capture.SignatureCapture`
  (`capture.dfy`) holds the page's globals: `m_capability`, `m_inkThreshold`,
  `m_penData`, `isDown` and `lastPoint`. It also holds the canvas, as the list
  of segments stroked on it, and the log of commands sent to the tablet. Its
  methods mirror `processPoint`, `onPen`, `startSignatureCapture`,
  `clearSignature` and `finishSignatureCapture`, and are proved against `Step`
  and `Run`. A class invariant, `Replays`, says the canvas is exactly the
  replay of `m_penData` from the last reset.
- **Connection supervision** (`js/status.js`). Module `Connection`
  (`connection.dfy`) has three parts:
  - The readiness poll of `waitForServiceReady`. This is a loop over the retry
    counter, proved equal to a reference count of checks (`Checks`) and a delay
    schedule.
  - `connectPad`. A reference definition treats it as the first failing step
    of nine ordered steps (`FirstFailure`, `AttemptSpec`). Class
    `Connection.Pad` holds the globals `m_usbDevices`, `m_intf` and `m_tablet`
    and a log of bridge calls. Its straight-line `ConnectPad` is proved equal
    to that reference.
  - The rescheduling after `DCANotReady`, as a pure chain of attempts
    (`AttemptChain`).
- `wrappers.dfy` holds the `Option` and `Result` types.

The bridge is an oracle. A `Connection.Bridge` value gives every answer an
attempt receives: `isServiceReady` at each check, `isDCAReady`,
`getUsbDevices`, `isSupportedUsbDevice`, and whether each constructor and test
call succeeds. The tablet's ink threshold and capability come in as parameters
of `Start`.

Two behaviours of the code show up in the proved contracts:

- A failed `Tablet` constructor still leaves a tablet handle in `m_tablet`.
  `startSignatureCapture` only checks that `m_tablet` is non-null, so it then
  proceeds. This follows from `Connection.AttemptLeavesState` and
  `Capture.SignatureCapture.Start`.
- Recovery from `DCANotReady` is unbounded: each such outcome schedules one
  more attempt (`Connection.AttemptChainMeaning`).

## Model

| member | source | states |
|---|---|---|
| Stroke.Distance | js/app.js:18-20 | the squared distance is non-negative and zero exactly when the two points are equal |
| Stroke.DistanceSymmetric | js/app.js:18-20 | the squared distance does not depend on argument order |
| Stroke.RoundedScale | js/app.js:24-27 | the scaled coordinate r is Math.round(w*v/m) for m > 0: 2mr <= 2wv + m < 2mr + 2m, so r is the nearest integer, with halves rounded up |
| Stroke.RoundedScaleUnique | js/app.js:25-26 | exactly one integer satisfies the rounding bracket, so RoundedScale is the rounding and nothing else |
| Stroke.RoundedScaleExample | js/app.js:25 | a 500-pixel canvas over a 10000-unit tablet maps x = 5000 to 250 |
| Stroke.RoundedScaleIdentity | js/app.js:25-26 | a canvas as wide as the tablet range leaves coordinates unchanged |
| Stroke.MapPoint | js/app.js:24-27 | defines nextPoint: each tablet coordinate scaled by canvas size over tablet maximum and rounded (RoundedScale), x with the width, y with the height |
| Stroke.NextDown | js/app.js:29-31 | defines isDown2: a down pen stays down unless the pressure is at or below the off mark; an up pen goes down only above the on mark |
| Stroke.HysteresisBand | js/app.js:29-31 | with off <= on: a pressure above the on mark means down, one at or below the off mark means up, and one between the marks keeps the previous state |
| Stroke.DownTrace | js/app.js:29-31 | the pen-down state after each pressure of a sequence, each one computed from the state the previous report left in isDown |
| Stroke.HysteresisExample | js/app.js:29-31 | with on = 50 and off = 30, pressures 10, 60, 40, 25, 60 give up, down, down, up, down |
| Stroke.RunFollowsDownTrace | js/app.js:29-31 | the isDown that processPoint leaves after each report of a run is the matching entry of DownTrace over the reports' pressures, and the run ends in the last entry |
| Stroke.Step | js/app.js:23-48 | one report: isDown becomes the hysteresis decision; at most one segment is drawn, and it runs from the old lastPoint to the scaled point, which becomes lastPoint; staying up draws nothing and keeps the state; going down draws nothing and anchors lastPoint at the new point; lifting always draws the closing segment; staying down draws exactly when the squared distance exceeds 10; without a drawing while down, lastPoint is kept |
| Stroke.Run | js/app.js:73-76 | a sequence of reports, processed in arrival order, draws at most one segment per report |
| Stroke.RunAppend | js/app.js:73-76 | running two report sequences one after the other is the same as running their concatenation, in state and in the segments drawn |
| Stroke.UpAnchorIrrelevant | js/app.js:33-45 | from pen-up, the segments drawn for any reports do not depend on lastPoint; the two runs end in the same state or are both still up with their own lastPoint |
| Stroke.ResetEquivalent | js/app.js:99-100 | clearSignature resets isDown but not lastPoint, and every report sequence after it draws what it draws after startSignatureCapture's full reset |
| Stroke.UpStaysQuiet | js/app.js:29-33 | while no pressure exceeds the on mark, an up pen draws nothing and its state is unchanged |
| Stroke.StrokeIsChained | js/app.js:33-45 | inside one stroke each segment begins where the previous one ended, and the first one begins at lastPoint |
| Stroke.StrokeEndsAtLastSegment | js/app.js:33-45 | inside one stroke lastPoint ends at the last segment's end, or stays where it was when nothing is drawn |
| Stroke.DistanceGateExample | js/app.js:35-36 | with the pen down at (0,0), a sample at (2,2) is dropped by the gate and one at (4,4) is drawn |
| Stroke.LiftClosesStrokeExample | js/app.js:35-38 | lifting the pen one pixel away draws the closing segment anyway |
| Capture.SignatureCapture.constructor | js/app.js:1-5 | the page starts with no capability or threshold, empty pen data, pen up at (0,0) and an empty canvas |
| Capture.SignatureCapture.ProcessPoint | js/app.js:23-48 | processPoint's in-place update of isDown, lastPoint and the canvas is exactly Stroke.Step on the old pen state |
| Capture.SignatureCapture.Ingest | js/app.js:73-76 | onPen appends the report to m_penData, then processes it as Stroke.Step does; it keeps the canvas equal to the replay of m_penData, which is the fresh-start trace |
| Capture.SignatureCapture.Start | js/app.js:50-86 | without a tablet it refuses and changes nothing; otherwise it reads the ink threshold, then the capability, resets pen data, pen state to up at (0,0) and the canvas, then clears the pad screen, turns inking on and starts reporting; the canvas is then the replay of m_penData |
| Capture.SignatureCapture.Clear | js/app.js:97-109 | empties pen data and canvas and lifts the pen, keeping lastPoint; with a tablet it turns inking off, clears the screen and turns inking on, in that order; the replay invariant still holds |
| Capture.SignatureCapture.Finish | js/app.js:111-122 | without a tablet it does nothing; otherwise it turns inking off and exports the canvas, which is the fresh-start replay of m_penData |
| Connection.Budget | js/status.js:13-31 | defines the check budget of waitForServiceReady(retry): a counter starting at retry makes MAXRETRIES - retry + 1 checks at most (21 from 0), and a single check once retry is already at or beyond MAXRETRIES |
| Connection.Schedule | js/status.js:28-30 | the delays before n checks: n of them, the first TIMEOUT_SHORT (500 ms) and every later one TIMEOUT_LONG (1000 ms) |
| Connection.WaitSpec | js/status.js:19-31 | defines the promise of waitForServiceReady(retry): Checks many checks from retry, the Schedule of their delays, and resolve or reject by the last check's answer |
| Connection.Checks | js/status.js:21-29 | the tick makes at least one check and at most the budget; every check before the last fails; it stops at a ready check or when the budget is used up |
| Connection.ScheduleTotal | js/status.js:28-30 | n checks wait 500 ms once and 1000 ms for each of the other n - 1 |
| Connection.WaitSpecMeaning | js/status.js:19-31 | the wait makes between one check and the budget, after a short first delay and long ones thereafter; all but the last check fail; it resolves with the last check's answer, and rejects only once the budget is exhausted |
| Connection.ReadyAtFirstCheck | js/status.js:22-23 | a service ready at the first check resolves after one 500 ms delay and no further check |
| Connection.ReadyAtCheck | js/status.js:21-29 | a service first ready at check k <= 20 resolves exactly at that check, after k + 1 delays |
| Connection.NeverReady | js/status.js:13-31 | a service that never becomes ready is checked exactly 21 times, 20500 ms in all, and the wait rejects |
| Connection.WaitForServiceReady | js/status.js:19-31 | the counter loop yields exactly the reference number of checks, their delays and the final answer |
| Connection.Passes | js/status.js:38-84 | defines when each step succeeds: the poll resolves; isDCAReady answers true; getUsbDevices gives a non-null, non-empty list; isSupportedUsbDevice holds of m_usbDevices[0]; each constructor, connect and test call completes |
| Connection.FaultOf | js/status.js:37-85 | defines the error each step throws when it fails, one fault per step: ServiceNotReady, DCANotReady, NoDevices, Unsupported, InterfaceFailed, ConnectFailed, TabletFailed, CapabilityFailed, ClearScreenFailed |
| Connection.CallsOf | js/status.js:38-84 | defines the calls each step makes once reached: one isServiceReady per check of the poll, isDCAReady, getUsbDevices, isSupportedUsbDevice of m_usbDevices[0], the interface constructor, connect(m_usbDevices[0], true), the tablet constructor, getCapability, setClearScreen |
| Connection.Effect | js/status.js:48-75 | defines each step's assignments: ListDevices stores m_usbDevices; ConstructInterface sets m_intf before its Constructor completes; a completed connect links m_intf exclusively to the first device; ConstructTablet sets m_tablet before its Constructor, linked and with m_intf released on success, unlinked on failure; the other steps assign nothing |
| Connection.Classify | js/status.js:37-85 | defines the try block's result: the fault of the first failing step, or a link to m_usbDevices[0] with exclusive access when every step succeeds |
| Connection.OutcomeOf | js/status.js:86-101 | defines what the caller sees: the classification, with a retry after TIMEOUT_LONG scheduled only for DCANotReady |
| Connection.AttemptSpec | js/status.js:34-103 | defines one connectPad attempt: the steps up to and including the first failing one, their calls and assignments, then Reinitialize only for DCANotReady |
| Connection.FirstFailureFrom | js/status.js:37-85 | the index found is a step that fails, or the end, and every step before it succeeds |
| Connection.FirstFailureCases | js/status.js:39-85 | for each of the nine steps, and for none, the exact bridge answers under which it is the first to fail |
| Connection.FirstFailingStepDecides | js/status.js:39-85 | each fault occurs exactly when its step is the first to fail; success occurs exactly when every step succeeds, and it links m_usbDevices[0] with exclusive access |
| Connection.NoReinitializeInSteps | js/status.js:39-85 | no step of the try block calls Reinitialize |
| Connection.OnlyDCANotReadyRecovers | js/status.js:86-101 | a retry is scheduled exactly on DCANotReady, after 1000 ms, and Reinitialize is called once then and never otherwise |
| Connection.CallsUpToOrdered | js/status.js:39-85 | the calls of the first n steps come in step order, each one from one of those steps |
| Connection.CallsStopAtFailingStep | js/status.js:37-97 | an attempt's calls come in step order, and none belongs to a step after the first failing one, apart from the closing Reinitialize |
| Connection.OnlyFirstDeviceUsed | js/status.js:55-65 | only m_usbDevices[0] is checked for support and connected, and the connection is always exclusive |
| Connection.StateUpToSteps | js/status.js:48-75 | which globals each prefix of the steps has assigned |
| Connection.AttemptLeavesState | js/status.js:48-75 | the globals an attempt leaves, by outcome; once the tablet is constructed, m_intf is null and m_tablet stays linked even if a later test call fails; a failed tablet constructor leaves an unlinked m_tablet |
| Connection.AttemptChain | js/status.js:89-96 | defines the chain of attempts that setTimeout(connectPad, TIMEOUT_LONG) sets off: attempt j uses answer set j, and a next attempt runs only after one that rescheduled |
| Connection.AttemptChainAt | js/status.js:89-96 | the j-th outcome of the chain is attempt j's own, and every outcome before the last rescheduled |
| Connection.AttemptChainLength | js/status.js:89-96 | the chain makes at least one attempt and at most one per answer set, and a chain that stops early stops at an outcome that schedules nothing |
| Connection.AttemptChainMeaning | js/status.js:89-96 | a new attempt runs exactly when the previous one rescheduled; each outcome is its attempt's classification; every outcome before the last is a DCANotReady retry after 1000 ms |
| Connection.Pad.constructor | js/status.js:9-11 | the globals start null and no bridge call has been made |
| Connection.Pad.Recover | js/status.js:86-101 | the catch block: DCANotReady calls Reinitialize and reschedules after 1000 ms; any other fault does neither |
| Connection.Pad.AwaitService | js/status.js:38-40 | waiting for the service ends the attempt with ServiceNotReady exactly when the reference's poll rejects; otherwise step 1 passes, with the reference's calls |
| Connection.Pad.EnsureDCA | js/status.js:42-45 | the DCA check fails with DCANotReady exactly as the reference says, and leaves the reference's calls |
| Connection.Pad.FetchDevices | js/status.js:47-52 | listing the devices stores the list in m_usbDevices; a missing or empty list ends the attempt with NoDevices |
| Connection.Pad.VerifySupported | js/status.js:54-60 | the support check asks about m_usbDevices[0] only and fails with Unsupported before any interface is created; on success it hands that device on |
| Connection.Pad.OpenInterface | js/status.js:62-66 | constructing and connecting the USB interface fails or passes as the reference does, and leaves the reference's state and calls |
| Connection.Pad.OpenTablet | js/status.js:68-75 | constructing the tablet fails or passes as the reference does; on success it takes the interface's link and releases m_intf |
| Connection.Pad.TestTablet | js/status.js:77-85 | getCapability and setClearScreen end the attempt with the reference's fault, or none, and its state and calls |
| Connection.Pad.TrySteps | js/status.js:37-85 | the try block reports the first failing step's fault, or none, and leaves the reference's globals and call log |
| Connection.Pad.ConnectPad | js/status.js:34-103 | one attempt returns the reference outcome and leaves the reference's globals, and its calls are appended to the log |

## Left out

- Canvas and DOM: `clearCanvas` becomes emptying the segment list and stroking becomes appending a `Segment`. Line width, `toDataURL` image encoding, `sigImg` and the button listeners are not modelled. `Finish` returns the segment list in place of the image.
- The Wacom SDK and the bridge are oracles. Their answers are a `Bridge` value or method parameters, and their invocations are entries in a call or command log. `close` on page unload is not modelled.
- Exceptions thrown by the SDK calls inside `startSignatureCapture`, `clearSignature` and `finishSignatureCapture`, and the `console.error` handlers around them. The model assumes those calls succeed.
- The SDK guard of the readiness check (`WacomGSS?.STU?.isServiceReady && …`). A check that finds the SDK function absent fails without any call, but the model still logs one `IsServiceReady` for it. The bridge's answer for that check is simply "not ready".
- An exception thrown by `isServiceReady`. The tick runs from `setTimeout`, outside connectPad's `try`, so such an exception neither resolves nor rejects the wait and the attempt hangs: no catch block, no log, no retry. The model has no hanging attempt: every check answers ready or not ready.
- Exceptions thrown by `isDCAReady`, `getUsbDevices` or `isSupportedUsbDevice` are not modelled. Failures of the constructor, connect and test calls are modelled as faults of their own steps.
- Promises, `async`/`await` and `setTimeout`. Delays are natural numbers, and rescheduling is a field of the outcome. The 800 ms `window.onload` delay before the first attempt is not modelled.
- Concurrency: there is no interleaving of pen reports with awaits. A second `startSignatureCapture` registers a second report handler; this is not modelled, and the model has one report stream.
- Console logging.
- The page's tablet commands (`Capture.TabletCommand`) and connectPad's bridge calls (`Connection.BridgeCall`) are two separate logs. The order of calls across connectPad and start/clear/finish is therefore not recorded.
- Stroke.RoundedScale: computes Math.round on the exact quotient, not on JavaScript's floating-point quotient. Equivalently it is floor((2wv + m) / (2m)), exact for all integers when m > 0.
- Capture.SignatureCapture.ProcessPoint: requires a capability whose maximum coordinates are positive. With a zero maximum the source would compute with Infinity or NaN, which is not modelled.
- Capture.SignatureCapture.Ingest: requires start to have run (`Ready`), since the report handler exists only after `startSignatureCapture`.
- Connection.AttemptChainMeaning: covers a finite list of bridge answers, one per attempt, while the source's DCANotReady recovery has no bound. The chain is a pure function of the outcomes. The globals one attempt leaves for the next are carried only by successive `Connection.Pad.ConnectPad` calls.
