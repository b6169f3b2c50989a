/**
 * Connection supervision of js/status.js: the readiness poll of
 * waitForServiceReady with its retry budget and delay schedule, and the step
 * sequence of connectPad with its fault classification and the recovery from
 * a Device Control App (DCA) that is not ready. The bridge is an oracle: a
 * Bridge value gives the answer to every question connectPad asks it.
 */
module Connection {
  import opened Wrappers

  const MaxRetries := 20
  const TimeoutLong := 1000
  const TimeoutShort := 500

  /** Number of readiness checks waitForServiceReady allows when its counter starts at retry. */
  function Budget(retry: int): nat
  {
    if retry >= MaxRetries then 1 else MaxRetries - retry + 1
  }

  /**
   * Number of isServiceReady checks the tick of waitForServiceReady makes when
   * check k is next and the counter stands at retry: it stops at the first
   * ready check, or at the first failed check that finds the counter at
   * MaxRetries or beyond; every other failed check adds one to the counter.
   */
  function Checks(ready: nat -> bool, k: nat, retry: int): (n: nat)
    ensures 1 <= n <= Budget(retry)
    ensures forall j :: k <= j < k + n - 1 ==> !ready(j)
    ensures ready(k + n - 1) || n == Budget(retry)
    decreases MaxRetries - retry
  {
    if ready(k) then 1
    else if retry >= MaxRetries then 1
    else 1 + Checks(ready, k + 1, retry + 1)
  }

  /** The delays before each of n checks: the first is short, the rest long. */
  function Schedule(n: nat): (ds: seq<nat>)
    ensures |ds| == n
    ensures n > 0 ==> ds[0] == TimeoutShort
    ensures forall i :: 0 < i < n ==> ds[i] == TimeoutLong
  {
    if n == 0 then [] else [TimeoutShort] + seq(n - 1, _ => TimeoutLong)
  }

  function Total(ds: seq<nat>): nat
  {
    if ds == [] then 0 else Total(ds[..|ds| - 1]) + ds[|ds| - 1]
  }

  lemma ScheduleGrows(n: nat)
    requires n >= 1
    ensures Schedule(n + 1) == Schedule(n) + [TimeoutLong]
  {
    assert seq(n, _ => TimeoutLong) == seq(n - 1, _ => TimeoutLong) + [TimeoutLong];
  }

  /** The total time waited over n checks. */
  lemma {:induction false} ScheduleTotal(n: nat)
    requires n >= 1
    ensures Total(Schedule(n)) == TimeoutShort + TimeoutLong * (n - 1)
  {
    if n > 1 {
      ScheduleGrows(n - 1);
      ScheduleTotal(n - 1);
      assert Schedule(n)[..n - 1] == Schedule(n - 1);
    }
  }

  /** How a readiness wait ended and the delay before each check it made. */
  datatype Poll = Poll(ready: bool, delays: seq<nat>)

  /**
   * The promise of waitForServiceReady(retry): it resolves when a check finds
   * the service ready and rejects when a failed check finds the counter
   * exhausted; checks are made only up to that point, after a short first
   * delay and long delays thereafter.
   */
  function WaitSpec(ready: nat -> bool, retry: int): Poll
  {
    var n := Checks(ready, 0, retry);
    Poll(ready(n - 1), Schedule(n))
  }

  /**
   * What the wait promises: at least one check and no more than the budget,
   * a short first delay and long ones after it, every check but the last
   * failed, the result is the last check's answer, and a rejection comes only
   * once the budget is used up.
   */
  lemma WaitSpecMeaning(ready: nat -> bool, retry: int)
    ensures var p := WaitSpec(ready, retry);
      1 <= |p.delays| <= Budget(retry)
      && p.delays[0] == TimeoutShort
      && (forall i :: 0 < i < |p.delays| ==> p.delays[i] == TimeoutLong)
      && (forall j :: 0 <= j < |p.delays| - 1 ==> !ready(j))
      && p.ready == ready(|p.delays| - 1)
      && (!p.ready ==> |p.delays| == Budget(retry))
  {
    var n := Checks(ready, 0, retry);
    assert |Schedule(n)| == n;
  }

  /** A service that is ready at the first check resolves after one short delay. */
  lemma ReadyAtFirstCheck(ready: nat -> bool, retry: int)
    requires ready(0)
    ensures WaitSpec(ready, retry) == Poll(true, [TimeoutShort])
  {
    var p := WaitSpec(ready, retry);
    assert |p.delays| == 1;
  }

  /** A service first ready at check k, within the budget, resolves at exactly that check. */
  lemma ReadyAtCheck(ready: nat -> bool, k: nat)
    requires k <= MaxRetries
    requires ready(k)
    requires forall j :: 0 <= j < k ==> !ready(j)
    ensures WaitSpec(ready, 0) == Poll(true, Schedule(k + 1))
  {
    var n := Checks(ready, 0, 0);
    var last: nat := n - 1;
    assert k < last ==> !ready(k);
    assert last < k ==> !ready(last);
  }

  /**
   * The retry budget from connectPad's call: a service that never becomes ready
   * is checked 21 times (the first after 500 ms, the others after 1000 ms each,
   * 20500 ms in all), and then the wait is rejected.
   */
  lemma NeverReady(ready: nat -> bool)
    requires forall k :: !ready(k)
    ensures !WaitSpec(ready, 0).ready
    ensures WaitSpec(ready, 0).delays == Schedule(MaxRetries + 1)
    ensures Total(WaitSpec(ready, 0).delays) == 20500
  {
    var p := WaitSpec(ready, 0);
    assert !ready(|p.delays| - 1);
    ScheduleTotal(MaxRetries + 1);
  }

  /** waitForServiceReady: the self-rescheduling tick as a loop over the counter. */
  method WaitForServiceReady(serviceReady: nat -> bool, retry0: int) returns (p: Poll)
    ensures p == WaitSpec(serviceReady, retry0)
  {
    var retry := retry0;
    var k: nat := 0;
    var delays := [TimeoutShort];
    while !serviceReady(k) && retry < MaxRetries
      invariant retry == retry0 + k
      invariant delays == Schedule(k + 1)
      invariant k + Checks(serviceReady, k, retry) == Checks(serviceReady, 0, retry0)
      decreases MaxRetries - retry
    {
      ScheduleGrows(k + 1);
      retry := retry + 1;
      k := k + 1;
      delays := delays + [TimeoutLong];
    }
    p := Poll(serviceReady(k), delays);
  }

  datatype UsbDevice = UsbDevice(idVendor: int, idProduct: int)

  /** The bridge's answers during one connectPad attempt. */
  datatype Bridge = Bridge(
    serviceReady: nat -> bool,           // answer of the k-th isServiceReady check
    dcaReady: bool,                      // isDCAReady
    usbDevices: Option<seq<UsbDevice>>,  // getUsbDevices; None for a null result
    isSupported: (int, int) -> bool,     // isSupportedUsbDevice(idVendor, idProduct)
    interfaceConstructs: bool,           // UsbInterface.Constructor completes
    connects: bool,                      // UsbInterface.connect(device, exclusive) completes
    tabletConstructs: bool,              // Tablet.Constructor completes
    capabilityOk: bool,                  // Tablet.getCapability completes
    clearScreenOk: bool)                 // Tablet.setClearScreen completes

  /** A call issued to the bridge or to the objects it provides. */
  datatype BridgeCall =
    | IsServiceReady
    | IsDCAReady
    | GetUsbDevices
    | IsSupportedUsbDevice(idVendor: int, idProduct: int)
    | InterfaceConstructor
    | InterfaceConnect(device: UsbDevice, exclusive: bool)
    | TabletConstructor
    | GetCapability
    | SetClearScreen
    | Reinitialize

  datatype Fault =
    | ServiceNotReady
    | DCANotReady
    | NoDevices
    | Unsupported
    | InterfaceFailed
    | ConnectFailed
    | TabletFailed
    | CapabilityFailed
    | ClearScreenFailed

  /** A connection to a device, with the exclusive flag it was requested with. */
  datatype Link = Link(device: UsbDevice, exclusive: bool)

  datatype UsbInterface = UsbInterface(constructed: bool, link: Option<Link>)

  /** A tablet object; link is None while its constructor has not completed. */
  datatype Tablet = Tablet(link: Option<Link>)

  /** The globals m_usbDevices, m_intf and m_tablet. */
  datatype PadState = PadState(usbDevices: Option<seq<UsbDevice>>, intf: Option<UsbInterface>, tablet: Option<Tablet>)

  /** The steps of connectPad in the order it runs them. */
  datatype ConnectStep =
    | CheckService
    | CheckDCA
    | ListDevices
    | CheckSupported
    | ConstructInterface
    | ConnectDevice
    | ConstructTablet
    | FetchCapability
    | ClearScreen

  const Steps: seq<ConnectStep> :=
    [CheckService, CheckDCA, ListDevices, CheckSupported, ConstructInterface,
     ConnectDevice, ConstructTablet, FetchCapability, ClearScreen]

  function DeviceList(b: Bridge): seq<UsbDevice>
  {
    if b.usbDevices.Some? then b.usbDevices.value else []
  }

  predicate HasDevice(b: Bridge)
  {
    DeviceList(b) != []
  }

  /** The device connectPad uses: always the first of the list. */
  function FirstDevice(b: Bridge): UsbDevice
    requires HasDevice(b)
  {
    DeviceList(b)[0]
  }

  /** Whether a step succeeds with these bridge answers (reference definition, step by step). */
  predicate Passes(b: Bridge, step: ConnectStep)
  {
    match step
    case CheckService => WaitSpec(b.serviceReady, 0).ready
    case CheckDCA => b.dcaReady
    case ListDevices => HasDevice(b)
    case CheckSupported => HasDevice(b) && b.isSupported(FirstDevice(b).idVendor, FirstDevice(b).idProduct)
    case ConstructInterface => b.interfaceConstructs
    case ConnectDevice => b.connects
    case ConstructTablet => b.tabletConstructs
    case FetchCapability => b.capabilityOk
    case ClearScreen => b.clearScreenOk
  }

  function FaultOf(step: ConnectStep): Fault
  {
    match step
    case CheckService => ServiceNotReady
    case CheckDCA => DCANotReady
    case ListDevices => NoDevices
    case CheckSupported => Unsupported
    case ConstructInterface => InterfaceFailed
    case ConnectDevice => ConnectFailed
    case ConstructTablet => TabletFailed
    case FetchCapability => CapabilityFailed
    case ClearScreen => ClearScreenFailed
  }

  /** The calls a step issues once it is reached. */
  function CallsOf(b: Bridge, step: ConnectStep): seq<BridgeCall>
  {
    match step
    case CheckService => seq(|WaitSpec(b.serviceReady, 0).delays|, _ => IsServiceReady)
    case CheckDCA => [IsDCAReady]
    case ListDevices => [GetUsbDevices]
    case CheckSupported =>
      if HasDevice(b) then [IsSupportedUsbDevice(FirstDevice(b).idVendor, FirstDevice(b).idProduct)] else []
    case ConstructInterface => [InterfaceConstructor]
    case ConnectDevice => if HasDevice(b) then [InterfaceConnect(FirstDevice(b), true)] else []
    case ConstructTablet => [TabletConstructor]
    case FetchCapability => [GetCapability]
    case ClearScreen => [SetClearScreen]
  }

  /** What a step does to the globals once it is reached, whether it then fails or not. */
  function Effect(b: Bridge, step: ConnectStep, s: PadState): PadState
  {
    match step
    case ListDevices => s.(usbDevices := b.usbDevices)
    case ConstructInterface => s.(intf := Some(UsbInterface(b.interfaceConstructs, None)))
    case ConnectDevice =>
      if b.connects && HasDevice(b) then s.(intf := Some(UsbInterface(true, Some(Link(FirstDevice(b), true)))))
      else s
    case ConstructTablet =>
      if b.tabletConstructs && HasDevice(b) then s.(tablet := Some(Tablet(Some(Link(FirstDevice(b), true)))), intf := None)
      else s.(tablet := Some(Tablet(None)))
    case _ => s
  }

  /** Every one of the first i steps succeeds. */
  predicate PassesUpTo(b: Bridge, i: nat)
    requires i <= |Steps|
  {
    i == 0 || (PassesUpTo(b, i - 1) && Passes(b, Steps[i - 1]))
  }

  lemma {:induction false} PassesUpToAll(b: Bridge, i: nat)
    requires i <= |Steps|
    requires PassesUpTo(b, i)
    ensures forall j :: 0 <= j < i ==> Passes(b, Steps[j])
  {
    if i > 0 {
      PassesUpToAll(b, i - 1);
    }
  }

  /** The index of the first failing step at or after i, given that the steps before i pass. */
  function FirstFailureFrom(b: Bridge, i: nat): (f: nat)
    requires i <= |Steps| && PassesUpTo(b, i)
    ensures i <= f <= |Steps| && PassesUpTo(b, f)
    ensures f < |Steps| ==> !Passes(b, Steps[f])
    decreases |Steps| - i
  {
    if i == |Steps| || !Passes(b, Steps[i]) then i else FirstFailureFrom(b, i + 1)
  }

  /** The index of the first step that fails, or |Steps| when none does. */
  function FirstFailure(b: Bridge): nat
  {
    FirstFailureFrom(b, 0)
  }

  /** The calls of the first n steps, in order. */
  function CallsUpTo(b: Bridge, n: nat): seq<BridgeCall>
    requires n <= |Steps|
  {
    if n == 0 then [] else CallsUpTo(b, n - 1) + CallsOf(b, Steps[n - 1])
  }

  lemma CallsUpToNext(b: Bridge, n: nat)
    requires n < |Steps|
    ensures CallsUpTo(b, n + 1) == CallsUpTo(b, n) + CallsOf(b, Steps[n])
  {
  }

  /** The globals after the first n steps. */
  function StateUpTo(b: Bridge, s: PadState, n: nat): PadState
    requires n <= |Steps|
  {
    if n == 0 then s else Effect(b, Steps[n - 1], StateUpTo(b, s, n - 1))
  }

  /** What the caller of connectPad observes: the result and whether a retry is scheduled, and after what delay. */
  datatype Outcome = Outcome(result: Result<Link, Fault>, rescheduleAfter: Option<nat>)

  /** One connectPad attempt in full: what it returns, the calls it issues and the globals it leaves. */
  datatype Attempt = Attempt(outcome: Outcome, calls: seq<BridgeCall>, state: PadState)

  /** The number of steps an attempt runs: up to and including the first failing one. */
  function Reached(b: Bridge): nat
  {
    var f := FirstFailure(b);
    if f < |Steps| then f + 1 else |Steps|
  }

  /** The first failing step decides the fault; with no failing step the first device is linked exclusively. */
  function Classify(b: Bridge): Result<Link, Fault>
  {
    var f := FirstFailure(b);
    if f < |Steps| then Err(FaultOf(Steps[f]))
    else if HasDevice(b) then Ok(Link(FirstDevice(b), true))
    else Err(NoDevices)  // never taken: passing steps 3 and 4 needs a device (FirstFailingStepDecides)
  }

  /**
   * connectPad with its rescheduling: attempt j gets the bridge answers bs[j],
   * and the next attempt runs exactly when the previous one rescheduled.
   */
  function AttemptChain(bs: seq<Bridge>): seq<Outcome>
    decreases |bs|
  {
    if bs == [] then []
    else
      var o := OutcomeOf(bs[0]);
      [o] + (if o.rescheduleAfter.Some? then AttemptChain(bs[1..]) else [])
  }

  /** The j-th outcome of the chain is attempt j's own, and every outcome before the last rescheduled. */
  lemma {:induction false} AttemptChainAt(bs: seq<Bridge>, j: nat)
    requires j < |AttemptChain(bs)|
    ensures j < |bs| && AttemptChain(bs)[j] == OutcomeOf(bs[j])
    ensures j < |AttemptChain(bs)| - 1 ==> AttemptChain(bs)[j].rescheduleAfter.Some?
    decreases j
  {
    var o := OutcomeOf(bs[0]);
    if j > 0 {
      assert o.rescheduleAfter.Some?;
      AttemptChainAt(bs[1..], j - 1);
    }
  }

  /** At most one attempt per answer set, at least one, and a chain that stops early stops at an outcome that schedules nothing. */
  lemma {:induction false} AttemptChainLength(bs: seq<Bridge>)
    ensures var os := AttemptChain(bs);
      |os| <= |bs| && (|bs| > 0 ==> |os| > 0)
      && (0 < |os| < |bs| ==> os[|os| - 1].rescheduleAfter == None)
    decreases |bs|
  {
    if bs != [] && OutcomeOf(bs[0]).rescheduleAfter.Some? {
      AttemptChainLength(bs[1..]);
    }
  }

  /**
   * The chain runs one attempt per answer set while attempts reschedule: each
   * outcome is that attempt's own, every outcome but the last is a
   * DCANotReady retry after TimeoutLong, and a chain that stops early stops
   * at an outcome that schedules nothing. Nothing else bounds the retries.
   */
  lemma AttemptChainMeaning(bs: seq<Bridge>)
    ensures var os := AttemptChain(bs);
      |os| <= |bs| && (|bs| > 0 ==> |os| > 0)
      && (forall j :: 0 <= j < |os| ==> os[j] == OutcomeOf(bs[j]))
      && (forall j :: 0 <= j < |os| - 1 ==> os[j] == Outcome(Err(DCANotReady), Some(TimeoutLong)))
      && (0 < |os| < |bs| ==> os[|os| - 1].rescheduleAfter == None)
  {
    AttemptChainLength(bs);
    var os := AttemptChain(bs);
    forall j | 0 <= j < |os|
      ensures os[j] == OutcomeOf(bs[j])
      ensures j < |os| - 1 ==> os[j] == Outcome(Err(DCANotReady), Some(TimeoutLong))
    {
      AttemptChainAt(bs, j);
    }
  }

  /**
   * Reference definition of connectPad: the steps run in order up to and
   * including the first one that fails; only a DCANotReady fault calls
   * Reinitialize and schedules a new attempt after TimeoutLong.
   */
  function AttemptSpec(b: Bridge, s: PadState): Attempt
  {
    var n := Reached(b);
    var recover := Classify(b) == Err(DCANotReady);
    Attempt(OutcomeOf(b),
            CallsUpTo(b, n) + (if recover then [Reinitialize] else []),
            StateUpTo(b, s, n))
  }

  /** What one attempt reports: its classification, and a retry after TimeoutLong exactly for DCANotReady. */
  function OutcomeOf(b: Bridge): Outcome
  {
    Outcome(Classify(b), if Classify(b) == Err(DCANotReady) then Some(TimeoutLong) else None)
  }

  predicate Supported(b: Bridge)
  {
    HasDevice(b) && b.isSupported(FirstDevice(b).idVendor, FirstDevice(b).idProduct)
  }

  /** The first failing step, told apart by the bridge's answers. */
  lemma FirstFailureCases(b: Bridge)
    ensures var f := FirstFailure(b); var ready := WaitSpec(b.serviceReady, 0).ready;
      (f == 0 <==> !ready)
      && (f == 1 <==> ready && !b.dcaReady)
      && (f == 2 <==> ready && b.dcaReady && !HasDevice(b))
      && (f == 3 <==> ready && b.dcaReady && HasDevice(b) && !Supported(b))
      && (f == 4 <==> ready && b.dcaReady && Supported(b) && !b.interfaceConstructs)
      && (f == 5 <==> ready && b.dcaReady && Supported(b) && b.interfaceConstructs && !b.connects)
      && (f == 6 <==> ready && b.dcaReady && Supported(b) && b.interfaceConstructs && b.connects
                      && !b.tabletConstructs)
      && (f == 7 <==> ready && b.dcaReady && Supported(b) && b.interfaceConstructs && b.connects
                      && b.tabletConstructs && !b.capabilityOk)
      && (f == 8 <==> ready && b.dcaReady && Supported(b) && b.interfaceConstructs && b.connects
                      && b.tabletConstructs && b.capabilityOk && !b.clearScreenOk)
      && (f == 9 <==> ready && b.dcaReady && Supported(b) && b.interfaceConstructs && b.connects
                      && b.tabletConstructs && b.capabilityOk && b.clearScreenOk)
  {
    var f := FirstFailure(b);
    PassesUpToAll(b, f);
    assert Steps[0] == CheckService && Steps[1] == CheckDCA && Steps[2] == ListDevices;
    assert Steps[3] == CheckSupported && Steps[4] == ConstructInterface && Steps[5] == ConnectDevice;
    assert Steps[6] == ConstructTablet && Steps[7] == FetchCapability && Steps[8] == ClearScreen;
    assert f > 0 ==> Passes(b, Steps[0]);
    assert f > 1 ==> Passes(b, Steps[1]);
    assert f > 2 ==> Passes(b, Steps[2]);
    assert f > 3 ==> Passes(b, Steps[3]);
    assert f > 4 ==> Passes(b, Steps[4]);
    assert f > 5 ==> Passes(b, Steps[5]);
    assert f > 6 ==> Passes(b, Steps[6]);
    assert f > 7 ==> Passes(b, Steps[7]);
    assert f > 8 ==> Passes(b, Steps[8]);
  }

  /**
   * connectPad's error classification: each fault arises exactly when every
   * earlier step succeeded and its own step failed; a connection is made
   * exactly when every step succeeds, and it is to the first device, exclusively.
   */
  lemma FirstFailingStepDecides(b: Bridge)
    ensures var r := Classify(b); var ready := WaitSpec(b.serviceReady, 0).ready;
      (r == Err(ServiceNotReady) <==> !ready)
      && (r == Err(DCANotReady) <==> ready && !b.dcaReady)
      && (r == Err(NoDevices) <==> ready && b.dcaReady && !HasDevice(b))
      && (r == Err(Unsupported) <==> ready && b.dcaReady && HasDevice(b) && !Supported(b))
      && (r == Err(InterfaceFailed) <==> ready && b.dcaReady && Supported(b) && !b.interfaceConstructs)
      && (r == Err(ConnectFailed) <==> ready && b.dcaReady && Supported(b) && b.interfaceConstructs && !b.connects)
      && (r == Err(TabletFailed) <==> ready && b.dcaReady && Supported(b) && b.interfaceConstructs && b.connects
                                      && !b.tabletConstructs)
      && (r == Err(CapabilityFailed) <==> ready && b.dcaReady && Supported(b) && b.interfaceConstructs && b.connects
                                          && b.tabletConstructs && !b.capabilityOk)
      && (r == Err(ClearScreenFailed) <==> ready && b.dcaReady && Supported(b) && b.interfaceConstructs && b.connects
                                           && b.tabletConstructs && b.capabilityOk && !b.clearScreenOk)
      && (r.Ok? <==> ready && b.dcaReady && Supported(b) && b.interfaceConstructs && b.connects
                     && b.tabletConstructs && b.capabilityOk && b.clearScreenOk)
      && (r.Ok? ==> r.value == Link(DeviceList(b)[0], true))
  {
    FirstFailureCases(b);
  }

  /** No step issues Reinitialize. */
  lemma {:induction false} NoReinitializeInSteps(b: Bridge, n: nat)
    requires n <= |Steps|
    ensures Reinitialize !in CallsUpTo(b, n)
  {
    if n > 0 {
      NoReinitializeInSteps(b, n - 1);
    }
  }

  /**
   * Only a DCANotReady fault triggers recovery: then Reinitialize is called
   * exactly once and exactly one new attempt is scheduled, after TimeoutLong;
   * after any other outcome nothing is scheduled and Reinitialize is not called.
   */
  lemma OnlyDCANotReadyRecovers(b: Bridge, s: PadState)
    ensures var a := AttemptSpec(b, s);
      (a.outcome.rescheduleAfter.Some? <==> a.outcome.result == Err(DCANotReady))
      && (a.outcome.rescheduleAfter.Some? ==> a.outcome.rescheduleAfter.value == TimeoutLong)
      && multiset(a.calls)[Reinitialize] == (if a.outcome.result == Err(DCANotReady) then 1 else 0)
  {
    var f := FirstFailure(b);
    var n := if f < |Steps| then f + 1 else |Steps|;
    NoReinitializeInSteps(b, n);
  }

  /** connectPad's call order: the position of a call's step among the steps. */
  function StepIndex(c: BridgeCall): nat
  {
    match c
    case IsServiceReady => 0
    case IsDCAReady => 1
    case GetUsbDevices => 2
    case IsSupportedUsbDevice(_, _) => 3
    case InterfaceConstructor => 4
    case InterfaceConnect(_, _) => 5
    case TabletConstructor => 6
    case GetCapability => 7
    case SetClearScreen => 8
    case Reinitialize => 9
  }

  /** The calls of the first n steps come in step order, each from one of those steps. */
  lemma {:induction false} CallsUpToOrdered(b: Bridge, n: nat)
    requires n <= |Steps|
    ensures forall i :: 0 <= i < |CallsUpTo(b, n)| ==> StepIndex(CallsUpTo(b, n)[i]) < n
    ensures forall i, j :: 0 <= i < j < |CallsUpTo(b, n)| ==>
              StepIndex(CallsUpTo(b, n)[i]) <= StepIndex(CallsUpTo(b, n)[j])
  {
    if n > 0 {
      CallsUpToOrdered(b, n - 1);
      var prev := CallsUpTo(b, n - 1);
      var mine := CallsOf(b, Steps[n - 1]);
      var cs := CallsUpTo(b, n);
      assert cs == prev + mine;
      assert forall i :: 0 <= i < |mine| ==> StepIndex(mine[i]) == n - 1 by {
        assert Steps == [CheckService, CheckDCA, ListDevices, CheckSupported, ConstructInterface,
                         ConnectDevice, ConstructTablet, FetchCapability, ClearScreen];
      }
      forall i | 0 <= i < |cs|
        ensures StepIndex(cs[i]) == if i < |prev| then StepIndex(prev[i]) else n - 1
      {
        if i >= |prev| {
          assert cs[i] == mine[i - |prev|];
        }
      }
    }
  }

  /**
   * No step after the failing one runs: the calls of an attempt come in step
   * order and none belongs to a step after the first failing one, except the
   * recovery call Reinitialize at the end.
   */
  lemma CallsStopAtFailingStep(b: Bridge, s: PadState)
    ensures var a := AttemptSpec(b, s); var f := FirstFailure(b);
      (forall i :: 0 <= i < |a.calls| && a.calls[i] != Reinitialize ==> StepIndex(a.calls[i]) <= f)
      && (forall i, j :: 0 <= i < j < |a.calls| ==> StepIndex(a.calls[i]) <= StepIndex(a.calls[j]))
  {
    var a := AttemptSpec(b, s);
    var f := FirstFailure(b);
    var n := if f < |Steps| then f + 1 else |Steps|;
    CallsUpToOrdered(b, n);
    var cs := CallsUpTo(b, n);
    if a.calls != cs {
      assert a.calls == cs + [Reinitialize];
      assert forall i :: 0 <= i < |cs| ==> a.calls[i] == cs[i];
    }
  }

  /**
   * Only m_usbDevices[0] is checked and connected, and connect always asks for
   * exclusive access.
   */
  lemma {:induction false} OnlyFirstDeviceUsed(b: Bridge, n: nat)
    requires n <= |Steps|
    ensures forall c :: c in CallsUpTo(b, n) && c.InterfaceConnect? ==>
              HasDevice(b) && c == InterfaceConnect(DeviceList(b)[0], true)
    ensures forall c :: c in CallsUpTo(b, n) && c.IsSupportedUsbDevice? ==>
              HasDevice(b) && c == IsSupportedUsbDevice(DeviceList(b)[0].idVendor, DeviceList(b)[0].idProduct)
  {
    if n > 0 {
      OnlyFirstDeviceUsed(b, n - 1);
    }
  }

  /** The globals after each prefix of the steps. */
  lemma StateUpToSteps(b: Bridge, s: PadState)
    ensures StateUpTo(b, s, 1) == s
    ensures StateUpTo(b, s, 2) == s
    ensures StateUpTo(b, s, 3) == s.(usbDevices := b.usbDevices)
    ensures StateUpTo(b, s, 4) == s.(usbDevices := b.usbDevices)
    ensures StateUpTo(b, s, 5) == s.(usbDevices := b.usbDevices, intf := Some(UsbInterface(b.interfaceConstructs, None)))
    ensures StateUpTo(b, s, 6) == Effect(b, ConnectDevice, StateUpTo(b, s, 5))
    ensures StateUpTo(b, s, 7) == Effect(b, ConstructTablet, StateUpTo(b, s, 6))
    ensures StateUpTo(b, s, 8) == StateUpTo(b, s, 7)
    ensures StateUpTo(b, s, 9) == StateUpTo(b, s, 7)
  {
    assert Steps == [CheckService, CheckDCA, ListDevices, CheckSupported, ConstructInterface,
                     ConnectDevice, ConstructTablet, FetchCapability, ClearScreen];
    assert StateUpTo(b, s, 1) == Effect(b, Steps[0], StateUpTo(b, s, 0));
    assert StateUpTo(b, s, 2) == Effect(b, Steps[1], StateUpTo(b, s, 1));
    assert StateUpTo(b, s, 3) == Effect(b, Steps[2], StateUpTo(b, s, 2));
    assert StateUpTo(b, s, 4) == Effect(b, Steps[3], StateUpTo(b, s, 3));
    assert StateUpTo(b, s, 5) == Effect(b, Steps[4], StateUpTo(b, s, 4));
    assert StateUpTo(b, s, 6) == Effect(b, Steps[5], StateUpTo(b, s, 5));
    assert StateUpTo(b, s, 7) == Effect(b, Steps[6], StateUpTo(b, s, 6));
    assert StateUpTo(b, s, 8) == Effect(b, Steps[7], StateUpTo(b, s, 7));
    assert StateUpTo(b, s, 9) == Effect(b, Steps[8], StateUpTo(b, s, 8));
  }

  /**
   * The globals an attempt leaves, by outcome: the early faults leave them as
   * they were; once the device list is fetched m_usbDevices holds it; a failed
   * interface leaves the new interface in m_intf; a failed tablet constructor
   * leaves a tablet handle in m_tablet that is not linked; once the tablet is
   * constructed m_intf is null and m_tablet stays linked, whether the later
   * steps fail or not.
   */
  lemma AttemptLeavesState(b: Bridge, s: PadState)
    ensures var a := AttemptSpec(b, s); var r := a.outcome.result;
      (r == Err(ServiceNotReady) || r == Err(DCANotReady) ==> a.state == s)
      && (r == Err(NoDevices) || r == Err(Unsupported) ==> a.state == s.(usbDevices := b.usbDevices))
      && (r == Err(InterfaceFailed) ==>
            a.state == s.(usbDevices := b.usbDevices, intf := Some(UsbInterface(false, None))))
      && (r == Err(ConnectFailed) ==>
            a.state == s.(usbDevices := b.usbDevices, intf := Some(UsbInterface(true, None))))
      && (r == Err(TabletFailed) ==>
            HasDevice(b) &&
            a.state == PadState(b.usbDevices, Some(UsbInterface(true, Some(Link(DeviceList(b)[0], true)))),
                                Some(Tablet(None))))
      && (r == Err(CapabilityFailed) || r == Err(ClearScreenFailed) || r.Ok? ==>
            HasDevice(b) &&
            a.state == PadState(b.usbDevices, None, Some(Tablet(Some(Link(DeviceList(b)[0], true))))))
  {
    FirstFailureCases(b);
    StateUpToSteps(b, s);
  }

  /** When the first i steps succeed and step i (if any) fails, i is the first failure. */
  lemma AttemptEndsAt(b: Bridge, s: PadState, i: nat)
    requires i <= |Steps|
    requires PassesUpTo(b, i)
    requires i < |Steps| ==> !Passes(b, Steps[i])
    ensures FirstFailure(b) == i && Reached(b) == if i < |Steps| then i + 1 else |Steps|
  {
    var f := FirstFailure(b);
    PassesUpToAll(b, i);
    PassesUpToAll(b, f);
  }

  /** The state of connectPad's module: the globals and the log of bridge calls. */
  class Pad {
    var usbDevices: Option<seq<UsbDevice>>
    var intf: Option<UsbInterface>
    var tablet: Option<Tablet>
    /**
     * The calls issued to the bridge, in order. Each readiness check is
     * logged as one IsServiceReady, including a check that finds the SDK
     * function absent and so makes no call.
     */
    var calls: seq<BridgeCall>

    constructor ()
      ensures State() == PadState(None, None, None) && calls == []
    {
      usbDevices, intf, tablet, calls := None, None, None, [];
    }

    function State(): PadState
      reads this
    {
      PadState(usbDevices, intf, tablet)
    }

    /** connectPad's catch block: only DCANotReady reinitialises and reschedules. */
    method Recover(f: Fault) returns (o: Outcome)
      modifies this`calls
      ensures o == Outcome(Err(f), if f == DCANotReady then Some(TimeoutLong) else None)
      ensures calls == old(calls) + (if f == DCANotReady then [Reinitialize] else [])
    {
      if f == DCANotReady {
        calls := calls + [Reinitialize];  // Reinitialize's own exceptions are swallowed
        o := Outcome(Err(f), Some(TimeoutLong));
      } else {
        o := Outcome(Err(f), None);
      }
    }

    /** The globals and the call log are those of the first k steps run from s0 and c0. */
    ghost predicate Ran(b: Bridge, s0: PadState, c0: seq<BridgeCall>, k: nat)
      requires k <= |Steps|
      reads this
    {
      State() == StateUpTo(b, s0, k) && calls == c0 + CallsUpTo(b, k)
    }

    /** The attempt has ended with fault (None for success) at the first failing step. */
    ghost predicate Ended(b: Bridge, s0: PadState, c0: seq<BridgeCall>, fault: Option<Fault>)
      reads this
    {
      var f := FirstFailure(b);
      fault == (if f < |Steps| then Some(FaultOf(Steps[f])) else None) && Ran(b, s0, c0, Reached(b))
    }

    /** Step 1 of connectPad: wait for the SigCaptX service. */
    method AwaitService(b: Bridge, ghost s0: PadState, ghost c0: seq<BridgeCall>) returns (fault: Option<Fault>)
      requires Ran(b, s0, c0, 0)
      modifies this
      ensures fault.Some? ==> Ended(b, s0, c0, fault)
      ensures fault.None? ==> PassesUpTo(b, 1) && Ran(b, s0, c0, 1)
    {
      assert Steps[0] == CheckService;
      var poll := WaitForServiceReady(b.serviceReady, 0);
      calls := calls + seq(|poll.delays|, _ => IsServiceReady);
      assert calls == c0 + CallsUpTo(b, 1) by { CallsUpToNext(b, 0); }
      assert State() == StateUpTo(b, s0, 1) by { StateUpToSteps(b, s0); }
      if !poll.ready {
        AttemptEndsAt(b, s0, 0);
        fault := Some(ServiceNotReady);
        return;
      }
      assert Passes(b, Steps[0]);
      fault := None;
    }

    /** Step 2 of connectPad: the Device Control App must be ready. */
    method EnsureDCA(b: Bridge, ghost s0: PadState, ghost c0: seq<BridgeCall>) returns (fault: Option<Fault>)
      requires PassesUpTo(b, 1) && Ran(b, s0, c0, 1)
      modifies this
      ensures fault.Some? ==> Ended(b, s0, c0, fault)
      ensures fault.None? ==> PassesUpTo(b, 2) && Ran(b, s0, c0, 2)
    {
      assert Steps[1] == CheckDCA;
      calls := calls + [IsDCAReady];
      assert calls == c0 + CallsUpTo(b, 2) by { CallsUpToNext(b, 1); }
      assert State() == StateUpTo(b, s0, 2) by { StateUpToSteps(b, s0); }
      if !b.dcaReady {
        AttemptEndsAt(b, s0, 1);
        fault := Some(DCANotReady);
        return;
      }
      fault := None;
    }

    /** Step 3 of connectPad: list the USB devices; a missing or empty list fails. */
    method FetchDevices(b: Bridge, ghost s0: PadState, ghost c0: seq<BridgeCall>) returns (fault: Option<Fault>)
      requires PassesUpTo(b, 2) && Ran(b, s0, c0, 2)
      modifies this
      ensures fault.Some? ==> Ended(b, s0, c0, fault)
      ensures fault.None? ==> PassesUpTo(b, 3) && HasDevice(b) && Ran(b, s0, c0, 3)
    {
      assert Steps[2] == ListDevices;
      calls := calls + [GetUsbDevices];
      usbDevices := b.usbDevices;
      assert calls == c0 + CallsUpTo(b, 3) by { CallsUpToNext(b, 2); }
      assert State() == StateUpTo(b, s0, 3) by { StateUpToSteps(b, s0); }
      if usbDevices.None? || |usbDevices.value| == 0 {
        AttemptEndsAt(b, s0, 2);
        fault := Some(NoDevices);
        return;
      }
      fault := None;
    }

    /** connectPad's optional check that m_usbDevices[0] is a supported STU device. */
    method VerifySupported(b: Bridge, ghost s0: PadState, ghost c0: seq<BridgeCall>)
      returns (fault: Option<Fault>, device: UsbDevice)
      requires PassesUpTo(b, 3) && HasDevice(b) && Ran(b, s0, c0, 3)
      modifies this
      ensures fault.Some? ==> Ended(b, s0, c0, fault)
      ensures fault.None? ==> PassesUpTo(b, 4) && device == FirstDevice(b) && Ran(b, s0, c0, 4)
    {
      assert Steps[3] == CheckSupported;
      assert usbDevices == b.usbDevices by { StateUpToSteps(b, s0); }
      device := usbDevices.value[0];
      calls := calls + [IsSupportedUsbDevice(device.idVendor, device.idProduct)];
      assert calls == c0 + CallsUpTo(b, 4) by { CallsUpToNext(b, 3); }
      assert State() == StateUpTo(b, s0, 4) by { StateUpToSteps(b, s0); }
      if !b.isSupported(device.idVendor, device.idProduct) {
        AttemptEndsAt(b, s0, 3);
        fault := Some(Unsupported);
        return;
      }
      fault := None;
    }

    /** Step 4 of connectPad: create and construct the USB interface and connect it exclusively to the device. */
    method OpenInterface(b: Bridge, device: UsbDevice, ghost s0: PadState, ghost c0: seq<BridgeCall>)
      returns (fault: Option<Fault>)
      requires PassesUpTo(b, 4) && HasDevice(b) && device == FirstDevice(b) && Ran(b, s0, c0, 4)
      modifies this
      ensures fault.Some? ==> Ended(b, s0, c0, fault)
      ensures fault.None? ==> PassesUpTo(b, 6) && Ran(b, s0, c0, 6)
    {
      assert Steps[4] == ConstructInterface && Steps[5] == ConnectDevice;
      StateUpToSteps(b, s0);
      intf := Some(UsbInterface(false, None));
      calls := calls + [InterfaceConstructor];
      assert calls == c0 + CallsUpTo(b, 5) by { CallsUpToNext(b, 4); }
      if !b.interfaceConstructs {
        AttemptEndsAt(b, s0, 4);
        fault := Some(InterfaceFailed);
        return;
      }
      intf := Some(UsbInterface(true, None));
      calls := calls + [InterfaceConnect(device, true)];
      assert calls == c0 + CallsUpTo(b, 6) by { CallsUpToNext(b, 5); }
      if !b.connects {
        AttemptEndsAt(b, s0, 5);
        fault := Some(ConnectFailed);
        return;
      }
      intf := Some(UsbInterface(true, Some(Link(device, true))));
      fault := None;
    }

    /** Step 5 of connectPad: create and construct the tablet on the interface, then release the interface. */
    method OpenTablet(b: Bridge, ghost s0: PadState, ghost c0: seq<BridgeCall>) returns (fault: Option<Fault>)
      requires PassesUpTo(b, 6) && HasDevice(b) && Ran(b, s0, c0, 6)
      modifies this
      ensures fault.Some? ==> Ended(b, s0, c0, fault)
      ensures fault.None? ==> PassesUpTo(b, 7) && Ran(b, s0, c0, 7)
    {
      assert Steps[6] == ConstructTablet;
      StateUpToSteps(b, s0);
      tablet := Some(Tablet(None));
      calls := calls + [TabletConstructor];
      assert calls == c0 + CallsUpTo(b, 7) by { CallsUpToNext(b, 6); }
      if !b.tabletConstructs {
        AttemptEndsAt(b, s0, 6);
        fault := Some(TabletFailed);
        return;
      }
      tablet := Some(Tablet(intf.value.link));
      intf := None;  // the interface reference is released once the tablet is constructed
      fault := None;
    }

    /** Step 6 of connectPad: the test calls, getCapability and setClearScreen. */
    method TestTablet(b: Bridge, ghost s0: PadState, ghost c0: seq<BridgeCall>) returns (fault: Option<Fault>)
      requires PassesUpTo(b, 7) && Ran(b, s0, c0, 7)
      modifies this
      ensures Ended(b, s0, c0, fault)
    {
      assert Steps[7] == FetchCapability && Steps[8] == ClearScreen;
      StateUpToSteps(b, s0);
      calls := calls + [GetCapability];
      assert calls == c0 + CallsUpTo(b, 8) by { CallsUpToNext(b, 7); }
      if !b.capabilityOk {
        AttemptEndsAt(b, s0, 7);
        fault := Some(CapabilityFailed);
        return;
      }
      calls := calls + [SetClearScreen];
      assert calls == c0 + CallsUpTo(b, 9) by { CallsUpToNext(b, 8); }
      if !b.clearScreenOk {
        AttemptEndsAt(b, s0, 8);
        fault := Some(ClearScreenFailed);
        return;
      }
      AttemptEndsAt(b, s0, 9);
      fault := None;
    }

    /** connectPad's try block: the steps in order, leaving at the first that fails with its fault. */
    method TrySteps(b: Bridge) returns (fault: Option<Fault>)
      modifies this
      ensures var f := FirstFailure(b);
              fault == (if f < |Steps| then Some(FaultOf(Steps[f])) else None)
              && State() == StateUpTo(b, old(State()), Reached(b))
              && calls == old(calls) + CallsUpTo(b, Reached(b))
    {
      ghost var s0 := State();
      ghost var c0 := calls;
      assert Ran(b, s0, c0, 0);
      var device := UsbDevice(0, 0);
      fault := AwaitService(b, s0, c0);
      if fault.None? {
        fault := EnsureDCA(b, s0, c0);
      }
      if fault.None? {
        fault := FetchDevices(b, s0, c0);
      }
      if fault.None? {
        fault, device := VerifySupported(b, s0, c0);
      }
      if fault.None? {
        fault := OpenInterface(b, device, s0, c0);
      }
      if fault.None? {
        fault := OpenTablet(b, s0, c0);
      }
      if fault.None? {
        fault := TestTablet(b, s0, c0);
      }
    }

    /** One connectPad attempt: the try block, then the catch block for a fault. */
    method ConnectPad(b: Bridge) returns (o: Outcome)
      modifies this
      ensures o == OutcomeOf(b)
      ensures var a := AttemptSpec(b, old(State()));
              o == a.outcome && State() == a.state && calls == old(calls) + a.calls
    {
      ghost var s0 := State();
      var fault := TrySteps(b);
      if fault.Some? {
        o := Recover(fault.value);
      } else {
        AttemptLeavesState(b, s0);
        o := Outcome(Ok(tablet.value.link.value), None);
      }
    }
  }
}
