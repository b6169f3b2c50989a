/**
 * The signature-capture page of js/app.js: its globals (m_capability,
 * m_inkThreshold, m_penData, isDown, lastPoint), the browser canvas as the
 * list of segments stroked on it since it was last cleared, and the commands
 * the page sends to the connected tablet. The tablet itself is the one the
 * connection supervisor left in Connection.Pad.
 */
module Capture {
  import opened Wrappers
  import opened Stroke
  import Connection

  /**
   * The tablet calls the page makes, in the order it makes them. This log is
   * kept apart from Connection.Pad's bridge-call log on purpose: the two
   * pieces of code share no call site, the page's calls go to the tablet
   * object connectPad left behind, and neither proof needs their interleaving.
   * GetCapability and SetClearScreen therefore appear in both call types.
   */
  datatype TabletCommand =
    | GetInkThreshold
    | GetCapability
    | SetClearScreen
    | SetInkingMode(on: bool)
    | StartReporting

  class SignatureCapture {
    /** Where m_tablet lives. */
    const pad: Connection.Pad
    const canvasWidth: int
    const canvasHeight: int

    var capability: Option<Capability>
    var inkThreshold: Option<InkThreshold>
    var penData: seq<PenReport>
    var isDown: bool
    var lastPoint: Point
    /** The canvas: every segment stroked since the last clearCanvas, oldest first. */
    var surface: seq<Segment>
    var commands: seq<TabletCommand>
    /** lastPoint at the moment the pen state was last reset to pen-up. */
    ghost var resetPoint: Point

    /** The page as loaded: nothing read from the tablet, nothing recorded or drawn. */
    constructor (pad: Connection.Pad, canvasWidth: int, canvasHeight: int)
      ensures this.pad == pad && this.canvasWidth == canvasWidth && this.canvasHeight == canvasHeight
      ensures capability == None && inkThreshold == None
      ensures penData == [] && Pen() == Fresh && surface == [] && commands == []
      ensures resetPoint == Origin
    {
      this.pad := pad;
      this.canvasWidth := canvasWidth;
      this.canvasHeight := canvasHeight;
      capability := None;
      inkThreshold := None;
      penData := [];
      isDown := false;
      lastPoint := Origin;
      surface := [];
      commands := [];
      resetPoint := Origin;
    }

    /** The pen-up/down reconstruction state held in isDown and lastPoint. */
    function Pen(): PenState
      reads this
    {
      PenState(isDown, lastPoint)
    }

    /** Capability and ink threshold have been read, and the pad reports a usable coordinate range. */
    predicate Ready()
      reads this
    {
      capability.Some? && inkThreshold.Some?
      && capability.value.tabletMaxX > 0 && capability.value.tabletMaxY > 0
    }

    /** The parameters processPoint works with. */
    function Cfg(): (cfg: Config)
      reads this
      requires Ready()
      ensures cfg.Valid()
    {
      Config(canvasWidth, canvasHeight, capability.value, inkThreshold.value)
    }

    /**
     * The canvas and the pen state are exactly what replaying m_penData from
     * the last reset produces: the recorded reports reproduce the image.
     */
    ghost predicate Replays()
      reads this
    {
      Ready()
      && Pen() == Run(Cfg(), PenState(false, resetPoint), penData).state
      && surface == Run(Cfg(), PenState(false, resetPoint), penData).trace
    }

    /** processPoint: map the report to canvas pixels, update pen-up/down, stroke a segment when due. */
    method ProcessPoint(report: PenReport)
      requires Ready()
      modifies this`isDown, this`lastPoint, this`surface
      ensures var o := Step(Cfg(), old(Pen()), report);
              Pen() == o.state && surface == old(surface) + o.drawn
    {
      var cap := capability.value;
      var threshold := inkThreshold.value;
      var nextPoint := Point(RoundedScale(canvasWidth, report.x, cap.tabletMaxX),
                             RoundedScale(canvasHeight, report.y, cap.tabletMaxY));
      var isDown2 := if isDown then !(report.pressure <= threshold.offPressureMark)
                     else report.pressure > threshold.onPressureMark;
      if !isDown && isDown2 {
        lastPoint := nextPoint;
      }
      if (isDown2 && DistanceGate < Distance(lastPoint, nextPoint)) || (isDown && !isDown2) {
        surface := surface + [Segment(lastPoint, nextPoint)];
        lastPoint := nextPoint;
      }
      isDown := isDown2;
    }

    /** onPen: record the report in m_penData, then draw it. Keeps the canvas a replay of m_penData. */
    method Ingest(report: PenReport)
      requires Ready()
      modifies this`penData, this`isDown, this`lastPoint, this`surface
      ensures penData == old(penData) + [report]
      ensures var o := Step(Cfg(), old(Pen()), report);
              Pen() == o.state && surface == old(surface) + o.drawn
      ensures old(Replays()) ==> Replays() && surface == Run(Cfg(), Fresh, penData).trace
    {
      ghost var before := penData;
      penData := penData + [report];
      ProcessPoint(report);
      if old(Replays()) {
        ghost var cfg := Cfg();
        ghost var start := PenState(false, resetPoint);
        ghost var mid := Run(cfg, start, before).state;
        assert Run(cfg, mid, [report]) == RunResult(Step(cfg, mid, report).state, Step(cfg, mid, report).drawn) by {
          assert [report][1..] == [];
        }
        RunAppend(cfg, start, before, [report]);
        ResetEquivalent(cfg, resetPoint, penData);
      }
    }

    /**
     * startSignatureCapture with the tablet's answers to getInkThreshold and
     * getCapability as parameters. Without a tablet it refuses (the source
     * throws) and changes nothing.
     */
    method Start(threshold: InkThreshold, cap: Capability) returns (started: bool)
      modifies this
      ensures started <==> pad.tablet.Some?
      ensures !started ==> unchanged(this)
      ensures started ==>
                capability == Some(cap) && inkThreshold == Some(threshold)
                && penData == [] && Pen() == Fresh && surface == []
                && commands == old(commands) + [GetInkThreshold, GetCapability, SetClearScreen,
                                                SetInkingMode(true), StartReporting]
      ensures started && Ready() ==> Replays()
    {
      if pad.tablet.None? {
        return false;
      }
      commands := commands + [GetInkThreshold];
      inkThreshold := Some(threshold);
      commands := commands + [GetCapability];
      capability := Some(cap);
      penData := [];
      isDown := false;
      lastPoint := Origin;
      resetPoint := Origin;
      surface := [];
      commands := commands + [SetClearScreen, SetInkingMode(true), StartReporting];
      started := true;
    }

    /**
     * clearSignature: forget the pen data, lift the pen and clear the canvas;
     * lastPoint is left as it was. With a tablet, inking is switched off, the
     * pad screen cleared and inking switched back on.
     */
    method Clear()
      modifies this`penData, this`isDown, this`surface, this`commands, this`resetPoint
      ensures penData == [] && Pen() == PenState(false, old(lastPoint)) && surface == []
      ensures commands == old(commands) + (if pad.tablet.Some? then [SetInkingMode(false), SetClearScreen, SetInkingMode(true)] else [])
      ensures Ready() ==> Replays()
    {
      penData := [];
      isDown := false;
      resetPoint := lastPoint;
      surface := [];
      if pad.tablet.Some? {
        commands := commands + [SetInkingMode(false), SetClearScreen, SetInkingMode(true)];
      }
    }

    /**
     * finishSignatureCapture: without a tablet it does nothing; otherwise it
     * switches inking off and exports the canvas, which is the replay of the
     * recorded pen data.
     */
    method Finish() returns (image: Option<seq<Segment>>)
      modifies this`commands
      ensures image == if pad.tablet.Some? then Some(surface) else None
      ensures commands == old(commands) + (if pad.tablet.Some? then [SetInkingMode(false)] else [])
      ensures image.Some? && Replays() ==> image.value == Run(Cfg(), Fresh, penData).trace
    {
      if pad.tablet.None? {
        return None;
      }
      commands := commands + [SetInkingMode(false)];
      image := Some(surface);
      if Replays() {
        ResetEquivalent(Cfg(), resetPoint, penData);
      }
    }
  }
}
