/**
 * Stroke reconstruction of js/app.js as pure functions: the squared distance,
 * the tablet-to-canvas coordinate mapping, the pressure hysteresis and the
 * one-report transition of processPoint, with the run of that transition
 * over a sequence of pen reports. The canvas drawing calls become an emitted
 * Segment.
 */
module Stroke {

  datatype Point = Point(x: int, y: int)

  /** One pen report as the tablet delivers it: tablet coordinates and pressure. */
  datatype PenReport = PenReport(x: int, y: int, pressure: int)

  /** One line drawn on the canvas (moveTo from, lineTo to). */
  datatype Segment = Segment(from: Point, to: Point)

  datatype Capability = Capability(tabletMaxX: int, tabletMaxY: int)

  datatype InkThreshold = InkThreshold(onPressureMark: int, offPressureMark: int)

  /** Everything processPoint reads besides the pen state: canvas size, capability, ink threshold. */
  datatype Config = Config(canvasWidth: int, canvasHeight: int, capability: Capability, threshold: InkThreshold)
  {
    /** The coordinate mapping divides by the tablet's maximum coordinates. */
    predicate Valid() {
      capability.tabletMaxX > 0 && capability.tabletMaxY > 0
    }
  }

  /** The reconstruction state: isDown and lastPoint. */
  datatype PenState = PenState(isDown: bool, lastPoint: Point)

  /** What one report produces: the next state and zero or one segment. */
  datatype StepResult = StepResult(state: PenState, drawn: seq<Segment>)

  /** What a sequence of reports produces: the final state and the segments in order. */
  datatype RunResult = RunResult(state: PenState, trace: seq<Segment>)

  /** Squared-distance threshold below or at which a sample is not drawn. */
  const DistanceGate := 10

  const Origin := Point(0, 0)

  /** The pen state after a reset by startSignatureCapture. */
  const Fresh := PenState(false, Origin)

  lemma SquareZero(d: int)
    ensures d * d >= 0
    ensures d * d == 0 <==> d == 0
  {
    if d < 0 { assert d * d == (-d) * (-d); }
  }

  /** Squared Euclidean distance between two points. */
  function Distance(a: Point, b: Point): (d: int)
    ensures d >= 0
    ensures d == 0 <==> a == b
  {
    SquareZero(a.x - b.x);
    SquareZero(a.y - b.y);
    (a.x - b.x) * (a.x - b.x) + (a.y - b.y) * (a.y - b.y)
  }

  lemma DistanceSymmetric(a: Point, b: Point)
    ensures Distance(a, b) == Distance(b, a)
  {
    assert (a.x - b.x) * (a.x - b.x) == (b.x - a.x) * (b.x - a.x);
    assert (a.y - b.y) * (a.y - b.y) == (b.y - a.y) * (b.y - a.y);
  }

  /**
   * Math.round(w * v / m) for integers, m > 0: JavaScript rounds to the nearest
   * integer and rounds halves up, so the result r satisfies
   * r <= w * v / m + 1/2 < r + 1.
   */
  function RoundedScale(w: int, v: int, m: int): (r: int)
    requires m > 0
    ensures 2 * m * r <= 2 * w * v + m < 2 * m * r + 2 * m
  {
    var n := 2 * w * v + m;
    var q := n / (2 * m);
    assert n == 2 * m * q + n % (2 * m);
    q
  }

  lemma MulStep(d: int, r: int, q: int)
    requires d > 0 && r < q
    ensures d * r + d <= d * q
  {
    var k := q - r - 1;
    assert d * q == d * r + d + d * k;
    assert d * k >= 0;
  }

  /** Two integers whose multiples of d bracket the same n within d are equal. */
  lemma BracketUnique(d: int, n: int, r: int, q: int)
    requires d > 0
    requires d * r <= n < d * r + d
    requires d * q <= n < d * q + d
    ensures r == q
  {
    if r < q {
      MulStep(d, r, q);
    } else if q < r {
      MulStep(d, q, r);
    }
  }

  /** Only one integer lies in the rounding bracket, so RoundedScale is Math.round. */
  lemma RoundedScaleUnique(w: int, v: int, m: int, r: int)
    requires m > 0
    requires 2 * m * r <= 2 * w * v + m < 2 * m * r + 2 * m
    ensures r == RoundedScale(w, v, m)
  {
    BracketUnique(2 * m, 2 * w * v + m, r, RoundedScale(w, v, m));
  }

  lemma RoundedScaleExample()
    ensures RoundedScale(500, 5000, 10000) == 250
  {
    RoundedScaleUnique(500, 5000, 10000, 250);
  }

  /** A canvas as wide as the tablet leaves coordinates unchanged. */
  lemma RoundedScaleIdentity(m: int, v: int)
    requires m > 0
    ensures RoundedScale(m, v, m) == v
  {
    RoundedScaleUnique(m, v, m, v);
  }

  /** Scales a report from tablet resolution to canvas resolution (processPoint's nextPoint). */
  function MapPoint(cfg: Config, r: PenReport): Point
    requires cfg.Valid()
  {
    Point(RoundedScale(cfg.canvasWidth, r.x, cfg.capability.tabletMaxX),
          RoundedScale(cfg.canvasHeight, r.y, cfg.capability.tabletMaxY))
  }

  /** processPoint's isDown2: the pen-down decision with two pressure marks. */
  function NextDown(isDown: bool, pressure: int, t: InkThreshold): bool
  {
    if isDown then !(pressure <= t.offPressureMark) else pressure > t.onPressureMark
  }

  /**
   * The hysteresis band: with offPressureMark <= onPressureMark, a pressure above
   * the on mark means down and one at or below the off mark means up whatever
   * the current state, and a pressure between the marks keeps the current state.
   */
  lemma HysteresisBand(isDown: bool, pressure: int, t: InkThreshold)
    requires t.offPressureMark <= t.onPressureMark
    ensures pressure > t.onPressureMark ==> NextDown(isDown, pressure, t)
    ensures pressure <= t.offPressureMark ==> !NextDown(isDown, pressure, t)
    ensures t.offPressureMark < pressure <= t.onPressureMark ==> NextDown(isDown, pressure, t) == isDown
  {
  }

  /** The pen-down state after each of a sequence of pressures. */
  function DownTrace(isDown: bool, pressures: seq<int>, t: InkThreshold): (ds: seq<bool>)
    decreases |pressures|
    ensures |ds| == |pressures|
    ensures |pressures| > 0 ==> ds[0] == NextDown(isDown, pressures[0], t)
    ensures forall i :: 0 < i < |pressures| ==> ds[i] == NextDown(ds[i - 1], pressures[i], t)
  {
    if pressures == [] then []
    else
      var d := NextDown(isDown, pressures[0], t);
      [d] + DownTrace(d, pressures[1..], t)
  }

  lemma HysteresisExample()
    ensures DownTrace(false, [10, 60, 40, 25, 60], InkThreshold(50, 30)) == [false, true, true, false, true]
  {
  }

  /**
   * One report through processPoint. The cases by transition:
   * pen stays up: nothing drawn, state kept; pen goes down: nothing drawn, the
   * stroke is anchored at the new point; pen lifts: the closing segment is
   * always drawn; pen stays down: a segment is drawn exactly when the point is
   * farther than the gate from lastPoint. A segment always starts at the old
   * lastPoint, and afterwards lastPoint is its end.
   */
  function Step(cfg: Config, s: PenState, r: PenReport): (o: StepResult)
    requires cfg.Valid()
    ensures o.state.isDown == NextDown(s.isDown, r.pressure, cfg.threshold)
    ensures |o.drawn| <= 1
    ensures o.drawn != [] ==> s.isDown && o.drawn[0] == Segment(s.lastPoint, MapPoint(cfg, r))
                              && o.state.lastPoint == MapPoint(cfg, r)
    ensures !s.isDown && !o.state.isDown ==> o.drawn == [] && o.state == s
    ensures !s.isDown && o.state.isDown ==> o.drawn == [] && o.state.lastPoint == MapPoint(cfg, r)
    ensures s.isDown && !o.state.isDown ==> o.drawn != []
    ensures s.isDown && o.state.isDown ==>
              (o.drawn != [] <==> Distance(s.lastPoint, MapPoint(cfg, r)) > DistanceGate)
    ensures o.drawn == [] && s.isDown ==> o.state.lastPoint == s.lastPoint
  {
    var next := MapPoint(cfg, r);
    var isDown2 := NextDown(s.isDown, r.pressure, cfg.threshold);
    var anchor := if !s.isDown && isDown2 then next else s.lastPoint;
    if (isDown2 && DistanceGate < Distance(anchor, next)) || (s.isDown && !isDown2) then
      StepResult(PenState(isDown2, next), [Segment(anchor, next)])
    else
      StepResult(PenState(isDown2, anchor), [])
  }

  /** Reports fed one after another through processPoint, the segments collected in order. */
  function Run(cfg: Config, s: PenState, rs: seq<PenReport>): (o: RunResult)
    requires cfg.Valid()
    ensures |o.trace| <= |rs|
    decreases |rs|
  {
    if rs == [] then RunResult(s, [])
    else
      var first := Step(cfg, s, rs[0]);
      var rest := Run(cfg, first.state, rs[1..]);
      RunResult(rest.state, first.drawn + rest.trace)
  }

  /** The pressures of a sequence of reports, in order. */
  function Pressures(rs: seq<PenReport>): (ps: seq<int>)
    ensures |ps| == |rs|
    ensures forall i :: 0 <= i < |rs| ==> ps[i] == rs[i].pressure
  {
    seq(|rs|, i requires 0 <= i < |rs| => rs[i].pressure)
  }

  /**
   * The pen-down states a run goes through are DownTrace over the reports'
   * pressures: after the first i + 1 reports isDown is DownTrace's entry i,
   * and the run ends in the last entry.
   */
  lemma {:induction false} RunFollowsDownTrace(cfg: Config, s: PenState, rs: seq<PenReport>)
    requires cfg.Valid()
    ensures forall i :: 0 <= i < |rs| ==>
              Run(cfg, s, rs[..i + 1]).state.isDown == DownTrace(s.isDown, Pressures(rs), cfg.threshold)[i]
    ensures rs != [] ==> Run(cfg, s, rs).state.isDown == DownTrace(s.isDown, Pressures(rs), cfg.threshold)[|rs| - 1]
    decreases |rs|
  {
    if rs != [] {
      var s1 := Step(cfg, s, rs[0]).state;
      RunFollowsDownTrace(cfg, s1, rs[1..]);
      assert Pressures(rs)[1..] == Pressures(rs[1..]);
      forall i | 0 <= i < |rs|
        ensures Run(cfg, s, rs[..i + 1]).state.isDown == DownTrace(s.isDown, Pressures(rs), cfg.threshold)[i]
      {
        if i == 0 {
          assert rs[..1][1..] == [];
        } else {
          assert rs[..i + 1][1..] == rs[1..][..i];
        }
      }
      assert rs[..|rs|] == rs;
    }
  }

  /** Running a + b is running a, then b from where a left off. */
  lemma {:induction false} RunAppend(cfg: Config, s: PenState, a: seq<PenReport>, b: seq<PenReport>)
    requires cfg.Valid()
    ensures Run(cfg, s, a + b).state == Run(cfg, Run(cfg, s, a).state, b).state
    ensures Run(cfg, s, a + b).trace == Run(cfg, s, a).trace + Run(cfg, Run(cfg, s, a).state, b).trace
    decreases |a|
  {
    if a == [] {
      assert a + b == b;
    } else {
      assert (a + b)[0] == a[0];
      assert (a + b)[1..] == a[1..] + b;
      RunAppend(cfg, Step(cfg, s, a[0]).state, a[1..], b);
    }
  }

  /**
   * With the pen up, the segments drawn for any reports do not depend on
   * lastPoint: either both runs are still up with their own lastPoint, or they
   * have reached the same state.
   */
  lemma {:induction false} UpAnchorIrrelevant(cfg: Config, p: Point, q: Point, rs: seq<PenReport>)
    requires cfg.Valid()
    ensures Run(cfg, PenState(false, p), rs).trace == Run(cfg, PenState(false, q), rs).trace
    ensures Run(cfg, PenState(false, p), rs).state == Run(cfg, PenState(false, q), rs).state
            || (Run(cfg, PenState(false, p), rs).state == PenState(false, p)
                && Run(cfg, PenState(false, q), rs).state == PenState(false, q))
    decreases |rs|
  {
    if rs != [] {
      var sp := Step(cfg, PenState(false, p), rs[0]);
      var sq := Step(cfg, PenState(false, q), rs[0]);
      if sp.state.isDown {
        assert sp == sq;
      } else {
        UpAnchorIrrelevant(cfg, p, q, rs[1..]);
      }
    }
  }

  /**
   * clearSignature leaves lastPoint as it was and startSignatureCapture sets it
   * to (0, 0); both set isDown to false, so the reports that follow draw the
   * same segments as after a fresh start.
   */
  lemma ResetEquivalent(cfg: Config, p: Point, rs: seq<PenReport>)
    requires cfg.Valid()
    ensures Run(cfg, PenState(false, p), rs).trace == Run(cfg, Fresh, rs).trace
  {
    UpAnchorIrrelevant(cfg, p, Origin, rs);
  }

  /** While every pressure stays at or below the on mark, an up pen draws nothing and keeps its state. */
  lemma {:induction false} UpStaysQuiet(cfg: Config, p: Point, rs: seq<PenReport>)
    requires cfg.Valid()
    requires forall i :: 0 <= i < |rs| ==> rs[i].pressure <= cfg.threshold.onPressureMark
    ensures Run(cfg, PenState(false, p), rs) == RunResult(PenState(false, p), [])
    decreases |rs|
  {
    if rs != [] {
      UpStaysQuiet(cfg, p, rs[1..]);
    }
  }

  /** No report of rs brings the pen down from up: the reports belong to the stroke in progress. */
  predicate WithinStroke(cfg: Config, s: PenState, rs: seq<PenReport>)
    requires cfg.Valid()
    decreases |rs|
  {
    rs == [] ||
    ((s.isDown || !NextDown(s.isDown, rs[0].pressure, cfg.threshold))
     && WithinStroke(cfg, Step(cfg, s, rs[0]).state, rs[1..]))
  }

  /** Each segment begins where the one before it ended; the first begins at start. */
  predicate Chained(start: Point, t: seq<Segment>) {
    (t != [] ==> t[0].from == start) &&
    forall i :: 0 < i < |t| ==> t[i].from == t[i - 1].to
  }

  lemma ChainedCons(start: Point, g: Segment, rest: seq<Segment>)
    requires g.from == start
    requires Chained(g.to, rest)
    ensures Chained(start, [g] + rest)
  {
    var t := [g] + rest;
    forall i | 0 < i < |t| ensures t[i].from == t[i - 1].to {
      if i > 1 {
        assert t[i] == rest[i - 1] && t[i - 1] == rest[i - 2];
      }
    }
  }

  /** Inside one stroke the drawn segments form a connected polyline starting at lastPoint. */
  lemma {:induction false} StrokeIsChained(cfg: Config, s: PenState, rs: seq<PenReport>)
    requires cfg.Valid()
    requires WithinStroke(cfg, s, rs)
    ensures Chained(s.lastPoint, Run(cfg, s, rs).trace)
    decreases |rs|
  {
    if rs != [] {
      var first := Step(cfg, s, rs[0]);
      var rest := Run(cfg, first.state, rs[1..]);
      StrokeIsChained(cfg, first.state, rs[1..]);
      if first.drawn != [] {
        assert first.drawn == [first.drawn[0]];
        ChainedCons(s.lastPoint, first.drawn[0], rest.trace);
      } else {
        assert first.drawn + rest.trace == rest.trace;
      }
    }
  }

  /** Inside one stroke lastPoint ends at the end of the last segment drawn, or stays put when none is. */
  lemma {:induction false} StrokeEndsAtLastSegment(cfg: Config, s: PenState, rs: seq<PenReport>)
    requires cfg.Valid()
    requires WithinStroke(cfg, s, rs)
    ensures var o := Run(cfg, s, rs);
            o.state.lastPoint == if o.trace == [] then s.lastPoint else o.trace[|o.trace| - 1].to
    decreases |rs|
  {
    if rs != [] {
      var first := Step(cfg, s, rs[0]);
      var rest := Run(cfg, first.state, rs[1..]);
      StrokeEndsAtLastSegment(cfg, first.state, rs[1..]);
      if first.drawn != [] && rest.trace == [] {
        assert first.drawn + rest.trace == first.drawn;
      } else if first.drawn == [] {
        assert first.drawn + rest.trace == rest.trace;
      }
    }
  }

  /** Pen-down samples (0,0) then (2,2) are within the gate; (0,0) then (4,4) are not. */
  lemma DistanceGateExample()
    ensures var cfg := Config(100, 100, Capability(100, 100), InkThreshold(50, 30));
            Step(cfg, PenState(true, Origin), PenReport(2, 2, 60)).drawn == []
            && Step(cfg, PenState(true, Origin), PenReport(4, 4, 60)).drawn == [Segment(Origin, Point(4, 4))]
  {
    RoundedScaleIdentity(100, 2);
    RoundedScaleIdentity(100, 4);
  }

  /** Lifting the pen after a one-pixel movement still draws the closing segment. */
  lemma LiftClosesStrokeExample()
    ensures var cfg := Config(100, 100, Capability(100, 100), InkThreshold(50, 30));
            Step(cfg, PenState(true, Origin), PenReport(1, 0, 10))
              == StepResult(PenState(false, Point(1, 0)), [Segment(Origin, Point(1, 0))])
  {
    RoundedScaleIdentity(100, 1);
    RoundedScaleIdentity(100, 0);
  }
}
