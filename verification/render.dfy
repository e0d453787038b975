/**
 The drawing pass of the visualizer. Each detected hand is a sequence of
 landmarks; drawing is modelled as the list of line and circle commands the
 pass issues, in order, on top of the frame.
 */
module Render {
  import opened Palette
  import opened RenderConfig

  /** A landmark in coordinates normalised to the frame's width and height. */
  datatype Landmark = Landmark(x: real, y: real)

  /** One detected hand; position i holds landmark i (0 is the wrist). */
  type Hand = seq<Landmark>

  datatype Point = Point(x: int, y: int)

  /** Radius of the marker drawn on every landmark. */
  const PointSize: int := 7

  /** The thickness value that asks for a filled circle. */
  const Filled: int := -1

  datatype DrawCmd =
    | Line(from: Point, to: Point, color: Color, thickness: int)
    | Circle(center: Point, radius: int, color: Color, thickness: int)

  /** A frame of the given size together with the commands drawn on it so far. */
  datatype Frame = Frame(height: nat, width: nat, overlay: seq<DrawCmd>)

  /** Conversion of a number to an integer by truncation toward zero. */
  function Trunc(v: real): (n: int)
    ensures 0.0 <= v ==> 0 <= n && n as real <= v < n as real + 1.0
    ensures v < 0.0 ==> n <= 0 && n as real - 1.0 < v <= n as real
  {
    if v >= 0.0 then v.Floor else -((-v).Floor)
  }

  /** Pixel position of a landmark in a frame of width `w` and height `h`: each scaled
      coordinate truncated toward zero, so a non-negative one is rounded down. */
  function PixelOf(lm: Landmark, w: int, h: int): (p: Point)
    ensures var vx, vy := lm.x * (w as real), lm.y * (h as real);
      && (0.0 <= vx ==> 0 <= p.x && p.x as real <= vx < p.x as real + 1.0)
      && (vx < 0.0 ==> p.x <= 0 && p.x as real - 1.0 < vx <= p.x as real)
      && (0.0 <= vy ==> 0 <= p.y && p.y as real <= vy < p.y as real + 1.0)
      && (vy < 0.0 ==> p.y <= 0 && p.y as real - 1.0 < vy <= p.y as real)
  {
    Point(Trunc(lm.x * (w as real)), Trunc(lm.y * (h as real)))
  }

  /** A landmark in [0, 1) x [0, 1) lands on a pixel of a non-empty w x h frame:
      a column in 0..w-1 and a row in 0..h-1. */
  lemma PixelInFrame(lm: Landmark, w: nat, h: nat)
    requires 0.0 <= lm.x < 1.0 && 0.0 <= lm.y < 1.0
    requires w > 0 && h > 0
    ensures 0 <= PixelOf(lm, w, h).x < w
    ensures 0 <= PixelOf(lm, w, h).y < h
  {
    var vx, vy := lm.x * (w as real), lm.y * (h as real);
    ScaleBelow(lm.x, w as real, vx);
    ScaleBelow(lm.y, h as real, vy);
    TruncBelow(vx, w);
    TruncBelow(vy, h);
  }

  /** A landmark on the right or bottom edge of the unit square lands one pixel past the frame. */
  lemma EdgeLandmarkOutsideFrame(w: nat, h: nat)
    ensures PixelOf(Landmark(1.0, 1.0), w, h) == Point(w, h)
  {
    assert 1.0 * (w as real) == w as real;
    assert 1.0 * (h as real) == h as real;
  }

  lemma TruncBelow(v: real, bound: int)
    requires 0.0 <= v < bound as real
    ensures 0 <= Trunc(v) < bound
  {
    var n := Trunc(v);
    assert n as real < bound as real;
  }

  lemma ScaleBelow(a: real, b: real, v: real)
    requires 0.0 <= a < 1.0 && 0.0 < b && v == a * b
    ensures 0.0 <= v < b
  {
    assert b - v == (1.0 - a) * b;
  }

  /** The bound check of the drawing loop: both endpoints index an existing landmark. */
  predicate InHand(c: Connection, n: int) {
    c.start < n && c.end < n
  }

  /** A connection table whose endpoints can index a hand. */
  predicate NonNegativeTable(conns: seq<Connection>) {
    forall c :: c in conns ==> 0 <= c.start && 0 <= c.end
  }

  lemma ConnectionsNonNegative()
    ensures NonNegativeTable(Connections)
  {
    ConnectionsShape();
  }

  /** The line drawn for connection `c` of `hand`, coloured by its start landmark. */
  function ConnectionLine(cfg: Config, hand: Hand, w: int, h: int, c: Connection): DrawCmd
    requires Valid(cfg)
    requires 0 <= c.start && 0 <= c.end && InHand(c, |hand|)
  {
    Line(PixelOf(hand[c.start], w, h), PixelOf(hand[c.end], w, h),
         FingerColor(cfg.colorScheme, c.start), cfg.lineThickness)
  }

  /** The lines drawn for the connections at positions j and after of the table `conns`. */
  function LinesFrom(cfg: Config, conns: seq<Connection>, hand: Hand, w: int, h: int, j: nat): (lines: seq<DrawCmd>)
    requires Valid(cfg) && NonNegativeTable(conns) && j <= |conns|
    ensures |lines| <= |conns| - j
    ensures forall k :: 0 <= k < |lines| ==> lines[k].Line? && lines[k].thickness == cfg.lineThickness
    decreases |conns| - j
  {
    if j == |conns| then []
    else
      var c := conns[j];
      assert c in conns;
      (if InHand(c, |hand|) then [ConnectionLine(cfg, hand, w, h, c)] else []) + LinesFrom(cfg, conns, hand, w, h, j + 1)
  }

  /** The lines drawn for one hand, in the order of the skeleton table. */
  function HandLines(cfg: Config, hand: Hand, w: int, h: int): (lines: seq<DrawCmd>)
    requires Valid(cfg)
    ensures |lines| <= 24
    ensures forall k :: 0 <= k < |lines| ==> lines[k].Line? && lines[k].thickness == cfg.lineThickness
  {
    ConnectionCount();
    ConnectionsNonNegative();
    LinesFrom(cfg, Connections, hand, w, h, 0)
  }

  /** The marker drawn on landmark i of `hand`, coloured by its own index. */
  function LandmarkCircle(cfg: Config, hand: Hand, w: int, h: int, i: int): DrawCmd
    requires Valid(cfg) && 0 <= i < |hand|
  {
    Circle(PixelOf(hand[i], w, h), PointSize, FingerColor(cfg.colorScheme, i), Filled)
  }

  /** One filled radius-7 marker per landmark, the i-th coloured by index i. */
  function HandCircles(cfg: Config, hand: Hand, w: int, h: int): (circles: seq<DrawCmd>)
    requires Valid(cfg)
    ensures |circles| == |hand|
    ensures forall i :: 0 <= i < |hand| ==>
      circles[i].Circle? && circles[i].radius == 7 && circles[i].thickness == -1 &&
      circles[i].center == PixelOf(hand[i], w, h) && circles[i].color == FingerColor(cfg.colorScheme, i)
  {
    seq(|hand|, i requires 0 <= i < |hand| => LandmarkCircle(cfg, hand, w, h, i))
  }

  /** Everything drawn for one hand: its lines, then its markers. */
  function HandCommands(cfg: Config, hand: Hand, w: int, h: int): seq<DrawCmd>
    requires Valid(cfg)
  {
    HandLines(cfg, hand, w, h) + HandCircles(cfg, hand, w, h)
  }

  /** Everything drawn for a list of hands, hand by hand in the order given. */
  function FrameCommands(cfg: Config, hands: seq<Hand>, w: int, h: int): (cmds: seq<DrawCmd>)
    requires Valid(cfg)
    ensures |hands| == 0 ==> cmds == []
    ensures TotalLandmarks(hands) <= |cmds| <= TotalLandmarks(hands) + 24 * |hands|
  {
    if |hands| == 0 then []
    else FrameCommands(cfg, hands[..|hands| - 1], w, h) + HandCommands(cfg, hands[|hands| - 1], w, h)
  }

  /** One pass of the drawing routine over the hands detected in `frame`. */
  function ProcessFrame(cfg: Config, frame: Frame, hands: seq<Hand>): (out: Frame)
    requires Valid(cfg)
    ensures |hands| == 0 ==> out == frame
    ensures out.height == frame.height && out.width == frame.width
    ensures |out.overlay| >= |frame.overlay| && out.overlay[..|frame.overlay|] == frame.overlay
    ensures |hands| > 0 ==> out.overlay == frame.overlay + FrameCommands(cfg, hands, frame.width, frame.height)
  {
    if |hands| == 0 then frame
    else frame.(overlay := frame.overlay + FrameCommands(cfg, hands, frame.width, frame.height))
  }

  // ---------------------------------------------------------------------
  // Which connections are drawn

  /** Reference selection: the positions, from j on, of the connections of `conns` inside a hand of n landmarks. */
  function KeptFrom(conns: seq<Connection>, n: int, j: nat): (ks: seq<nat>)
    requires j <= |conns|
    ensures forall k :: 0 <= k < |ks| ==> j <= ks[k] < |conns|
    decreases |conns| - j
  {
    if j == |conns| then []
    else (if InHand(conns[j], n) then [j] else []) + KeptFrom(conns, n, j + 1)
  }

  /** The kept positions are listed in strictly increasing table order, and a position is
      listed exactly when both endpoints of its connection lie inside the hand. */
  lemma {:induction false} KeptFromSpec(conns: seq<Connection>, n: int, j: nat)
    requires j <= |conns|
    ensures forall a, b :: 0 <= a < b < |KeptFrom(conns, n, j)| ==> KeptFrom(conns, n, j)[a] < KeptFrom(conns, n, j)[b]
    ensures forall p :: j <= p < |conns| ==> (p in KeptFrom(conns, n, j) <==> InHand(conns[p], n))
    decreases |conns| - j
  {
    if j < |conns| {
      KeptFromSpec(conns, n, j + 1);
    }
  }

  /** The lines for positions j and after are exactly the lines of the kept connections, in order. */
  lemma {:induction false} LinesFromMatchKept(cfg: Config, conns: seq<Connection>, hand: Hand, w: int, h: int, j: nat)
    requires Valid(cfg) && NonNegativeTable(conns) && j <= |conns|
    ensures |LinesFrom(cfg, conns, hand, w, h, j)| == |KeptFrom(conns, |hand|, j)|
    ensures forall k :: 0 <= k < |KeptFrom(conns, |hand|, j)| ==>
      conns[KeptFrom(conns, |hand|, j)[k]] in conns &&
      InHand(conns[KeptFrom(conns, |hand|, j)[k]], |hand|) &&
      LinesFrom(cfg, conns, hand, w, h, j)[k] == ConnectionLine(cfg, hand, w, h, conns[KeptFrom(conns, |hand|, j)[k]])
    decreases |conns| - j
  {
    if j < |conns| {
      LinesFromMatchKept(cfg, conns, hand, w, h, j + 1);
      assert conns[j] in conns;
    }
  }

  /** A hand's lines are the connections with both endpoints inside the hand, in table order,
      each coloured by its start landmark and drawn at the configured thickness. */
  lemma HandLinesSpec(cfg: Config, hand: Hand, w: int, h: int)
    requires Valid(cfg)
    ensures var ks := KeptFrom(Connections, |hand|, 0);
      && |HandLines(cfg, hand, w, h)| == |ks|
      && (forall a, b :: 0 <= a < b < |ks| ==> ks[a] < ks[b])
      && (forall p :: 0 <= p < |Connections| ==> (p in ks <==> InHand(Connections[p], |hand|)))
      && (forall k :: 0 <= k < |ks| ==>
            var c := Connections[ks[k]];
            0 <= c.start < |hand| && 0 <= c.end < |hand| &&
            HandLines(cfg, hand, w, h)[k] ==
              Line(PixelOf(hand[c.start], w, h), PixelOf(hand[c.end], w, h),
                   FingerColor(cfg.colorScheme, c.start), cfg.lineThickness))
  {
    ConnectionsNonNegative();
    KeptFromSpec(Connections, |hand|, 0);
    LinesFromMatchKept(cfg, Connections, hand, w, h, 0);
  }

  /** When every connection is inside the hand, every position is kept. */
  lemma {:induction false} KeptAll(conns: seq<Connection>, n: int, j: nat)
    requires j <= |conns|
    requires forall c :: c in conns ==> InHand(c, n)
    ensures |KeptFrom(conns, n, j)| == |conns| - j
    ensures forall k :: 0 <= k < |KeptFrom(conns, n, j)| ==> KeptFrom(conns, n, j)[k] == j + k
    decreases |conns| - j
  {
    if j < |conns| {
      assert conns[j] in conns;
      KeptAll(conns, n, j + 1);
    }
  }

  /** A complete hand draws all 24 connections, the k-th line being table connection k. */
  lemma FullHandDrawsEveryConnection(cfg: Config, hand: Hand, w: int, h: int)
    requires Valid(cfg) && |hand| >= 21
    ensures |HandLines(cfg, hand, w, h)| == 24
    ensures forall k :: 0 <= k < 24 ==>
      HandLines(cfg, hand, w, h)[k] == ConnectionLine(cfg, hand, w, h, Connections[k])
  {
    ConnectionCount();
    ConnectionsShape();
    ConnectionsNonNegative();
    KeptAll(Connections, |hand|, 0);
    LinesFromMatchKept(cfg, Connections, hand, w, h, 0);
  }

  // ---------------------------------------------------------------------
  // Order and shape of the commands for a hand and a frame

  /** For one hand: first its lines, then exactly one filled radius-7 marker per landmark,
      the i-th at landmark i and coloured by index i. */
  lemma HandCommandsLayout(cfg: Config, hand: Hand, w: int, h: int)
    requires Valid(cfg)
    ensures var cmds, nl := HandCommands(cfg, hand, w, h), |HandLines(cfg, hand, w, h)|;
      && |cmds| == nl + |hand|
      && (forall k :: 0 <= k < nl ==> cmds[k].Line? && cmds[k].thickness == cfg.lineThickness)
      && (forall i :: 0 <= i < |hand| ==>
            cmds[nl + i] == Circle(PixelOf(hand[i], w, h), 7, FingerColor(cfg.colorScheme, i), -1))
  {
  }

  /** Drawing a list of hands is drawing its first part and then its second part. */
  lemma {:induction false} FrameCommandsAppend(cfg: Config, hs1: seq<Hand>, hs2: seq<Hand>, w: int, h: int)
    requires Valid(cfg)
    ensures FrameCommands(cfg, hs1 + hs2, w, h) == FrameCommands(cfg, hs1, w, h) + FrameCommands(cfg, hs2, w, h)
    decreases |hs2|
  {
    if |hs2| == 0 {
      assert hs1 + hs2 == hs1;
    } else {
      var last := |hs2| - 1;
      assert (hs1 + hs2)[..|hs1 + hs2| - 1] == hs1 + hs2[..last];
      assert (hs1 + hs2)[|hs1 + hs2| - 1] == hs2[last];
      FrameCommandsAppend(cfg, hs1, hs2[..last], w, h);
    }
  }

  /** Hands are drawn in the order received: the commands of a frame are the concatenation of
      the commands of each hand, and no hands means no commands. */
  lemma {:induction false} FrameCommandsInOrder(cfg: Config, hands: seq<Hand>, w: int, h: int)
    requires Valid(cfg)
    ensures |hands| == 0 ==> FrameCommands(cfg, hands, w, h) == []
    ensures |hands| > 0 ==>
      FrameCommands(cfg, hands, w, h) == HandCommands(cfg, hands[0], w, h) + FrameCommands(cfg, hands[1..], w, h)
  {
    if |hands| > 0 {
      assert hands == [hands[0]] + hands[1..];
      FrameCommandsAppend(cfg, [hands[0]], hands[1..], w, h);
      assert [hands[0]][..0] == [];
    }
  }

  function CountCircles(cmds: seq<DrawCmd>): (n: nat)
    ensures n <= |cmds|
  {
    if |cmds| == 0 then 0
    else CountCircles(cmds[..|cmds| - 1]) + (if cmds[|cmds| - 1].Circle? then 1 else 0)
  }

  lemma {:induction false} CountCirclesAppend(a: seq<DrawCmd>, b: seq<DrawCmd>)
    ensures CountCircles(a + b) == CountCircles(a) + CountCircles(b)
    decreases |b|
  {
    if |b| == 0 {
      assert a + b == a;
    } else {
      assert (a + b)[..|a + b| - 1] == a + b[..|b| - 1];
      CountCirclesAppend(a, b[..|b| - 1]);
    }
  }

  lemma {:induction false} CountCirclesUniform(cmds: seq<DrawCmd>, circles: bool)
    requires forall k :: 0 <= k < |cmds| ==> cmds[k].Circle? == circles
    ensures CountCircles(cmds) == if circles then |cmds| else 0
  {
    if |cmds| > 0 {
      CountCirclesUniform(cmds[..|cmds| - 1], circles);
    }
  }

  function TotalLandmarks(hands: seq<Hand>): nat {
    if |hands| == 0 then 0 else TotalLandmarks(hands[..|hands| - 1]) + |hands[|hands| - 1]|
  }

  /** Every landmark of every hand gets exactly one marker, and nothing else is a marker. */
  lemma {:induction false} OneMarkerPerLandmark(cfg: Config, hands: seq<Hand>, w: int, h: int)
    requires Valid(cfg)
    ensures CountCircles(FrameCommands(cfg, hands, w, h)) == TotalLandmarks(hands)
  {
    if |hands| > 0 {
      var hand := hands[|hands| - 1];
      OneMarkerPerLandmark(cfg, hands[..|hands| - 1], w, h);
      CountCirclesUniform(HandLines(cfg, hand, w, h), false);
      CountCirclesUniform(HandCircles(cfg, hand, w, h), true);
      CountCirclesAppend(HandLines(cfg, hand, w, h), HandCircles(cfg, hand, w, h));
      CountCirclesAppend(FrameCommands(cfg, hands[..|hands| - 1], w, h), HandCommands(cfg, hand, w, h));
    }
  }

  /** A single complete hand under the start-up configuration on a 100 x 100 frame: the 24
      table connections as lines of thickness 2 coloured by their start landmark, then 21 filled
      radius-7 markers coloured by their own landmark. */
  lemma SingleFullHandScenario(hand: Hand, base: Frame)
    requires |hand| == 21 && base.width == 100 && base.height == 100
    ensures var out := ProcessFrame(Initial(), base, [hand]).overlay[|base.overlay|..];
      && |out| == 45
      && (forall k :: 0 <= k < 24 ==>
            (out[k].Line? && out[k].thickness == 2 &&
             out[k] == ConnectionLine(Initial(), hand, 100, 100, Connections[k])))
      && (forall k :: 24 <= k < 45 ==>
            out[k] == Circle(PixelOf(hand[k - 24], 100, 100), 7, FingerColor(Vibrant, k - 24), Filled))
  {
    var cfg := Initial();
    var cmds := HandCommands(cfg, hand, 100, 100);
    FullHandDrawsEveryConnection(cfg, hand, 100, 100);
    HandCommandsLayout(cfg, hand, 100, 100);
    FrameCommandsInOrder(cfg, [hand], 100, 100);
    assert [hand][1..] == [];
    assert FrameCommands(cfg, [hand], 100, 100) == cmds;
    assert (base.overlay + cmds)[|base.overlay|..] == cmds;
  }

  // ---------------------------------------------------------------------
  // The drawing loop as written: nested loops over hands, connections and landmarks

  /** The connection loop for one hand over the table `conns`. */
  method DrawConnections(cfg: Config, conns: seq<Connection>, hand: Hand, w: int, h: int) returns (lines: seq<DrawCmd>)
    requires Valid(cfg) && NonNegativeTable(conns)
    ensures lines == LinesFrom(cfg, conns, hand, w, h, 0)
  {
    lines := [];
    var j := 0;
    while j < |conns|
      invariant 0 <= j <= |conns|
      invariant lines + LinesFrom(cfg, conns, hand, w, h, j) == LinesFrom(cfg, conns, hand, w, h, 0)
    {
      var c := conns[j];
      assert c in conns;
      if c.start < |hand| && c.end < |hand| {
        var color := FingerColor(cfg.colorScheme, c.start);
        lines := lines + [Line(PixelOf(hand[c.start], w, h), PixelOf(hand[c.end], w, h), color, cfg.lineThickness)];
      }
      j := j + 1;
    }
  }

  /** The landmark loop for one hand. */
  method DrawLandmarks(cfg: Config, hand: Hand, w: int, h: int) returns (circles: seq<DrawCmd>)
    requires Valid(cfg)
    ensures circles == HandCircles(cfg, hand, w, h)
  {
    circles := [];
    var i := 0;
    while i < |hand|
      invariant 0 <= i <= |hand|
      invariant circles == HandCircles(cfg, hand, w, h)[..i]
    {
      circles := circles + [Circle(PixelOf(hand[i], w, h), PointSize, FingerColor(cfg.colorScheme, i), Filled)];
      i := i + 1;
    }
  }

  /** The whole drawing pass: an early return when no hand was detected, otherwise
      connections then landmarks for each hand in turn. */
  method DrawHands(cfg: Config, frame: Frame, hands: seq<Hand>) returns (out: Frame)
    requires Valid(cfg)
    ensures out == ProcessFrame(cfg, frame, hands)
  {
    if |hands| == 0 {
      return frame;
    }
    var w, h := frame.width, frame.height;
    var cmds: seq<DrawCmd> := [];
    var k := 0;
    ConnectionsNonNegative();
    while k < |hands|
      invariant 0 <= k <= |hands|
      invariant cmds == FrameCommands(cfg, hands[..k], w, h)
    {
      var lines := DrawConnections(cfg, Connections, hands[k], w, h);
      var circles := DrawLandmarks(cfg, hands[k], w, h);
      assert hands[..k + 1][..k] == hands[..k];
      cmds := cmds + lines + circles;
      k := k + 1;
    }
    assert hands[..k] == hands;
    out := frame.(overlay := frame.overlay + cmds);
  }
}
