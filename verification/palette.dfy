/**
 The constant tables of the hand visualizer: the three colour schemes, the
 24-edge skeleton connection table, and the classification of a landmark
 index into a finger group with its colour under the active scheme.
 */
module Palette {

  /** A colour in OpenCV's channel order (blue, green, red). */
  datatype Color = Color(b: int, g: int, r: int)

  /** The neutral palm colour: full brightness in every channel. */
  const White: Color := Color(255, 255, 255)

  const Vibrant: string := "vibrant"
  const Pastel: string := "pastel"
  const Mono: string := "mono"

  /** The built-in schemes, each listing the thumb, index, middle, ring and little finger colours. */
  const ColorSchemes: map<string, seq<Color>> := map[
    Vibrant := [Color(0, 255, 255), Color(255, 0, 0), Color(0, 255, 0), Color(255, 0, 255), Color(0, 165, 255)],
    Pastel := [Color(180, 255, 255), Color(255, 180, 180), Color(180, 255, 180), Color(255, 180, 255), Color(180, 200, 255)],
    Mono := [Color(200, 200, 200), Color(150, 150, 150), Color(100, 100, 100), Color(200, 200, 200), Color(150, 150, 150)]
  ]

  predicate IsScheme(name: string) {
    name in ColorSchemes
  }

  predicate InByteRange(c: Color) {
    0 <= c.b < 256 && 0 <= c.g < 256 && 0 <= c.r < 256
  }

  /** The scheme table has exactly the three built-in names, each with five byte colours, none of them white. */
  lemma SchemesWellFormed()
    ensures ColorSchemes.Keys == {Vibrant, Pastel, Mono}
    ensures forall name :: name in ColorSchemes ==> |ColorSchemes[name]| == 5
    ensures forall name, k :: name in ColorSchemes && 0 <= k < |ColorSchemes[name]| ==>
      InByteRange(ColorSchemes[name][k]) && ColorSchemes[name][k] != White
  {
  }

  /** The finger a landmark index belongs to; Palm is the wrist and every out-of-range index. */
  datatype FingerGroup = Thumb | IndexFinger | Middle | Ring | Little | Palm

  /** Position of a finger's colour within a scheme's five-colour list. */
  function Slot(g: FingerGroup): nat
    requires g != Palm
  {
    match g
    case Thumb => 0
    case IndexFinger => 1
    case Middle => 2
    case Ring => 3
    case Little => 4
  }

  /** The chain of range tests of the finger colour lookup, as a finger group. */
  function Classify(idx: int): (g: FingerGroup)
    ensures g == Palm <==> idx < 1 || idx > 20
    ensures g != Palm ==> Slot(g) == (idx - 1) / 4
  {
    if 1 <= idx <= 4 then Thumb
    else if 5 <= idx <= 8 then IndexFinger
    else if 9 <= idx <= 12 then Middle
    else if 13 <= idx <= 16 then Ring
    else if 17 <= idx <= 20 then Little
    else Palm
  }

  /** The colour of a finger group in a five-colour scheme; the palm ignores the scheme. */
  function ColorFor(g: FingerGroup, colors: seq<Color>): (c: Color)
    requires |colors| == 5
    ensures g == Palm ==> c == White
    ensures g != Palm ==> c == colors[Slot(g)]
  {
    match g
    case Palm => White
    case _ => colors[Slot(g)]
  }

  /** The colour of landmark `idx` under the scheme named `scheme`. */
  function FingerColor(scheme: string, idx: int): (c: Color)
    requires IsScheme(scheme)
    ensures 1 <= idx <= 4 ==> c == ColorSchemes[scheme][0]
    ensures 5 <= idx <= 8 ==> c == ColorSchemes[scheme][1]
    ensures 9 <= idx <= 12 ==> c == ColorSchemes[scheme][2]
    ensures 13 <= idx <= 16 ==> c == ColorSchemes[scheme][3]
    ensures 17 <= idx <= 20 ==> c == ColorSchemes[scheme][4]
    ensures idx < 1 || idx > 20 ==> c == White
  {
    SchemesWellFormed();
    ColorFor(Classify(idx), ColorSchemes[scheme])
  }

  /** Reference definition: a finger index picks colour (idx - 1) / 4 of the scheme, and white
      is produced exactly for the palm indices, whatever the scheme. */
  lemma FingerColorIsBlockLookup(scheme: string, idx: int)
    requires IsScheme(scheme)
    ensures 1 <= idx <= 20 ==> FingerColor(scheme, idx) == ColorSchemes[scheme][(idx - 1) / 4]
    ensures FingerColor(scheme, idx) == White <==> idx < 1 || idx > 20
  {
    SchemesWellFormed();
    if 1 <= idx <= 20 {
      assert (idx - 1) / 4 == Slot(Classify(idx));
    }
  }

  /** Two landmarks of the same finger always share a colour, and palm landmarks share theirs across schemes. */
  lemma SameFingerSameColor(s1: string, s2: string, i: int, j: int)
    requires IsScheme(s1) && IsScheme(s2)
    ensures Classify(i) == Classify(j) ==> FingerColor(s1, i) == FingerColor(s1, j)
    ensures Classify(i) == Palm ==> FingerColor(s1, i) == FingerColor(s2, i)
  {
  }

  /** A skeletal edge from landmark `start` to landmark `end`. */
  datatype Connection = Connection(start: int, end: int)

  /** The three finger segments of each finger, thumb to little finger. */
  const FingerSegments: seq<Connection> := [
    Connection(1, 2), Connection(2, 3), Connection(3, 4),
    Connection(5, 6), Connection(6, 7), Connection(7, 8),
    Connection(9, 10), Connection(10, 11), Connection(11, 12),
    Connection(13, 14), Connection(14, 15), Connection(15, 16),
    Connection(17, 18), Connection(18, 19), Connection(19, 20)
  ]

  /** The edges from the wrist to the base of each finger. */
  const WristEdges: seq<Connection> :=
    [Connection(0, 1), Connection(0, 5), Connection(0, 9), Connection(0, 13), Connection(0, 17)]

  /** The arcs joining neighbouring finger bases across the palm. */
  const PalmArcs: seq<Connection> :=
    [Connection(1, 5), Connection(5, 9), Connection(9, 13), Connection(13, 17)]

  /** The skeleton in drawing order: finger segments, wrist edges, palm arcs. */
  const Connections: seq<Connection> := FingerSegments + WristEdges + PalmArcs

  lemma FingerSegmentsShape()
    ensures |FingerSegments| == 15
    ensures forall c :: c in FingerSegments ==> 1 <= c.start < c.end <= 20
    ensures forall c :: c in FingerSegments ==> Classify(c.start) == Classify(c.end) != Palm
  {
  }

  lemma PalmEdgesShape()
    ensures forall c :: c in WristEdges ==> c.start == 0 && 1 <= c.end <= 20
    ensures forall c :: c in PalmArcs ==> 1 <= c.start < c.end <= 20
  {
  }

  lemma ConnectionCount()
    ensures |Connections| == 24
  {
  }

  /** Every edge of the table goes from a lower to a higher landmark index within 0..20. */
  lemma ConnectionsShape()
    ensures forall c :: c in Connections ==> 0 <= c.start < c.end <= 20
  {
    FingerSegmentsShape();
    PalmEdgesShape();
    assert forall c :: c in Connections ==> c in FingerSegments || c in WristEdges || c in PalmArcs;
  }

  /** The edges leaving the wrist are exactly the five at positions 15..19 of the table. */
  lemma WristEdgePositions(j: int)
    requires 0 <= j < |Connections|
    ensures Connections[j].start == 0 <==> 15 <= j < 20
  {
    FingerSegmentsShape();
    PalmEdgesShape();
    var f, w, a := FingerSegments, WristEdges, PalmArcs;
    assert |f| == 15 && |w| == 5;
    assert Connections == f + w + a;
    if j < 15 {
      assert (f + w + a)[j] == f[j];
      assert f[j] in f;
    } else if j < 20 {
      assert (f + w + a)[j] == w[j - 15];
      assert w[j - 15] in w;
    } else {
      assert (f + w + a)[j] == a[j - 20];
      assert a[j - 20] in a;
    }
  }

  /** An edge is drawn in the palm colour, under any scheme, exactly when it is one of the five wrist edges. */
  lemma PalmColoredEdges(scheme: string, j: int)
    requires IsScheme(scheme)
    requires 0 <= j < |Connections|
    ensures FingerColor(scheme, Connections[j].start) == White <==> 15 <= j < 20
  {
    ConnectionsShape();
    WristEdgePositions(j);
    assert Connections[j] in Connections;
    FingerColorIsBlockLookup(scheme, Connections[j].start);
  }
}
