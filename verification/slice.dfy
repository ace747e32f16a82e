/**
 * The point-cloud builder of a process object: the process colour and the
 * time-slice filter that turns a point record into vertices and colours.
 */
module Slice {
  import opened Wrappers
  import opened Loader

  /** A 24-bit RGB colour, as passed to the colour constructor of the rendering library. */
  type Color = c: int | 0 <= c < 0x1000000

  const Blue: Color := 0x0000ff
  const Yellow: Color := 0xffff14
  const Red: Color := 0xff0000
  const Green: Color := 0x00ff00

  /** The colour of a process's points: three processes are singled out, every other one is blue. */
  function ProcessColor(name: string): (c: Color)
    ensures name == "Cerenkov" ==> c == Yellow
    ensures name == "Attenuation" ==> c == Red
    ensures name == "G4FastSimulationManagerProcess" ==> c == Green
    ensures c == Blue <==> name != "Cerenkov" && name != "Attenuation" && name != "G4FastSimulationManagerProcess"
  {
    if name == "Cerenkov" then Yellow
    else if name == "Attenuation" then Red
    else if name == "G4FastSimulationManagerProcess" then Green
    else Blue
  }

  /** The four processes of the viewer are drawn in four different colours. */
  lemma ProcessColorsDistinct()
    ensures ProcessColor("Transportation") == Blue
    ensures |{ProcessColor("Cerenkov"), ProcessColor("Transportation"),
              ProcessColor("Attenuation"), ProcessColor("G4FastSimulationManagerProcess")}| == 4
  {
  }

  /** A vertex of the rendered cloud. */
  datatype Vec3 = Vec3(x: real, y: real, z: real)

  /** The half-open time window [start, start + width). */
  predicate InWindow(t: real, start: real, width: real)
  {
    start <= t < start + width
  }

  /** The width of the window that stands for "all time": one second, in nanoseconds. */
  const AllTimeWidth: real := 1000000000.0

  /** The vertex drawn for point i: the source's y and z axes are swapped. */
  function Vertex(rec: Record, i: nat): (v: Vec3)
    requires i < |rec.x|
    ensures v.x == rec.x[i] && v.y == rec.z[i] && v.z == rec.y[i]
  {
    Vec3(rec.x[i], rec.z[i], rec.y[i])
  }

  /** The vertex list and the parallel per-vertex colour list of a point cloud. */
  datatype Geometry = Geometry(vertices: seq<Vec3>, colors: seq<Color>)

  /** The ascending indices among the first n points whose time lies in the window. */
  function KeptIndices(t: seq<real>, start: real, width: real, n: nat): (ks: seq<nat>)
    requires n <= |t|
    ensures |ks| <= n
    ensures forall k | 0 <= k < |ks| :: ks[k] < n
    decreases n
  {
    if n == 0 then []
    else if InWindow(t[n - 1], start, width) then KeptIndices(t, start, width, n - 1) + [n - 1]
    else KeptIndices(t, start, width, n - 1)
  }

  /**
   * The geometry built from the first n points: the loop of the builder
   * skips a point whose time is before the window or at or after its end,
   * and otherwise pushes the swapped vertex and the process colour.
   */
  function FilterUpTo(rec: Record, start: real, width: real, color: Color, n: nat): (g: Geometry)
    requires n <= |rec.x|
    ensures |g.vertices| == |g.colors| == |KeptIndices(rec.t, start, width, n)|
    ensures forall k | 0 <= k < |g.colors| :: g.colors[k] == color
    decreases n
  {
    if n == 0 then Geometry([], [])
    else
      var g := FilterUpTo(rec, start, width, color, n - 1);
      var t := rec.t[n - 1];
      if t < start || t >= start + width then g
      else Geometry(g.vertices + [Vertex(rec, n - 1)], g.colors + [color])
  }

  /** The geometry of a process drawn inside the window [start, start + width). */
  function Filter(rec: Record, start: real, width: real, color: Color): (g: Geometry)
    ensures |g.vertices| == |g.colors| <= |rec.x|
    ensures forall k | 0 <= k < |g.colors| :: g.colors[k] == color
  {
    FilterUpTo(rec, start, width, color, |rec.x|)
  }

  /** The geometry of a process drawn over all time, the window [0, 1e9). */
  function FilterAllTime(rec: Record, color: Color): (g: Geometry)
    ensures |g.vertices| == |g.colors| <= |rec.x|
    ensures forall k | 0 <= k < |g.colors| :: g.colors[k] == color
    ensures (forall i | 0 <= i < |rec.t| :: 0.0 <= rec.t[i] < AllTimeWidth) ==>
              g.vertices == seq(|rec.x|, i requires 0 <= i < |rec.x| => Vertex(rec, i))
  {
    FilterSpec(rec, 0.0, AllTimeWidth, color);
    KeptIndicesAll(rec.t, 0.0, AllTimeWidth, |rec.x|);
    Filter(rec, 0.0, AllTimeWidth, color)
  }

  /** An index is kept exactly when it is in range and its time is in the window. */
  lemma {:induction false} KeptIndicesExactly(t: seq<real>, start: real, width: real, n: nat, i: nat)
    requires n <= |t|
    ensures i in KeptIndices(t, start, width, n) <==> i < n && InWindow(t[i], start, width)
    decreases n
  {
    if n > 0 {
      KeptIndicesExactly(t, start, width, n - 1, i);
    }
  }

  /** The kept indices keep the record's order and name each point at most once. */
  lemma {:induction false} KeptIndicesAscending(t: seq<real>, start: real, width: real, n: nat)
    requires n <= |t|
    ensures forall a, b | 0 <= a < b < |KeptIndices(t, start, width, n)| ::
              KeptIndices(t, start, width, n)[a] < KeptIndices(t, start, width, n)[b]
    decreases n
  {
    if n > 0 {
      KeptIndicesAscending(t, start, width, n - 1);
    }
  }

  /** The k-th vertex of the filtered geometry is the swapped vertex of the k-th kept index. */
  lemma {:induction false} FilterUpToVertices(rec: Record, start: real, width: real, color: Color, n: nat)
    requires n <= |rec.x|
    ensures forall k | 0 <= k < |KeptIndices(rec.t, start, width, n)| ::
              FilterUpTo(rec, start, width, color, n).vertices[k]
                == Vertex(rec, KeptIndices(rec.t, start, width, n)[k])
    decreases n
  {
    if n > 0 {
      FilterUpToVertices(rec, start, width, color, n - 1);
    }
  }

  /**
   * The filter keeps exactly the points whose time is in the half-open
   * window, in record order, each drawn with y and z swapped and coloured
   * with the process colour.
   */
  lemma FilterSpec(rec: Record, start: real, width: real, color: Color)
    ensures var g := Filter(rec, start, width, color);
            var ks := KeptIndices(rec.t, start, width, |rec.x|);
            && |g.vertices| == |g.colors| == |ks|
            && (forall k | 0 <= k < |ks| :: g.vertices[k] == Vertex(rec, ks[k]) && g.colors[k] == color)
            && (forall a, b | 0 <= a < b < |ks| :: ks[a] < ks[b])
            && (forall i: nat :: i in ks <==> i < |rec.x| && InWindow(rec.t[i], start, width))
  {
    FilterUpToVertices(rec, start, width, color, |rec.x|);
    KeptIndicesAscending(rec.t, start, width, |rec.x|);
    forall i: nat
      ensures i in KeptIndices(rec.t, start, width, |rec.x|) <==> i < |rec.x| && InWindow(rec.t[i], start, width)
    {
      KeptIndicesExactly(rec.t, start, width, |rec.x|, i);
    }
  }

  /** Every point is drawn by the window that contains every time of the record. */
  lemma {:induction false} KeptIndicesAll(t: seq<real>, start: real, width: real, n: nat)
    requires n <= |t|
    ensures (forall i | 0 <= i < n :: InWindow(t[i], start, width)) ==>
              KeptIndices(t, start, width, n) == seq(n, i => i)
    decreases n
  {
    if n > 0 {
      KeptIndicesAll(t, start, width, n - 1);
    }
  }

  /**
   * The all-time view draws every point exactly when every time is in
   * [0, 1e9); a point outside that range is still left out.
   */
  lemma AllTimeDrawsEverything(rec: Record, color: Color)
    ensures (forall i | 0 <= i < |rec.t| :: 0.0 <= rec.t[i] < AllTimeWidth) ==>
              FilterAllTime(rec, color).vertices == seq(|rec.x|, i requires 0 <= i < |rec.x| => Vertex(rec, i))
    ensures forall i | 0 <= i < |rec.x| && (rec.t[i] < 0.0 || rec.t[i] >= AllTimeWidth) ::
              |FilterAllTime(rec, color).vertices| < |rec.x|
  {
    var ks := KeptIndices(rec.t, 0.0, AllTimeWidth, |rec.x|);
    FilterSpec(rec, 0.0, AllTimeWidth, color);
    KeptIndicesAll(rec.t, 0.0, AllTimeWidth, |rec.x|);
    forall i | 0 <= i < |rec.x| && (rec.t[i] < 0.0 || rec.t[i] >= AllTimeWidth)
      ensures |FilterAllTime(rec, color).vertices| < |rec.x|
    {
      KeptIndicesExactly(rec.t, 0.0, AllTimeWidth, |rec.x|, i);
      KeptIndicesMissing(rec.t, 0.0, AllTimeWidth, |rec.x|, i);
    }
  }

  /** Leaving out one index of range n leaves fewer than n kept indices. */
  lemma {:induction false} KeptIndicesMissing(t: seq<real>, start: real, width: real, n: nat, i: nat)
    requires i < n <= |t|
    requires !InWindow(t[i], start, width)
    ensures |KeptIndices(t, start, width, n)| < n
    decreases n
  {
    if i < n - 1 {
      KeptIndicesMissing(t, start, width, n - 1, i);
    }
  }

  /** The window is half-open: a point at its start is drawn, a point at its end is not. */
  lemma WindowBoundaries(rec: Record, start: real, width: real, color: Color, i: nat)
    requires i < |rec.x|
    ensures rec.t[i] == start && width > 0.0 ==> Vertex(rec, i) in Filter(rec, start, width, color).vertices
    ensures rec.t[i] == start + width ==> i !in KeptIndices(rec.t, start, width, |rec.x|)
  {
    FilterSpec(rec, start, width, color);
    var ks := KeptIndices(rec.t, start, width, |rec.x|);
    if rec.t[i] == start && width > 0.0 {
      assert i in ks;
      var k :| 0 <= k < |ks| && ks[k] == i;
      assert Filter(rec, start, width, color).vertices[k] == Vertex(rec, i);
    }
  }

  /**
   * The two-point record x = [1, 2], y = [3, 4], z = [5, 6], t = [0.1, 0.5]
   * filtered with start 0 and width 0.3 draws only its first point, at (1, 5, 3).
   */
  lemma TwoPointExample(color: Color)
    ensures var rec: Record := Document([1.0, 2.0], [3.0, 4.0], [5.0, 6.0], [0.1, 0.5]);
            Filter(rec, 0.0, 0.3, color) == Geometry([Vec3(1.0, 5.0, 3.0)], [color])
  {
    var rec: Record := Document([1.0, 2.0], [3.0, 4.0], [5.0, 6.0], [0.1, 0.5]);
    assert FilterUpTo(rec, 0.0, 0.3, color, 1) == Geometry([Vec3(1.0, 5.0, 3.0)], [color]);
  }

  /** The JavaScript `a < b` on an array entry: false when the entry is `undefined`. */
  predicate JsLess(a: JsValue, b: real)
  {
    a.Number? && a.v < b
  }

  /** The JavaScript `a >= b` on an array entry: false when the entry is `undefined`. */
  predicate JsAtLeast(a: JsValue, b: real)
  {
    a.Number? && a.v >= b
  }

  /** The builder's test on a loaded time `t`: the point is skipped when `t < start || t >= start + width`. */
  predicate JsKept(t: JsValue, start: real, width: real)
  {
    !(JsLess(t, start) || JsAtLeast(t, start + width))
  }

  /** On a time that is present, the builder's test is the half-open window. */
  lemma JsKeptNumber(v: real, start: real, width: real)
    ensures JsKept(Number(v), start, width) <==> InWindow(v, start, width)
  {
  }

  /**
   * The loader as written pads a short `t` with `undefined`, and the
   * builder's test never skips `undefined`: the document x = [1], y = [2],
   * z = [3], t = [] yields a point without a time that every window draws,
   * while the corrected loader refuses that document.
   */
  lemma MissingTimeShownInEveryWindow(raw: RawRecord)
    requires CopiedFrom(raw, Document([1.0], [2.0], [3.0], []))
    ensures raw.t[0] == Undefined
    ensures forall start: real, width: real :: JsKept(raw.t[0], start, width)
    ensures Load(Document([1.0], [2.0], [3.0], [])) == Failure(ShortT)
  {
  }
}
