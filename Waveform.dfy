/**
 * `CircularWaveform` of public/script.js: a frequency snapshot drawn as a
 * closed ring on the 2D canvas. Vertex positions are kept in polar form
 * (the fraction of a full turn and the distance from the canvas centre);
 * the cosine/sine projection to pixels is not modelled.
 */
module Waveform {

  /** One element of a `Uint8Array`. */
  newtype byte = x: int | 0 <= x < 256

  /** The distance a full-scale byte (255) adds to the base radius. */
  const AmplitudeScale: real := 100.0

  /** Fixed stroke width of every ring. */
  const LineWidth: nat := 4

  /** The background fill of every frame. */
  const Background := "black"

  /** An `hsl(h, s%, l%)` colour. */
  datatype Color = Hsl(hue: real, saturation: nat, lightness: nat)

  /** The radial gradient a ring is stroked with: `color1` inside, `color2` outside. */
  datatype Gradient = Gradient(innerRadius: real, outerRadius: real, inner: Color, outer: Color)

  /** A path vertex: vertex `index`, at `turn` of a full circle, `distance` from the centre. */
  datatype Vertex = Vertex(index: nat, turn: real, distance: real)

  /** The calls made on the canvas's 2D context, in the order they are made. */
  datatype DrawOp =
    | FillRect(fill: string, width: int, height: int)
    | BeginPath
    | MoveTo(v: Vertex)
    | LineTo(v: Vertex)
    | ClosePath
    | Stroke(gradient: Gradient, lineWidth: nat)

  /** The amplitude a frequency byte adds to the radius: `b / 255 * 100`. */
  function Amplitude(b: byte): (amp: real)
    ensures 0.0 <= amp <= AmplitudeScale
    ensures amp == 0.0 <==> b == 0
    ensures amp == AmplitudeScale <==> b == 255
  {
    b as real / 255.0 * AmplitudeScale
  }

  /** Louder bins are drawn strictly further out. */
  lemma AmplitudeMonotone(a: byte, b: byte)
    requires a < b
    ensures Amplitude(a) < Amplitude(b)
  {
  }

  /** The 2D context: the record of every call made on it. */
  class Canvas {
    var ops: seq<DrawOp>

    constructor ()
      ensures ops == []
    {
      ops := [];
    }

    /** Makes one call on the context. */
    method Apply(op: DrawOp)
      modifies this
      ensures ops == old(ops) + [op]
    {
      ops := ops + [op];
    }
  }

  datatype CircularWaveform = CircularWaveform(dataArray: seq<byte>, radius: nat, color1: Color, color2: Color)
  {
    /** The vertex drawn for bin `i`: angle `i / len` of a turn, `radius + amplitude` out. */
    function VertexAt(i: nat): (v: Vertex)
      requires i < |dataArray|
      ensures v.index == i
      ensures 0.0 <= v.turn < 1.0
      ensures radius as real <= v.distance <= radius as real + AmplitudeScale
      ensures v.distance == radius as real <==> dataArray[i] == 0
      ensures v.distance == radius as real + AmplitudeScale <==> dataArray[i] == 255
    {
      Vertex(i, i as real / |dataArray| as real, radius as real + Amplitude(dataArray[i]))
    }

    /** The path call for bin `i`: `moveTo` for the first bin, `lineTo` for every other. */
    function VertexOp(i: nat): DrawOp
      requires i < |dataArray|
    {
      if i == 0 then MoveTo(VertexAt(i)) else LineTo(VertexAt(i))
    }

    /** The path calls for the first `n` bins, in index order. */
    function PathOps(n: nat): seq<DrawOp>
      requires n <= |dataArray|
    {
      if n == 0 then [] else PathOps(n - 1) + [VertexOp(n - 1)]
    }

    function StrokeStyle(): Gradient
    {
      Gradient(radius as real * 0.8, radius as real + 100.0, color1, color2)
    }

    /** Every call `draw()` makes: begin, one vertex per bin, close, stroke. */
    function DrawOps(): seq<DrawOp>
    {
      [BeginPath] + PathOps(|dataArray|) + [ClosePath, Stroke(StrokeStyle(), LineWidth)]
    }

    /** `draw()`: traces the ring on `ctx`. */
    method Draw(ctx: Canvas)
      modifies ctx
      ensures ctx.ops == old(ctx.ops) + DrawOps()
    {
      var len := |dataArray|;
      ctx.Apply(BeginPath);
      for i := 0 to len
        invariant ctx.ops == old(ctx.ops) + [BeginPath] + PathOps(i)
      {
        var v := Vertex(i, i as real / len as real, radius as real + Amplitude(dataArray[i]));
        if i == 0 {
          ctx.Apply(MoveTo(v));
        } else {
          ctx.Apply(LineTo(v));
        }
      }
      ctx.Apply(ClosePath);
      ctx.Apply(Stroke(StrokeStyle(), LineWidth));
    }
  }

  /** The first `n` path calls are the vertex calls of bins `0 .. n-1`, in order. */
  lemma {:induction false} PathOpsAt(w: CircularWaveform, n: nat)
    requires n <= |w.dataArray|
    ensures |w.PathOps(n)| == n
    ensures forall i :: 0 <= i < n ==> w.PathOps(n)[i] == w.VertexOp(i)
  {
    if n > 0 {
      PathOpsAt(w, n - 1);
    }
  }

  /**
   * The shape of `draw()`: `len + 3` calls; a `beginPath`; one `moveTo`, to
   * vertex 0; a `lineTo` to each later vertex in index order; then
   * `closePath`, which joins the last vertex back to vertex 0; then `stroke`.
   */
  lemma DrawShape(w: CircularWaveform)
    ensures var ops := w.DrawOps(); var len := |w.dataArray|;
      && |ops| == len + 3
      && ops[0] == BeginPath
      && ops[len + 1] == ClosePath
      && ops[len + 2] == Stroke(w.StrokeStyle(), LineWidth)
      && (forall k :: 0 <= k < |ops| ==> (ops[k].MoveTo? <==> k == 1 && len > 0))
      && (forall k :: 0 <= k < |ops| ==> (ops[k].LineTo? <==> 2 <= k <= len))
      && (forall i :: 0 <= i < len ==> ops[i + 1].v == w.VertexAt(i))
  {
    PathOpsAt(w, |w.dataArray|);
  }

  /** Vertices go round the circle once, in index order. */
  lemma TurnsIncrease(w: CircularWaveform, i: nat, j: nat)
    requires i < j < |w.dataArray|
    ensures w.VertexAt(i).turn < w.VertexAt(j).turn
  {
    var len := |w.dataArray| as real;
    assert i as real / len < j as real / len by {
      assert i as real < j as real;
    }
  }

  /** A snapshot of silence is a perfect circle at the base radius. */
  lemma SilentRing(w: CircularWaveform)
    requires forall i :: 0 <= i < |w.dataArray| ==> w.dataArray[i] == 0
    ensures forall i :: 0 <= i < |w.dataArray| ==> w.VertexAt(i).distance == w.radius as real
  {
  }

  /** A full-scale snapshot is a perfect circle 100 units outside the base radius. */
  lemma FullScaleRing(w: CircularWaveform)
    requires forall i :: 0 <= i < |w.dataArray| ==> w.dataArray[i] == 255
    ensures forall i :: 0 <= i < |w.dataArray| ==> w.VertexAt(i).distance == w.radius as real + AmplitudeScale
  {
  }
}
