/**
 * What one kernel call computes, as a specification: a sum over the channels
 * and the kernel taps of a window, in the order and with the bounds tests of
 * the source's loop nest (channel c, then taps i, j, k along height, width,
 * depth). The forward kernel sums products of the two inputs; the backward
 * kernel's effect on one gradient element is the same sum taken over a
 * different summand, so one family of sums serves both, selected by a `Probe`.
 */
module WindowSums {
  import opened CorrelationGeometry

  /** A read-only feature volume of shape [batch, channels, height, width, depth],
      read by nested indexing as a tensor accessor is (data[n][c][x][y][z]). */
  datatype Volume = Volume(batch: nat, channels: nat, height: nat, width: nat, depth: nat,
                           data: seq<seq<seq<seq<seq<real>>>>>)
  {
    /** Every level of nesting has the length the shape says. */
    predicate Valid()
    {
      && |data| == batch
      && (forall n :: 0 <= n < batch ==> |data[n]| == channels)
      && (forall n, c :: 0 <= n < batch && 0 <= c < channels ==> |data[n][c]| == height)
      && (forall n, c, x :: 0 <= n < batch && 0 <= c < channels && 0 <= x < height ==>
            |data[n][c][x]| == width)
      && (forall n, c, x, y :: 0 <= n < batch && 0 <= c < channels && 0 <= x < height && 0 <= y < width ==>
            |data[n][c][x][y]| == depth)
    }

    /** (x, y, z) lies inside the spatial extent. */
    predicate InExtent(x: int, y: int, z: int)
    {
      0 <= x < height && 0 <= y < width && 0 <= z < depth
    }

    predicate Contains(n: int, c: int, x: int, y: int, z: int)
    {
      0 <= n < batch && 0 <= c < channels && InExtent(x, y, z)
    }

    function Get(n: int, c: int, x: int, y: int, z: int): real
      requires Valid() && Contains(n, c, x, y, z)
    {
      data[n][c][x][y][z]
    }
  }

  /** A gradient buffer of the same shape as volume `v` (zeros_like). */
  predicate Shaped(g: array5<real>, v: Volume)
  {
    g.Length0 == v.batch && g.Length1 == v.channels && g.Length2 == v.height
    && g.Length3 == v.width && g.Length4 == v.depth
  }

  predicate InBuffer(g: array5<real>, n: int, c: int, x: int, y: int, z: int)
  {
    0 <= n < g.Length0 && 0 <= c < g.Length1 && 0 <= x < g.Length2 && 0 <= y < g.Length3 && 0 <= z < g.Length4
  }

  /** The source's WITHIN_BOUNDS(x, y, H, W) macro. */
  predicate WithinBounds(x: int, y: int, H: int, W: int)
  {
    0 <= x < H && 0 <= y < W
  }

  /** Two well-formed inputs. The kernels test the coordinates of both inputs
      against input 1's sizes, so input 2 must be at least as large along every
      axis (callers pass equal shapes). */
  predicate Inputs(in1: Volume, in2: Volume)
  {
    && in1.Valid() && in2.Valid()
    && in1.batch <= in2.batch && in1.channels <= in2.channels && in1.height <= in2.height
    && in1.width <= in2.width && in1.depth <= in2.depth
  }

  datatype Side = First | Second

  /** One element [c][x][y][z] of the gradient of input 1 (First) or input 2 (Second). */
  datatype Target = Target(side: Side, c: int, x: int, y: int, z: int)

  /** Dot: the forward summand input1[c][p1] * input2[c][p2].
      Scatter(g, t): what the backward kernel adds to gradient element `t` at
      one tap: g * input2[c][p2] when `t` is input-1 element [c][p1], or
      g * input1[c][p1] when `t` is input-2 element [c][p2], and 0 otherwise. */
  datatype Probe = Dot | Scatter(g: real, at: Target)

  /** Tap (i, j, k) of channel c lies in the window and passes all three bounds tests. */
  predicate Counted(in1: Volume, win: Window, c: int, i: int, j: int, k: int)
  {
    && 0 <= c < in1.channels
    && 0 <= i < win.h.size && 0 <= j < win.w.size && 0 <= k < win.d.size
    && WithinBounds(win.h.Pos1(i), win.h.Pos2(i), in1.height, in1.height)
    && WithinBounds(win.w.Pos1(j), win.w.Pos2(j), in1.width, in1.width)
    && WithinBounds(win.d.Pos1(k), win.d.Pos2(k), in1.depth, in1.depth)
  }

  /** The summand of probe `p` at an in-bounds tap (i, j, k) of channel c. */
  function Term(p: Probe, in1: Volume, in2: Volume, n: int, win: Window, c: int, i: int, j: int, k: int): real
    requires Inputs(in1, in2) && 0 <= n < in1.batch && 0 <= c < in1.channels
    requires WithinBounds(win.h.Pos1(i), win.h.Pos2(i), in1.height, in1.height)
    requires WithinBounds(win.w.Pos1(j), win.w.Pos2(j), in1.width, in1.width)
    requires WithinBounds(win.d.Pos1(k), win.d.Pos2(k), in1.depth, in1.depth)
  {
    var i1, j1, k1 := win.h.Pos1(i), win.w.Pos1(j), win.d.Pos1(k);
    var i2, j2, k2 := win.h.Pos2(i), win.w.Pos2(j), win.d.Pos2(k);
    var v1 := in1.Get(n, c, i1, j1, k1);
    var v2 := in2.Get(n, c, i2, j2, k2);
    match p
    case Dot => v1 * v2
    case Scatter(g, t) =>
      if t.side == First then
        (if t.c == c && t.x == i1 && t.y == j1 && t.z == k1 then g * v2 else 0.0)
      else
        (if t.c == c && t.x == i2 && t.y == j2 && t.z == k2 then g * v1 else 0.0)
  }

  /** Depth taps k' < k of tap (i, j) of channel c. */
  function SumK(p: Probe, in1: Volume, in2: Volume, n: int, win: Window, c: int, i: int, j: int, k: nat): real
    requires Inputs(in1, in2) && 0 <= n < in1.batch && 0 <= c < in1.channels
    requires WithinBounds(win.h.Pos1(i), win.h.Pos2(i), in1.height, in1.height)
    requires WithinBounds(win.w.Pos1(j), win.w.Pos2(j), in1.width, in1.width)
  {
    if k == 0 then 0.0
    else
      SumK(p, in1, in2, n, win, c, i, j, k - 1)
      + (if WithinBounds(win.d.Pos1(k - 1), win.d.Pos2(k - 1), in1.depth, in1.depth)
         then Term(p, in1, in2, n, win, c, i, j, k - 1) else 0.0)
  }

  /** Width taps j' < j of height tap i of channel c. */
  function SumJ(p: Probe, in1: Volume, in2: Volume, n: int, win: Window, c: int, i: int, j: nat): real
    requires Inputs(in1, in2) && 0 <= n < in1.batch && 0 <= c < in1.channels
    requires WithinBounds(win.h.Pos1(i), win.h.Pos2(i), in1.height, in1.height)
  {
    if j == 0 then 0.0
    else
      SumJ(p, in1, in2, n, win, c, i, j - 1)
      + (if WithinBounds(win.w.Pos1(j - 1), win.w.Pos2(j - 1), in1.width, in1.width)
         then SumK(p, in1, in2, n, win, c, i, j - 1, win.d.size) else 0.0)
  }

  /** Height taps i' < i of channel c. */
  function SumI(p: Probe, in1: Volume, in2: Volume, n: int, win: Window, c: int, i: nat): real
    requires Inputs(in1, in2) && 0 <= n < in1.batch && 0 <= c < in1.channels
  {
    if i == 0 then 0.0
    else
      SumI(p, in1, in2, n, win, c, i - 1)
      + (if WithinBounds(win.h.Pos1(i - 1), win.h.Pos2(i - 1), in1.height, in1.height)
         then SumJ(p, in1, in2, n, win, c, i - 1, win.w.size) else 0.0)
  }

  /** Channels c' < c. */
  function SumC(p: Probe, in1: Volume, in2: Volume, n: int, win: Window, c: nat): real
    requires Inputs(in1, in2) && 0 <= n < in1.batch && c <= in1.channels
  {
    if c == 0 then 0.0
    else SumC(p, in1, in2, n, win, c - 1) + SumI(p, in1, in2, n, win, c - 1, win.h.size)
  }

  /** The whole window of batch element n: all channels of input 1. */
  function WindowSum(p: Probe, in1: Volume, in2: Volume, n: int, win: Window): real
    requires Inputs(in1, in2) && 0 <= n < in1.batch
  {
    SumC(p, in1, in2, n, win, in1.channels)
  }
}
