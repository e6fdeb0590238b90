/**
 * correlation_cpp_backward, in three dimensions: start from zero gradients of
 * the shapes of the two inputs and, for every batch element n, displacement
 * (ph, pw, pd) and output position (h, w, d), make one backward kernel call
 * scaled by the incoming gradient cell gradOutput[n][ph][pw][pd][h][w][d].
 *
 * Each loop of the nest n, ph, pw, pd, h, w, d is one method: `Backward`
 * (over n), `BackwardBatch`, `BackwardHeightShift`, `BackwardWidthShift`,
 * `ScatterDisplacement`, `ScatterRow` and `ScatterColumn` (over d), which
 * makes the kernel calls.
 * The output sizes oH, oW, oD are read off the incoming gradient's shape,
 * while the displacement counts are the patch sizes passed by the caller.
 *
 * The source's backward pass is still the 2D one (no pd or d loop, rank-4
 * accessors, the 2D kernel, oH and oW from sizes 3 and 4 of the incoming
 * gradient); the model extends it along depth exactly as the forward pass is
 * extended, reading oH, oW, oD from sizes 4, 5 and 6.
 */
module CorrelationBackward {
  import opened CorrelationGeometry
  import opened WindowSums
  import opened PatchKernels

  /** The read-only incoming gradient of the cost volume, shape
      [batch, patchH, patchW, patchD, oH, oW, oD]. */
  datatype GradVolume = GradVolume(batch: nat, patchH: nat, patchW: nat, patchD: nat,
                                   oH: nat, oW: nat, oD: nat,
                                   data: seq<seq<seq<seq<seq<seq<seq<real>>>>>>>)
  {
    predicate Valid()
    {
      && |data| == batch
      && (forall n :: 0 <= n < batch ==> |data[n]| == patchH)
      && (forall n, ph :: 0 <= n < batch && 0 <= ph < patchH ==> |data[n][ph]| == patchW)
      && (forall n, ph, pw :: 0 <= n < batch && 0 <= ph < patchH && 0 <= pw < patchW ==>
            |data[n][ph][pw]| == patchD)
      && (forall n, ph, pw, pd :: 0 <= n < batch && 0 <= ph < patchH && 0 <= pw < patchW && 0 <= pd < patchD ==>
            |data[n][ph][pw][pd]| == oH)
      && (forall n, ph, pw, pd, h ::
            0 <= n < batch && 0 <= ph < patchH && 0 <= pw < patchW && 0 <= pd < patchD && 0 <= h < oH ==>
            |data[n][ph][pw][pd][h]| == oW)
      && (forall n, ph, pw, pd, h, w ::
            0 <= n < batch && 0 <= ph < patchH && 0 <= pw < patchW && 0 <= pd < patchD && 0 <= h < oH && 0 <= w < oW ==>
            |data[n][ph][pw][pd][h][w]| == oD)
    }

    function Get(n: int, ph: int, pw: int, pd: int, h: int, w: int, d: int): real
      requires Valid()
      requires 0 <= n < batch && 0 <= ph < patchH && 0 <= pw < patchW && 0 <= pd < patchD
      requires 0 <= h < oH && 0 <= w < oW && 0 <= d < oD
    {
      data[n][ph][pw][pd][h][w][d]
    }
  }

  /** What the backward pass reads: two inputs and an incoming gradient that
      covers every batch element of input 1 and every displacement of the
      geometry (the source indexes it without checking). */
  predicate Operands(in1: Volume, in2: Volume, gout: GradVolume, geo: Geometry)
  {
    && Inputs(in1, in2) && gout.Valid()
    && in1.batch <= gout.batch
    && geo.h.patch <= gout.patchH && geo.w.patch <= gout.patchW && geo.d.patch <= gout.patchD
  }

  /** What the kernel call of cell [n][ph][pw][pd][h][w][d] adds to gradient element `t`. */
  function Contribution(in1: Volume, in2: Volume, gout: GradVolume, geo: Geometry, n: int, t: Target,
                        ph: int, pw: int, pd: int, h: int, w: int, d: int): real
    requires Operands(in1, in2, gout, geo) && 0 <= n < in1.batch
    requires 0 <= ph < geo.h.patch && 0 <= pw < geo.w.patch && 0 <= pd < geo.d.patch
    requires 0 <= h < gout.oH && 0 <= w < gout.oW && 0 <= d < gout.oD
  {
    WindowSum(Scatter(gout.Get(n, ph, pw, pd, h, w, d), t), in1, in2, n, WindowAt(geo, ph, pw, pd, h, w, d))
  }

  /** Output depths d' < d of position (h, w), displacement (ph, pw, pd). */
  function SumD(in1: Volume, in2: Volume, gout: GradVolume, geo: Geometry, n: int, t: Target,
                ph: int, pw: int, pd: int, h: int, w: int, d: nat): real
    requires Operands(in1, in2, gout, geo) && 0 <= n < in1.batch
    requires 0 <= ph < geo.h.patch && 0 <= pw < geo.w.patch && 0 <= pd < geo.d.patch
    requires 0 <= h < gout.oH && 0 <= w < gout.oW && d <= gout.oD
  {
    if d == 0 then 0.0
    else SumD(in1, in2, gout, geo, n, t, ph, pw, pd, h, w, d - 1)
         + Contribution(in1, in2, gout, geo, n, t, ph, pw, pd, h, w, d - 1)
  }

  /** Output widths w' < w of row h. */
  function SumW(in1: Volume, in2: Volume, gout: GradVolume, geo: Geometry, n: int, t: Target,
                ph: int, pw: int, pd: int, h: int, w: nat): real
    requires Operands(in1, in2, gout, geo) && 0 <= n < in1.batch
    requires 0 <= ph < geo.h.patch && 0 <= pw < geo.w.patch && 0 <= pd < geo.d.patch
    requires 0 <= h < gout.oH && w <= gout.oW
  {
    if w == 0 then 0.0
    else SumW(in1, in2, gout, geo, n, t, ph, pw, pd, h, w - 1)
         + SumD(in1, in2, gout, geo, n, t, ph, pw, pd, h, w - 1, gout.oD)
  }

  /** Output heights h' < h of displacement (ph, pw, pd). */
  function SumH(in1: Volume, in2: Volume, gout: GradVolume, geo: Geometry, n: int, t: Target,
                ph: int, pw: int, pd: int, h: nat): real
    requires Operands(in1, in2, gout, geo) && 0 <= n < in1.batch
    requires 0 <= ph < geo.h.patch && 0 <= pw < geo.w.patch && 0 <= pd < geo.d.patch
    requires h <= gout.oH
  {
    if h == 0 then 0.0
    else SumH(in1, in2, gout, geo, n, t, ph, pw, pd, h - 1)
         + SumW(in1, in2, gout, geo, n, t, ph, pw, pd, h - 1, gout.oW)
  }

  /** Depth displacements pd' < pd of (ph, pw). */
  function SumPd(in1: Volume, in2: Volume, gout: GradVolume, geo: Geometry, n: int, t: Target,
                 ph: int, pw: int, pd: nat): real
    requires Operands(in1, in2, gout, geo) && 0 <= n < in1.batch
    requires 0 <= ph < geo.h.patch && 0 <= pw < geo.w.patch && pd <= geo.d.patch
  {
    if pd == 0 then 0.0
    else SumPd(in1, in2, gout, geo, n, t, ph, pw, pd - 1)
         + SumH(in1, in2, gout, geo, n, t, ph, pw, pd - 1, gout.oH)
  }

  /** Width displacements pw' < pw of height displacement ph. */
  function SumPw(in1: Volume, in2: Volume, gout: GradVolume, geo: Geometry, n: int, t: Target,
                 ph: int, pw: nat): real
    requires Operands(in1, in2, gout, geo) && 0 <= n < in1.batch
    requires 0 <= ph < geo.h.patch && pw <= geo.w.patch
  {
    if pw == 0 then 0.0
    else SumPw(in1, in2, gout, geo, n, t, ph, pw - 1)
         + SumPd(in1, in2, gout, geo, n, t, ph, pw - 1, geo.d.patch)
  }

  /** Height displacements ph' < ph. */
  function SumPh(in1: Volume, in2: Volume, gout: GradVolume, geo: Geometry, n: int, t: Target, ph: nat): real
    requires Operands(in1, in2, gout, geo) && 0 <= n < in1.batch
    requires ph <= geo.h.patch
  {
    if ph == 0 then 0.0
    else SumPh(in1, in2, gout, geo, n, t, ph - 1)
         + SumPw(in1, in2, gout, geo, n, t, ph - 1, geo.w.patch)
  }

  /** The gradient of element `t` of batch element n: the contributions of all
      cells [n][ph][pw][pd][h][w][d] of the incoming gradient. */
  function BatchGrad(in1: Volume, in2: Volume, gout: GradVolume, geo: Geometry, n: int, t: Target): real
    requires Operands(in1, in2, gout, geo) && 0 <= n < in1.batch
  {
    SumPh(in1, in2, gout, geo, n, t, geo.h.patch)
  }

  /** The loop over ph for batch element n: every gradient element of batch n
      grows by its whole batch gradient. Other batch elements are untouched. */
  method BackwardBatch(in1: Volume, g1: array5<real>, in2: Volume, g2: array5<real>,
    gout: GradVolume, geo: Geometry, n: int)
    requires Operands(in1, in2, gout, geo) && 0 <= n < in1.batch
    requires Shaped(g1, in1) && Shaped(g2, in2) && g1 != g2
    modifies g1, g2
    ensures forall c, x, y, z :: InBuffer(g1, n, c, x, y, z) ==>
      g1[n, c, x, y, z] == old(g1[n, c, x, y, z])
        + BatchGrad(in1, in2, gout, geo, n, Target(First, c, x, y, z))
    ensures forall c, x, y, z :: InBuffer(g2, n, c, x, y, z) ==>
      g2[n, c, x, y, z] == old(g2[n, c, x, y, z])
        + BatchGrad(in1, in2, gout, geo, n, Target(Second, c, x, y, z))
    ensures forall m, c, x, y, z :: InBuffer(g1, m, c, x, y, z) && m != n ==> g1[m, c, x, y, z] == old(g1[m, c, x, y, z])
    ensures forall m, c, x, y, z :: InBuffer(g2, m, c, x, y, z) && m != n ==> g2[m, c, x, y, z] == old(g2[m, c, x, y, z])
  {
    var ph := 0;
    while ph < geo.h.patch
      invariant 0 <= ph <= geo.h.patch
      invariant forall c, x, y, z :: InBuffer(g1, n, c, x, y, z) ==>
        g1[n, c, x, y, z] == old(g1[n, c, x, y, z])
          + SumPh(in1, in2, gout, geo, n, Target(First, c, x, y, z), ph)
      invariant forall c, x, y, z :: InBuffer(g2, n, c, x, y, z) ==>
        g2[n, c, x, y, z] == old(g2[n, c, x, y, z])
          + SumPh(in1, in2, gout, geo, n, Target(Second, c, x, y, z), ph)
      invariant forall m, c, x, y, z :: InBuffer(g1, m, c, x, y, z) && m != n ==> g1[m, c, x, y, z] == old(g1[m, c, x, y, z])
      invariant forall m, c, x, y, z :: InBuffer(g2, m, c, x, y, z) && m != n ==> g2[m, c, x, y, z] == old(g2[m, c, x, y, z])
    {
      BackwardHeightShift(in1, g1, in2, g2, gout, geo, n, ph);
      ph := ph + 1;
    }
  }

  /** The loop over pw for height displacement ph. Other batch elements are untouched. */
  method BackwardHeightShift(in1: Volume, g1: array5<real>, in2: Volume, g2: array5<real>,
    gout: GradVolume, geo: Geometry, n: int, ph: int)
    requires Operands(in1, in2, gout, geo) && 0 <= n < in1.batch
    requires 0 <= ph < geo.h.patch
    requires Shaped(g1, in1) && Shaped(g2, in2) && g1 != g2
    modifies g1, g2
    ensures forall c, x, y, z :: InBuffer(g1, n, c, x, y, z) ==>
      g1[n, c, x, y, z] == old(g1[n, c, x, y, z])
        + SumPw(in1, in2, gout, geo, n, Target(First, c, x, y, z), ph, geo.w.patch)
    ensures forall c, x, y, z :: InBuffer(g2, n, c, x, y, z) ==>
      g2[n, c, x, y, z] == old(g2[n, c, x, y, z])
        + SumPw(in1, in2, gout, geo, n, Target(Second, c, x, y, z), ph, geo.w.patch)
    ensures forall m, c, x, y, z :: InBuffer(g1, m, c, x, y, z) && m != n ==> g1[m, c, x, y, z] == old(g1[m, c, x, y, z])
    ensures forall m, c, x, y, z :: InBuffer(g2, m, c, x, y, z) && m != n ==> g2[m, c, x, y, z] == old(g2[m, c, x, y, z])
  {
    var pw := 0;
    while pw < geo.w.patch
      invariant 0 <= pw <= geo.w.patch
      invariant forall c, x, y, z :: InBuffer(g1, n, c, x, y, z) ==>
        g1[n, c, x, y, z] == old(g1[n, c, x, y, z])
          + SumPw(in1, in2, gout, geo, n, Target(First, c, x, y, z), ph, pw)
      invariant forall c, x, y, z :: InBuffer(g2, n, c, x, y, z) ==>
        g2[n, c, x, y, z] == old(g2[n, c, x, y, z])
          + SumPw(in1, in2, gout, geo, n, Target(Second, c, x, y, z), ph, pw)
      invariant forall m, c, x, y, z :: InBuffer(g1, m, c, x, y, z) && m != n ==> g1[m, c, x, y, z] == old(g1[m, c, x, y, z])
      invariant forall m, c, x, y, z :: InBuffer(g2, m, c, x, y, z) && m != n ==> g2[m, c, x, y, z] == old(g2[m, c, x, y, z])
    {
      BackwardWidthShift(in1, g1, in2, g2, gout, geo, n, ph, pw);
      pw := pw + 1;
    }
  }

  /** The loop over pd for displacements ph, pw. Other batch elements are untouched. */
  method BackwardWidthShift(in1: Volume, g1: array5<real>, in2: Volume, g2: array5<real>,
    gout: GradVolume, geo: Geometry, n: int, ph: int, pw: int)
    requires Operands(in1, in2, gout, geo) && 0 <= n < in1.batch
    requires 0 <= ph < geo.h.patch && 0 <= pw < geo.w.patch
    requires Shaped(g1, in1) && Shaped(g2, in2) && g1 != g2
    modifies g1, g2
    ensures forall c, x, y, z :: InBuffer(g1, n, c, x, y, z) ==>
      g1[n, c, x, y, z] == old(g1[n, c, x, y, z])
        + SumPd(in1, in2, gout, geo, n, Target(First, c, x, y, z), ph, pw, geo.d.patch)
    ensures forall c, x, y, z :: InBuffer(g2, n, c, x, y, z) ==>
      g2[n, c, x, y, z] == old(g2[n, c, x, y, z])
        + SumPd(in1, in2, gout, geo, n, Target(Second, c, x, y, z), ph, pw, geo.d.patch)
    ensures forall m, c, x, y, z :: InBuffer(g1, m, c, x, y, z) && m != n ==> g1[m, c, x, y, z] == old(g1[m, c, x, y, z])
    ensures forall m, c, x, y, z :: InBuffer(g2, m, c, x, y, z) && m != n ==> g2[m, c, x, y, z] == old(g2[m, c, x, y, z])
  {
    var pd := 0;
    while pd < geo.d.patch
      invariant 0 <= pd <= geo.d.patch
      invariant forall c, x, y, z :: InBuffer(g1, n, c, x, y, z) ==>
        g1[n, c, x, y, z] == old(g1[n, c, x, y, z])
          + SumPd(in1, in2, gout, geo, n, Target(First, c, x, y, z), ph, pw, pd)
      invariant forall c, x, y, z :: InBuffer(g2, n, c, x, y, z) ==>
        g2[n, c, x, y, z] == old(g2[n, c, x, y, z])
          + SumPd(in1, in2, gout, geo, n, Target(Second, c, x, y, z), ph, pw, pd)
      invariant forall m, c, x, y, z :: InBuffer(g1, m, c, x, y, z) && m != n ==> g1[m, c, x, y, z] == old(g1[m, c, x, y, z])
      invariant forall m, c, x, y, z :: InBuffer(g2, m, c, x, y, z) && m != n ==> g2[m, c, x, y, z] == old(g2[m, c, x, y, z])
    {
      ScatterDisplacement(in1, g1, in2, g2, gout, geo, n, ph, pw, pd);
      pd := pd + 1;
    }
  }

  /** The loop over h for displacement (ph, pw, pd). Other batch elements are untouched. */
  method ScatterDisplacement(in1: Volume, g1: array5<real>, in2: Volume, g2: array5<real>,
    gout: GradVolume, geo: Geometry, n: int, ph: int, pw: int, pd: int)
    requires Operands(in1, in2, gout, geo) && 0 <= n < in1.batch
    requires 0 <= ph < geo.h.patch && 0 <= pw < geo.w.patch && 0 <= pd < geo.d.patch
    requires Shaped(g1, in1) && Shaped(g2, in2) && g1 != g2
    modifies g1, g2
    ensures forall c, x, y, z :: InBuffer(g1, n, c, x, y, z) ==>
      g1[n, c, x, y, z] == old(g1[n, c, x, y, z])
        + SumH(in1, in2, gout, geo, n, Target(First, c, x, y, z), ph, pw, pd, gout.oH)
    ensures forall c, x, y, z :: InBuffer(g2, n, c, x, y, z) ==>
      g2[n, c, x, y, z] == old(g2[n, c, x, y, z])
        + SumH(in1, in2, gout, geo, n, Target(Second, c, x, y, z), ph, pw, pd, gout.oH)
    ensures forall m, c, x, y, z :: InBuffer(g1, m, c, x, y, z) && m != n ==> g1[m, c, x, y, z] == old(g1[m, c, x, y, z])
    ensures forall m, c, x, y, z :: InBuffer(g2, m, c, x, y, z) && m != n ==> g2[m, c, x, y, z] == old(g2[m, c, x, y, z])
  {
    var h := 0;
    while h < gout.oH
      invariant 0 <= h <= gout.oH
      invariant forall c, x, y, z :: InBuffer(g1, n, c, x, y, z) ==>
        g1[n, c, x, y, z] == old(g1[n, c, x, y, z])
          + SumH(in1, in2, gout, geo, n, Target(First, c, x, y, z), ph, pw, pd, h)
      invariant forall c, x, y, z :: InBuffer(g2, n, c, x, y, z) ==>
        g2[n, c, x, y, z] == old(g2[n, c, x, y, z])
          + SumH(in1, in2, gout, geo, n, Target(Second, c, x, y, z), ph, pw, pd, h)
      invariant forall m, c, x, y, z :: InBuffer(g1, m, c, x, y, z) && m != n ==> g1[m, c, x, y, z] == old(g1[m, c, x, y, z])
      invariant forall m, c, x, y, z :: InBuffer(g2, m, c, x, y, z) && m != n ==> g2[m, c, x, y, z] == old(g2[m, c, x, y, z])
    {
      ScatterRow(in1, g1, in2, g2, gout, geo, n, ph, pw, pd, h);
      h := h + 1;
    }
  }

  /** The loop over w for output row h. Other batch elements are untouched. */
  method ScatterRow(in1: Volume, g1: array5<real>, in2: Volume, g2: array5<real>,
    gout: GradVolume, geo: Geometry, n: int, ph: int, pw: int, pd: int, h: int)
    requires Operands(in1, in2, gout, geo) && 0 <= n < in1.batch
    requires 0 <= ph < geo.h.patch && 0 <= pw < geo.w.patch && 0 <= pd < geo.d.patch && 0 <= h < gout.oH
    requires Shaped(g1, in1) && Shaped(g2, in2) && g1 != g2
    modifies g1, g2
    ensures forall c, x, y, z :: InBuffer(g1, n, c, x, y, z) ==>
      g1[n, c, x, y, z] == old(g1[n, c, x, y, z])
        + SumW(in1, in2, gout, geo, n, Target(First, c, x, y, z), ph, pw, pd, h, gout.oW)
    ensures forall c, x, y, z :: InBuffer(g2, n, c, x, y, z) ==>
      g2[n, c, x, y, z] == old(g2[n, c, x, y, z])
        + SumW(in1, in2, gout, geo, n, Target(Second, c, x, y, z), ph, pw, pd, h, gout.oW)
    ensures forall m, c, x, y, z :: InBuffer(g1, m, c, x, y, z) && m != n ==> g1[m, c, x, y, z] == old(g1[m, c, x, y, z])
    ensures forall m, c, x, y, z :: InBuffer(g2, m, c, x, y, z) && m != n ==> g2[m, c, x, y, z] == old(g2[m, c, x, y, z])
  {
    var w := 0;
    while w < gout.oW
      invariant 0 <= w <= gout.oW
      invariant forall c, x, y, z :: InBuffer(g1, n, c, x, y, z) ==>
        g1[n, c, x, y, z] == old(g1[n, c, x, y, z])
          + SumW(in1, in2, gout, geo, n, Target(First, c, x, y, z), ph, pw, pd, h, w)
      invariant forall c, x, y, z :: InBuffer(g2, n, c, x, y, z) ==>
        g2[n, c, x, y, z] == old(g2[n, c, x, y, z])
          + SumW(in1, in2, gout, geo, n, Target(Second, c, x, y, z), ph, pw, pd, h, w)
      invariant forall m, c, x, y, z :: InBuffer(g1, m, c, x, y, z) && m != n ==> g1[m, c, x, y, z] == old(g1[m, c, x, y, z])
      invariant forall m, c, x, y, z :: InBuffer(g2, m, c, x, y, z) && m != n ==> g2[m, c, x, y, z] == old(g2[m, c, x, y, z])
    {
      ScatterColumn(in1, g1, in2, g2, gout, geo, n, ph, pw, pd, h, w);
      w := w + 1;
    }
  }

  /** The loop over d for output position (h, w): one backward kernel call per
      cell of the incoming gradient, scaled by that cell. Other batch elements are untouched. */
  method ScatterColumn(in1: Volume, g1: array5<real>, in2: Volume, g2: array5<real>,
    gout: GradVolume, geo: Geometry, n: int, ph: int, pw: int, pd: int, h: int, w: int)
    requires Operands(in1, in2, gout, geo) && 0 <= n < in1.batch
    requires 0 <= ph < geo.h.patch && 0 <= pw < geo.w.patch && 0 <= pd < geo.d.patch && 0 <= h < gout.oH && 0 <= w < gout.oW
    requires Shaped(g1, in1) && Shaped(g2, in2) && g1 != g2
    modifies g1, g2
    ensures forall c, x, y, z :: InBuffer(g1, n, c, x, y, z) ==>
      g1[n, c, x, y, z] == old(g1[n, c, x, y, z])
        + SumD(in1, in2, gout, geo, n, Target(First, c, x, y, z), ph, pw, pd, h, w, gout.oD)
    ensures forall c, x, y, z :: InBuffer(g2, n, c, x, y, z) ==>
      g2[n, c, x, y, z] == old(g2[n, c, x, y, z])
        + SumD(in1, in2, gout, geo, n, Target(Second, c, x, y, z), ph, pw, pd, h, w, gout.oD)
    ensures forall m, c, x, y, z :: InBuffer(g1, m, c, x, y, z) && m != n ==> g1[m, c, x, y, z] == old(g1[m, c, x, y, z])
    ensures forall m, c, x, y, z :: InBuffer(g2, m, c, x, y, z) && m != n ==> g2[m, c, x, y, z] == old(g2[m, c, x, y, z])
  {
    var d := 0;
    while d < gout.oD
      invariant 0 <= d <= gout.oD
      invariant forall c, x, y, z :: InBuffer(g1, n, c, x, y, z) ==>
        g1[n, c, x, y, z] == old(g1[n, c, x, y, z])
          + SumD(in1, in2, gout, geo, n, Target(First, c, x, y, z), ph, pw, pd, h, w, d)
      invariant forall c, x, y, z :: InBuffer(g2, n, c, x, y, z) ==>
        g2[n, c, x, y, z] == old(g2[n, c, x, y, z])
          + SumD(in1, in2, gout, geo, n, Target(Second, c, x, y, z), ph, pw, pd, h, w, d)
      invariant forall m, c, x, y, z :: InBuffer(g1, m, c, x, y, z) && m != n ==> g1[m, c, x, y, z] == old(g1[m, c, x, y, z])
      invariant forall m, c, x, y, z :: InBuffer(g2, m, c, x, y, z) && m != n ==> g2[m, c, x, y, z] == old(g2[m, c, x, y, z])
    {
      CorrelatePatchGrad(in1, g1, in2, g2, n, gout.Get(n, ph, pw, pd, h, w, d), WindowAt(geo, ph, pw, pd, h, w, d));
      d := d + 1;
    }
  }

  /** The whole backward pass: fresh zero gradients shaped like the two inputs
      (zeros_like), then one `BackwardBatch` per batch element of input 1.
      Every element of batch n ends as its batch gradient; elements of input 2
      beyond input 1's batch are never reached and stay zero. */
  method Backward(in1: Volume, in2: Volume, gout: GradVolume, geo: Geometry)
    returns (g1: array5<real>, g2: array5<real>)
    requires Operands(in1, in2, gout, geo)
    ensures fresh(g1) && fresh(g2) && Shaped(g1, in1) && Shaped(g2, in2)
    ensures forall n, c, x, y, z :: InBuffer(g1, n, c, x, y, z) ==>
      g1[n, c, x, y, z] == BatchGrad(in1, in2, gout, geo, n, Target(First, c, x, y, z))
    ensures forall n, c, x, y, z :: InBuffer(g2, n, c, x, y, z) ==>
      g2[n, c, x, y, z] == if n < in1.batch then BatchGrad(in1, in2, gout, geo, n, Target(Second, c, x, y, z)) else 0.0
  {
    g1 := new real[in1.batch, in1.channels, in1.height, in1.width, in1.depth]((_, _, _, _, _) => 0.0);
    g2 := new real[in2.batch, in2.channels, in2.height, in2.width, in2.depth]((_, _, _, _, _) => 0.0);
    var n := 0;
    while n < in1.batch
      invariant 0 <= n <= in1.batch
      invariant forall m, c, x, y, z :: InBuffer(g1, m, c, x, y, z) ==>
        g1[m, c, x, y, z] == if m < n then BatchGrad(in1, in2, gout, geo, m, Target(First, c, x, y, z)) else 0.0
      invariant forall m, c, x, y, z :: InBuffer(g2, m, c, x, y, z) ==>
        g2[m, c, x, y, z] == if m < n then BatchGrad(in1, in2, gout, geo, m, Target(Second, c, x, y, z)) else 0.0
    {
      BackwardBatch(in1, g1, in2, g2, gout, geo, n);
      n := n + 1;
    }
  }
}
