/**
 * correlation_cpp_forward_3D: allocate the zero cost volume of shape
 * [batch, patchH, patchW, patchD, oH, oW, oD] and fill every cell
 * [n][ph][pw][pd][h][w][d] with one forward kernel call over the window of
 * output position (h, w, d) displaced by (ph, pw, pd).
 *
 * Each loop of the nest n, ph, pw, pd, h, w, d is one method: `Forward`
 * (over n), `ForwardBatch`, `ForwardHeightShift`, `ForwardWidthShift`,
 * `ForwardDisplacement`, `ForwardRow` and `ForwardColumn` (over d), which
 * makes the kernel calls. Each inner loop runs over the matching extent of
 * the cost volume, which `Forward` allocates with the source's sizes.
 *
 * Deviations from the source text, which does not compile as written: the
 * parameter list repeats kW and drops a comma, kD and dilationD are used but
 * not declared, the output is read through a rank-5 accessor indexed
 * [n][ph][pw][h][w] with no loop over d, and the 2D kernel is called. The
 * model writes cell [n][ph][pw][pd][h][w][d], loops over d and calls the 3D
 * kernel, as the surrounding code intends.
 */
module CorrelationForward {
  import opened CorrelationGeometry
  import opened WindowSums
  import opened PatchKernels

  datatype Option<T> = None | Some(value: T)

  predicate InOutput(out: array7<real>, n: int, ph: int, pw: int, pd: int, h: int, w: int, d: int)
  {
    && 0 <= n < out.Length0 && 0 <= ph < out.Length1 && 0 <= pw < out.Length2 && 0 <= pd < out.Length3
    && 0 <= h < out.Length4 && 0 <= w < out.Length5 && 0 <= d < out.Length6
  }

  /** Every stride is non-zero (the source divides by it). */
  predicate Strided(geo: Geometry)
  {
    geo.h.stride != 0 && geo.w.stride != 0 && geo.d.stride != 0
  }

  /** The output sizes oH, oW, oD of the cost volume. */
  function OutShape(in1: Volume, geo: Geometry): (int, int, int)
    requires Strided(geo)
  {
    (OutSize(in1.height, geo.h), OutSize(in1.width, geo.w), OutSize(in1.depth, geo.d))
  }

  /** `out` has the cost volume's shape [batch, patchH, patchW, patchD, oH, oW, oD]. */
  predicate CostVolumeShape(out: array7<real>, in1: Volume, geo: Geometry)
    requires Strided(geo)
  {
    && out.Length0 == in1.batch
    && out.Length1 == geo.h.patch && out.Length2 == geo.w.patch && out.Length3 == geo.d.patch
    && out.Length4 == OutShape(in1, geo).0 && out.Length5 == OutShape(in1, geo).1
    && out.Length6 == OutShape(in1, geo).2
  }

  /** The loop over ph for batch element n. */
  method ForwardBatch(in1: Volume, in2: Volume, geo: Geometry, out: array7<real>, n: int)
    requires Inputs(in1, in2) && 0 <= n < in1.batch
    requires 0 <= n < out.Length0
    modifies out
    ensures forall ph', pw', pd', h', w', d' :: InOutput(out, n, ph', pw', pd', h', w', d') ==>
      out[n, ph', pw', pd', h', w', d'] == old(out[n, ph', pw', pd', h', w', d'])
        + WindowSum(Dot, in1, in2, n, WindowAt(geo, ph', pw', pd', h', w', d'))
    ensures forall n', ph', pw', pd', h', w', d' ::
      InOutput(out, n', ph', pw', pd', h', w', d') && n' != n ==>
      out[n', ph', pw', pd', h', w', d'] == old(out[n', ph', pw', pd', h', w', d'])
  {
    var ph := 0;
    while ph < out.Length1
      invariant 0 <= ph <= out.Length1
      invariant forall ph', pw', pd', h', w', d' :: InOutput(out, n, ph', pw', pd', h', w', d') && ph' < ph ==>
        out[n, ph', pw', pd', h', w', d'] == old(out[n, ph', pw', pd', h', w', d'])
          + WindowSum(Dot, in1, in2, n, WindowAt(geo, ph', pw', pd', h', w', d'))
      invariant forall ph', pw', pd', h', w', d' :: InOutput(out, n, ph', pw', pd', h', w', d') && ph' >= ph ==>
        out[n, ph', pw', pd', h', w', d'] == old(out[n, ph', pw', pd', h', w', d'])
      invariant forall n', ph', pw', pd', h', w', d' ::
        InOutput(out, n', ph', pw', pd', h', w', d') && n' != n ==>
        out[n', ph', pw', pd', h', w', d'] == old(out[n', ph', pw', pd', h', w', d'])
    {
      ForwardHeightShift(in1, in2, geo, out, n, ph);
      ph := ph + 1;
    }
  }

  /** The loop over pw for batch element n and height displacement ph. */
  method ForwardHeightShift(in1: Volume, in2: Volume, geo: Geometry, out: array7<real>, n: int, ph: int)
    requires Inputs(in1, in2) && 0 <= n < in1.batch
    requires 0 <= n < out.Length0 && 0 <= ph < out.Length1
    modifies out
    ensures forall pw', pd', h', w', d' :: InOutput(out, n, ph, pw', pd', h', w', d') ==>
      out[n, ph, pw', pd', h', w', d'] == old(out[n, ph, pw', pd', h', w', d'])
        + WindowSum(Dot, in1, in2, n, WindowAt(geo, ph, pw', pd', h', w', d'))
    ensures forall n', ph', pw', pd', h', w', d' ::
      InOutput(out, n', ph', pw', pd', h', w', d') && (n', ph') != (n, ph) ==>
      out[n', ph', pw', pd', h', w', d'] == old(out[n', ph', pw', pd', h', w', d'])
  {
    var pw := 0;
    while pw < out.Length2
      invariant 0 <= pw <= out.Length2
      invariant forall pw', pd', h', w', d' :: InOutput(out, n, ph, pw', pd', h', w', d') && pw' < pw ==>
        out[n, ph, pw', pd', h', w', d'] == old(out[n, ph, pw', pd', h', w', d'])
          + WindowSum(Dot, in1, in2, n, WindowAt(geo, ph, pw', pd', h', w', d'))
      invariant forall pw', pd', h', w', d' :: InOutput(out, n, ph, pw', pd', h', w', d') && pw' >= pw ==>
        out[n, ph, pw', pd', h', w', d'] == old(out[n, ph, pw', pd', h', w', d'])
      invariant forall n', ph', pw', pd', h', w', d' ::
        InOutput(out, n', ph', pw', pd', h', w', d') && (n', ph') != (n, ph) ==>
        out[n', ph', pw', pd', h', w', d'] == old(out[n', ph', pw', pd', h', w', d'])
    {
      ForwardWidthShift(in1, in2, geo, out, n, ph, pw);
      pw := pw + 1;
    }
  }

  /** The loop over pd for batch element n and displacements ph, pw. */
  method ForwardWidthShift(in1: Volume, in2: Volume, geo: Geometry, out: array7<real>, n: int, ph: int, pw: int)
    requires Inputs(in1, in2) && 0 <= n < in1.batch
    requires 0 <= n < out.Length0 && 0 <= ph < out.Length1 && 0 <= pw < out.Length2
    modifies out
    ensures forall pd', h', w', d' :: InOutput(out, n, ph, pw, pd', h', w', d') ==>
      out[n, ph, pw, pd', h', w', d'] == old(out[n, ph, pw, pd', h', w', d'])
        + WindowSum(Dot, in1, in2, n, WindowAt(geo, ph, pw, pd', h', w', d'))
    ensures forall n', ph', pw', pd', h', w', d' ::
      InOutput(out, n', ph', pw', pd', h', w', d') && (n', ph', pw') != (n, ph, pw) ==>
      out[n', ph', pw', pd', h', w', d'] == old(out[n', ph', pw', pd', h', w', d'])
  {
    var pd := 0;
    while pd < out.Length3
      invariant 0 <= pd <= out.Length3
      invariant forall pd', h', w', d' :: InOutput(out, n, ph, pw, pd', h', w', d') && pd' < pd ==>
        out[n, ph, pw, pd', h', w', d'] == old(out[n, ph, pw, pd', h', w', d'])
          + WindowSum(Dot, in1, in2, n, WindowAt(geo, ph, pw, pd', h', w', d'))
      invariant forall pd', h', w', d' :: InOutput(out, n, ph, pw, pd', h', w', d') && pd' >= pd ==>
        out[n, ph, pw, pd', h', w', d'] == old(out[n, ph, pw, pd', h', w', d'])
      invariant forall n', ph', pw', pd', h', w', d' ::
        InOutput(out, n', ph', pw', pd', h', w', d') && (n', ph', pw') != (n, ph, pw) ==>
        out[n', ph', pw', pd', h', w', d'] == old(out[n', ph', pw', pd', h', w', d'])
    {
      ForwardDisplacement(in1, in2, geo, out, n, ph, pw, pd);
      pd := pd + 1;
    }
  }

  /** The loop over h for batch element n and displacement (ph, pw, pd). */
  method ForwardDisplacement(in1: Volume, in2: Volume, geo: Geometry, out: array7<real>, n: int, ph: int, pw: int, pd: int)
    requires Inputs(in1, in2) && 0 <= n < in1.batch
    requires 0 <= n < out.Length0 && 0 <= ph < out.Length1 && 0 <= pw < out.Length2 && 0 <= pd < out.Length3
    modifies out
    ensures forall h', w', d' :: InOutput(out, n, ph, pw, pd, h', w', d') ==>
      out[n, ph, pw, pd, h', w', d'] == old(out[n, ph, pw, pd, h', w', d'])
        + WindowSum(Dot, in1, in2, n, WindowAt(geo, ph, pw, pd, h', w', d'))
    ensures forall n', ph', pw', pd', h', w', d' ::
      InOutput(out, n', ph', pw', pd', h', w', d') && (n', ph', pw', pd') != (n, ph, pw, pd) ==>
      out[n', ph', pw', pd', h', w', d'] == old(out[n', ph', pw', pd', h', w', d'])
  {
    var h := 0;
    while h < out.Length4
      invariant 0 <= h <= out.Length4
      invariant forall h', w', d' :: InOutput(out, n, ph, pw, pd, h', w', d') && h' < h ==>
        out[n, ph, pw, pd, h', w', d'] == old(out[n, ph, pw, pd, h', w', d'])
          + WindowSum(Dot, in1, in2, n, WindowAt(geo, ph, pw, pd, h', w', d'))
      invariant forall h', w', d' :: InOutput(out, n, ph, pw, pd, h', w', d') && h' >= h ==>
        out[n, ph, pw, pd, h', w', d'] == old(out[n, ph, pw, pd, h', w', d'])
      invariant forall n', ph', pw', pd', h', w', d' ::
        InOutput(out, n', ph', pw', pd', h', w', d') && (n', ph', pw', pd') != (n, ph, pw, pd) ==>
        out[n', ph', pw', pd', h', w', d'] == old(out[n', ph', pw', pd', h', w', d'])
    {
      ForwardRow(in1, in2, geo, out, n, ph, pw, pd, h);
      h := h + 1;
    }
  }

  /** The loop over w for output row h. */
  method ForwardRow(in1: Volume, in2: Volume, geo: Geometry, out: array7<real>, n: int, ph: int, pw: int, pd: int, h: int)
    requires Inputs(in1, in2) && 0 <= n < in1.batch
    requires 0 <= n < out.Length0 && 0 <= ph < out.Length1 && 0 <= pw < out.Length2 && 0 <= pd < out.Length3 && 0 <= h < out.Length4
    modifies out
    ensures forall w', d' :: InOutput(out, n, ph, pw, pd, h, w', d') ==>
      out[n, ph, pw, pd, h, w', d'] == old(out[n, ph, pw, pd, h, w', d'])
        + WindowSum(Dot, in1, in2, n, WindowAt(geo, ph, pw, pd, h, w', d'))
    ensures forall n', ph', pw', pd', h', w', d' ::
      InOutput(out, n', ph', pw', pd', h', w', d') && (n', ph', pw', pd', h') != (n, ph, pw, pd, h) ==>
      out[n', ph', pw', pd', h', w', d'] == old(out[n', ph', pw', pd', h', w', d'])
  {
    var w := 0;
    while w < out.Length5
      invariant 0 <= w <= out.Length5
      invariant forall w', d' :: InOutput(out, n, ph, pw, pd, h, w', d') && w' < w ==>
        out[n, ph, pw, pd, h, w', d'] == old(out[n, ph, pw, pd, h, w', d'])
          + WindowSum(Dot, in1, in2, n, WindowAt(geo, ph, pw, pd, h, w', d'))
      invariant forall w', d' :: InOutput(out, n, ph, pw, pd, h, w', d') && w' >= w ==>
        out[n, ph, pw, pd, h, w', d'] == old(out[n, ph, pw, pd, h, w', d'])
      invariant forall n', ph', pw', pd', h', w', d' ::
        InOutput(out, n', ph', pw', pd', h', w', d') && (n', ph', pw', pd', h') != (n, ph, pw, pd, h) ==>
        out[n', ph', pw', pd', h', w', d'] == old(out[n', ph', pw', pd', h', w', d'])
    {
      ForwardColumn(in1, in2, geo, out, n, ph, pw, pd, h, w);
      w := w + 1;
    }
  }

  /** The loop over d for output position (h, w): one kernel call per cell, its
      result stored back into the cell. */
  method ForwardColumn(in1: Volume, in2: Volume, geo: Geometry, out: array7<real>, n: int, ph: int, pw: int, pd: int, h: int, w: int)
    requires Inputs(in1, in2) && 0 <= n < in1.batch
    requires 0 <= n < out.Length0 && 0 <= ph < out.Length1 && 0 <= pw < out.Length2 && 0 <= pd < out.Length3 && 0 <= h < out.Length4 && 0 <= w < out.Length5
    modifies out
    ensures forall d' :: InOutput(out, n, ph, pw, pd, h, w, d') ==>
      out[n, ph, pw, pd, h, w, d'] == old(out[n, ph, pw, pd, h, w, d'])
        + WindowSum(Dot, in1, in2, n, WindowAt(geo, ph, pw, pd, h, w, d'))
    ensures forall n', ph', pw', pd', h', w', d' ::
      InOutput(out, n', ph', pw', pd', h', w', d') && (n', ph', pw', pd', h', w') != (n, ph, pw, pd, h, w) ==>
      out[n', ph', pw', pd', h', w', d'] == old(out[n', ph', pw', pd', h', w', d'])
  {
    var d := 0;
    while d < out.Length6
      invariant 0 <= d <= out.Length6
      invariant forall d' :: InOutput(out, n, ph, pw, pd, h, w, d') && d' < d ==>
        out[n, ph, pw, pd, h, w, d'] == old(out[n, ph, pw, pd, h, w, d'])
          + WindowSum(Dot, in1, in2, n, WindowAt(geo, ph, pw, pd, h, w, d'))
      invariant forall d' :: InOutput(out, n, ph, pw, pd, h, w, d') && d' >= d ==>
        out[n, ph, pw, pd, h, w, d'] == old(out[n, ph, pw, pd, h, w, d'])
      invariant forall n', ph', pw', pd', h', w', d' ::
        InOutput(out, n', ph', pw', pd', h', w', d') && (n', ph', pw', pd', h', w') != (n, ph, pw, pd, h, w) ==>
        out[n', ph', pw', pd', h', w', d'] == old(out[n', ph', pw', pd', h', w', d'])
    {
      var acc := CorrelatePatch(in1, in2, n, out[n, ph, pw, pd, h, w, d], WindowAt(geo, ph, pw, pd, h, w, d));
      out[n, ph, pw, pd, h, w, d] := acc;
      d := d + 1;
    }
  }

  /** The whole forward pass. It fails (None) exactly when some output size is
      negative, where the zero tensor of that shape cannot be created; otherwise
      it returns a fresh cost volume of the right shape whose every cell is the
      window sum of its kernel call, since each cell starts at zero and is
      written by exactly one call. */
  method Forward(in1: Volume, in2: Volume, geo: Geometry) returns (r: Option<array7<real>>)
    requires Inputs(in1, in2) && Strided(geo)
    ensures r.None? <==> OutShape(in1, geo).0 < 0 || OutShape(in1, geo).1 < 0 || OutShape(in1, geo).2 < 0
    ensures r.Some? ==> fresh(r.value) && CostVolumeShape(r.value, in1, geo)
    ensures r.Some? ==> forall n, ph, pw, pd, h, w, d :: InOutput(r.value, n, ph, pw, pd, h, w, d) ==>
      r.value[n, ph, pw, pd, h, w, d] == WindowSum(Dot, in1, in2, n, WindowAt(geo, ph, pw, pd, h, w, d))
  {
    var (oH, oW, oD) := OutShape(in1, geo);
    if oH < 0 || oW < 0 || oD < 0 {
      return None;
    }
    var out := new real[in1.batch, geo.h.patch, geo.w.patch, geo.d.patch, oH, oW, oD]((_, _, _, _, _, _, _) => 0.0);
    var n := 0;
    while n < in1.batch
      invariant 0 <= n <= in1.batch
      invariant forall n', ph', pw', pd', h', w', d' :: InOutput(out, n', ph', pw', pd', h', w', d') && n' < n ==>
        out[n', ph', pw', pd', h', w', d'] == WindowSum(Dot, in1, in2, n', WindowAt(geo, ph', pw', pd', h', w', d'))
      invariant forall n', ph', pw', pd', h', w', d' :: InOutput(out, n', ph', pw', pd', h', w', d') && n' >= n ==>
        out[n', ph', pw', pd', h', w', d'] == 0.0
    {
      ForwardBatch(in1, in2, geo, out, n);
      n := n + 1;
    }
    return Some(out);
  }
}
