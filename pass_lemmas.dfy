/**
 * Properties of the whole forward and backward passes.
 */
module PassLemmas {
  import opened CorrelationGeometry
  import opened WindowSums
  import opened WindowLemmas
  import opened CorrelationForward
  import opened CorrelationBackward

  /** With patch 1, kernel 1, no padding and stride 1 along every axis, the
      cost volume has the input's spatial size and each cell is the dot
      product of the two inputs' channel vectors at that position. */
  lemma DegenerateCostVolume(in1: Volume, in2: Volume, geo: Geometry, n: int, h: int, w: int, d: int)
    requires Inputs(in1, in2) && 0 <= n < in1.batch && in1.InExtent(h, w, d)
    requires Degenerate(geo.h) && Degenerate(geo.w) && Degenerate(geo.d)
    ensures Strided(geo) && OutShape(in1, geo) == (in1.height, in1.width, in1.depth)
    ensures WindowSum(Dot, in1, in2, n, WindowAt(geo, 0, 0, 0, h, w, d)) == ChannelDot(in1, in2, n, h, w, d, in1.channels)
  {
    DegenerateAxis(in1.height, geo.h, h);
    DegenerateAxis(in1.width, geo.w, w);
    DegenerateAxis(in1.depth, geo.d, d);
    SingleTapIsChannelDot(in1, in2, n, WindowAt(geo, 0, 0, 0, h, w, d), h, w, d);
  }

  /** No window of batch element n (any displacement, any output position)
      reaches gradient element `t`. */
  ghost predicate Unreached(in1: Volume, gout: GradVolume, geo: Geometry, t: Target)
  {
    forall ph, pw, pd, h, w, d ::
      0 <= ph < geo.h.patch && 0 <= pw < geo.w.patch && 0 <= pd < geo.d.patch
      && 0 <= h < gout.oH && 0 <= w < gout.oW && 0 <= d < gout.oD ==>
      !Reached(in1, WindowAt(geo, ph, pw, pd, h, w, d), t)
  }

  lemma {:induction false} SumDUnreached(in1: Volume, in2: Volume, gout: GradVolume, geo: Geometry, n: int, t: Target,
                                         ph: int, pw: int, pd: int, h: int, w: int, d: nat)
    requires Operands(in1, in2, gout, geo) && 0 <= n < in1.batch && Unreached(in1, gout, geo, t)
    requires 0 <= ph < geo.h.patch && 0 <= pw < geo.w.patch && 0 <= pd < geo.d.patch
    requires 0 <= h < gout.oH && 0 <= w < gout.oW && d <= gout.oD
    ensures SumD(in1, in2, gout, geo, n, t, ph, pw, pd, h, w, d) == 0.0
  {
    if d > 0 {
      SumDUnreached(in1, in2, gout, geo, n, t, ph, pw, pd, h, w, d - 1);
      ScatterOnlyReachesWindow(in1, in2, n, WindowAt(geo, ph, pw, pd, h, w, d - 1), gout.Get(n, ph, pw, pd, h, w, d - 1), t);
    }
  }

  lemma {:induction false} SumWUnreached(in1: Volume, in2: Volume, gout: GradVolume, geo: Geometry, n: int, t: Target,
                                         ph: int, pw: int, pd: int, h: int, w: nat)
    requires Operands(in1, in2, gout, geo) && 0 <= n < in1.batch && Unreached(in1, gout, geo, t)
    requires 0 <= ph < geo.h.patch && 0 <= pw < geo.w.patch && 0 <= pd < geo.d.patch
    requires 0 <= h < gout.oH && w <= gout.oW
    ensures SumW(in1, in2, gout, geo, n, t, ph, pw, pd, h, w) == 0.0
  {
    if w > 0 {
      SumWUnreached(in1, in2, gout, geo, n, t, ph, pw, pd, h, w - 1);
      SumDUnreached(in1, in2, gout, geo, n, t, ph, pw, pd, h, w - 1, gout.oD);
    }
  }

  lemma {:induction false} SumHUnreached(in1: Volume, in2: Volume, gout: GradVolume, geo: Geometry, n: int, t: Target,
                                         ph: int, pw: int, pd: int, h: nat)
    requires Operands(in1, in2, gout, geo) && 0 <= n < in1.batch && Unreached(in1, gout, geo, t)
    requires 0 <= ph < geo.h.patch && 0 <= pw < geo.w.patch && 0 <= pd < geo.d.patch
    requires h <= gout.oH
    ensures SumH(in1, in2, gout, geo, n, t, ph, pw, pd, h) == 0.0
  {
    if h > 0 {
      SumHUnreached(in1, in2, gout, geo, n, t, ph, pw, pd, h - 1);
      SumWUnreached(in1, in2, gout, geo, n, t, ph, pw, pd, h - 1, gout.oW);
    }
  }

  lemma {:induction false} SumPdUnreached(in1: Volume, in2: Volume, gout: GradVolume, geo: Geometry, n: int, t: Target,
                                          ph: int, pw: int, pd: nat)
    requires Operands(in1, in2, gout, geo) && 0 <= n < in1.batch && Unreached(in1, gout, geo, t)
    requires 0 <= ph < geo.h.patch && 0 <= pw < geo.w.patch && pd <= geo.d.patch
    ensures SumPd(in1, in2, gout, geo, n, t, ph, pw, pd) == 0.0
  {
    if pd > 0 {
      SumPdUnreached(in1, in2, gout, geo, n, t, ph, pw, pd - 1);
      SumHUnreached(in1, in2, gout, geo, n, t, ph, pw, pd - 1, gout.oH);
    }
  }

  lemma {:induction false} SumPwUnreached(in1: Volume, in2: Volume, gout: GradVolume, geo: Geometry, n: int, t: Target,
                                          ph: int, pw: nat)
    requires Operands(in1, in2, gout, geo) && 0 <= n < in1.batch && Unreached(in1, gout, geo, t)
    requires 0 <= ph < geo.h.patch && pw <= geo.w.patch
    ensures SumPw(in1, in2, gout, geo, n, t, ph, pw) == 0.0
  {
    if pw > 0 {
      SumPwUnreached(in1, in2, gout, geo, n, t, ph, pw - 1);
      SumPdUnreached(in1, in2, gout, geo, n, t, ph, pw - 1, geo.d.patch);
    }
  }

  lemma {:induction false} SumPhUnreached(in1: Volume, in2: Volume, gout: GradVolume, geo: Geometry, n: int, t: Target,
                                          ph: nat)
    requires Operands(in1, in2, gout, geo) && 0 <= n < in1.batch && Unreached(in1, gout, geo, t)
    requires ph <= geo.h.patch
    ensures SumPh(in1, in2, gout, geo, n, t, ph) == 0.0
  {
    if ph > 0 {
      SumPhUnreached(in1, in2, gout, geo, n, t, ph - 1);
      SumPwUnreached(in1, in2, gout, geo, n, t, ph - 1, geo.w.patch);
    }
  }

  /** A gradient element that no window of its batch element reaches keeps
      the zero it started with. */
  lemma UnreachedGradIsZero(in1: Volume, in2: Volume, gout: GradVolume, geo: Geometry, n: int, t: Target)
    requires Operands(in1, in2, gout, geo) && 0 <= n < in1.batch && Unreached(in1, gout, geo, t)
    ensures BatchGrad(in1, in2, gout, geo, n, t) == 0.0
  {
    SumPhUnreached(in1, in2, gout, geo, n, t, geo.h.patch);
  }

  /** A non-positive kernel size along any axis empties every window: each
      cost-volume cell keeps its initial zero and no gradient element receives
      anything. */
  lemma NonPositiveKernelGivesZeros(in1: Volume, in2: Volume, gout: GradVolume, geo: Geometry, n: int, t: Target,
                                    ph: int, pw: int, pd: int, h: int, w: int, d: int)
    requires Operands(in1, in2, gout, geo) && 0 <= n < in1.batch
    requires geo.h.kernel <= 0 || geo.w.kernel <= 0 || geo.d.kernel <= 0
    ensures WindowSum(Dot, in1, in2, n, WindowAt(geo, ph, pw, pd, h, w, d)) == 0.0
    ensures BatchGrad(in1, in2, gout, geo, n, t) == 0.0
  {
    EmptyWindowIsZero(Dot, in1, in2, n, WindowAt(geo, ph, pw, pd, h, w, d));
    forall ph', pw', pd', h', w', d' ensures !Reached(in1, WindowAt(geo, ph', pw', pd', h', w', d'), t) {
      var win := WindowAt(geo, ph', pw', pd', h', w', d');
      assert forall c, i, j, k :: !Counted(in1, win, c, i, j, k);
    }
    UnreachedGradIsZero(in1, in2, gout, geo, n, t);
  }

  /** The kernels run over input 1's channels only, so when input 2 has more
      channels, its gradient in those channels stays zero. */
  lemma ExtraChannelsGetNoGradient(in1: Volume, in2: Volume, gout: GradVolume, geo: Geometry, n: int, t: Target)
    requires Operands(in1, in2, gout, geo) && 0 <= n < in1.batch
    requires t.c >= in1.channels
    ensures BatchGrad(in1, in2, gout, geo, n, t) == 0.0
  {
    UnreachedGradIsZero(in1, in2, gout, geo, n, t);
  }
}
