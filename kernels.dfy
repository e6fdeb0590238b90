/**
 * The two per-window kernels: correlate_patch_3D (forward) and
 * correlate_patch_grad_3D (backward). Each is handed batch element n of both
 * inputs, the kernel sizes and dilations, a base coordinate and a shift, which
 * here travel together as a `Window`.
 *
 * The forward kernel accumulates into the output cell `*dst`; the model passes
 * the cell's value in as `dst` and returns the accumulated value, which the
 * caller stores back into the cell.
 *
 * The source text does not compile as written: the forward kernel's depth
 * kernel size has no type; the backward kernel declares its depth dilation
 * as `dialationD` but reads `dilationD`, which is not declared there; and the
 * backward kernel lacks its closing braces. (The forward kernel spells its
 * depth dilation `dialationD` consistently.) The model uses one depth kernel
 * size and one depth dilation (`win.d`) in both.
 */
module PatchKernels {
  import opened CorrelationGeometry
  import opened WindowSums

  /** correlate_patch_3D: adds to `dst` the product input1[n][c][p1] * input2[n][c][p2]
      of every tap whose six coordinates are in range (p2 = p1 + shift). */
  method CorrelatePatch(in1: Volume, in2: Volume, n: int, dst: real, win: Window)
    returns (acc: real)
    requires Inputs(in1, in2) && 0 <= n < in1.batch
    ensures acc == dst + WindowSum(Dot, in1, in2, n, win)
  {
    var C, iH, iW, iD := in1.channels, in1.height, in1.width, in1.depth;
    acc := dst;
    var c := 0;
    while c < C
      invariant 0 <= c <= C
      invariant acc == dst + SumC(Dot, in1, in2, n, win, c)
    {
      var i := 0;
      while i < win.h.size
        invariant 0 <= i <= win.h.size
        invariant acc == dst + SumC(Dot, in1, in2, n, win, c) + SumI(Dot, in1, in2, n, win, c, i)
      {
        var i1 := win.h.Pos1(i);
        var i2 := win.h.Pos2(i);
        if WithinBounds(i1, i2, iH, iH) {
          var j := 0;
          while j < win.w.size
            invariant 0 <= j <= win.w.size
            invariant acc == dst + SumC(Dot, in1, in2, n, win, c) + SumI(Dot, in1, in2, n, win, c, i)
                             + SumJ(Dot, in1, in2, n, win, c, i, j)
          {
            var j1 := win.w.Pos1(j);
            var j2 := win.w.Pos2(j);
            if WithinBounds(j1, j2, iW, iW) {
              var k := 0;
              while k < win.d.size
                invariant 0 <= k <= win.d.size
                invariant acc == dst + SumC(Dot, in1, in2, n, win, c) + SumI(Dot, in1, in2, n, win, c, i)
                                 + SumJ(Dot, in1, in2, n, win, c, i, j) + SumK(Dot, in1, in2, n, win, c, i, j, k)
              {
                var k1 := win.d.Pos1(k);
                var k2 := win.d.Pos2(k);
                if WithinBounds(k1, k2, iD, iD) {
                  var v1 := in1.Get(n, c, i1, j1, k1);
                  var v2 := in2.Get(n, c, i2, j2, k2);
                  acc := acc + v1 * v2;
                }
                k := k + 1;
              }
            }
            j := j + 1;
          }
        }
        i := i + 1;
      }
      c := c + 1;
    }
  }

  /** correlate_patch_grad_3D: for every tap whose six coordinates are in range,
      gradInput2[n][c][p2] += g * input1[n][c][p1] and
      gradInput1[n][c][p1] += g * input2[n][c][p2]. Element `t` of batch n thus
      grows by WindowSum(Scatter(g, t)); other batch elements are untouched.
      The loop over channels is here; each deeper loop is a method of its own. */
  method CorrelatePatchGrad(in1: Volume, g1: array5<real>, in2: Volume, g2: array5<real>,
    n: int, gradOutput: real, win: Window)
    requires Inputs(in1, in2) && 0 <= n < in1.batch
    requires Shaped(g1, in1) && Shaped(g2, in2) && g1 != g2
    modifies g1, g2
    ensures forall c', x, y, z :: InBuffer(g1, n, c', x, y, z) ==>
      g1[n, c', x, y, z] == old(g1[n, c', x, y, z])
                             + WindowSum(Scatter(gradOutput, Target(First, c', x, y, z)), in1, in2, n, win)
    ensures forall c', x, y, z :: InBuffer(g2, n, c', x, y, z) ==>
      g2[n, c', x, y, z] == old(g2[n, c', x, y, z])
                             + WindowSum(Scatter(gradOutput, Target(Second, c', x, y, z)), in1, in2, n, win)
    ensures forall m, c', x, y, z :: InBuffer(g1, m, c', x, y, z) && m != n ==> g1[m, c', x, y, z] == old(g1[m, c', x, y, z])
    ensures forall m, c', x, y, z :: InBuffer(g2, m, c', x, y, z) && m != n ==> g2[m, c', x, y, z] == old(g2[m, c', x, y, z])
  {
    var c := 0;
    while c < in1.channels
      invariant 0 <= c <= in1.channels
      invariant forall c', x, y, z :: InBuffer(g1, n, c', x, y, z) ==>
        g1[n, c', x, y, z] == old(g1[n, c', x, y, z])
          + SumC(Scatter(gradOutput, Target(First, c', x, y, z)), in1, in2, n, win, c)
      invariant forall c', x, y, z :: InBuffer(g2, n, c', x, y, z) ==>
        g2[n, c', x, y, z] == old(g2[n, c', x, y, z])
          + SumC(Scatter(gradOutput, Target(Second, c', x, y, z)), in1, in2, n, win, c)
      invariant forall m, c', x, y, z :: InBuffer(g1, m, c', x, y, z) && m != n ==> g1[m, c', x, y, z] == old(g1[m, c', x, y, z])
      invariant forall m, c', x, y, z :: InBuffer(g2, m, c', x, y, z) && m != n ==> g2[m, c', x, y, z] == old(g2[m, c', x, y, z])
    {
      GradChannel(in1, g1, in2, g2, n, gradOutput, win, c);
      c := c + 1;
    }
  }

  /** The loop over the height taps i of channel c. */
  method GradChannel(in1: Volume, g1: array5<real>, in2: Volume, g2: array5<real>,
    n: int, gradOutput: real, win: Window, c: int)
    requires Inputs(in1, in2) && 0 <= n < in1.batch && 0 <= c < in1.channels
    requires Shaped(g1, in1) && Shaped(g2, in2) && g1 != g2
    modifies g1, g2
    ensures forall c', x, y, z :: InBuffer(g1, n, c', x, y, z) ==>
      g1[n, c', x, y, z] == old(g1[n, c', x, y, z])
                             + SumI(Scatter(gradOutput, Target(First, c', x, y, z)), in1, in2, n, win, c, win.h.size)
    ensures forall c', x, y, z :: InBuffer(g2, n, c', x, y, z) ==>
      g2[n, c', x, y, z] == old(g2[n, c', x, y, z])
                             + SumI(Scatter(gradOutput, Target(Second, c', x, y, z)), in1, in2, n, win, c, win.h.size)
    ensures forall m, c', x, y, z :: InBuffer(g1, m, c', x, y, z) && m != n ==> g1[m, c', x, y, z] == old(g1[m, c', x, y, z])
    ensures forall m, c', x, y, z :: InBuffer(g2, m, c', x, y, z) && m != n ==> g2[m, c', x, y, z] == old(g2[m, c', x, y, z])
  {
    var i := 0;
    while i < win.h.size
      invariant 0 <= i <= win.h.size
      invariant forall c', x, y, z :: InBuffer(g1, n, c', x, y, z) ==>
        g1[n, c', x, y, z] == old(g1[n, c', x, y, z])
          + SumI(Scatter(gradOutput, Target(First, c', x, y, z)), in1, in2, n, win, c, i)
      invariant forall c', x, y, z :: InBuffer(g2, n, c', x, y, z) ==>
        g2[n, c', x, y, z] == old(g2[n, c', x, y, z])
          + SumI(Scatter(gradOutput, Target(Second, c', x, y, z)), in1, in2, n, win, c, i)
      invariant forall m, c', x, y, z :: InBuffer(g1, m, c', x, y, z) && m != n ==> g1[m, c', x, y, z] == old(g1[m, c', x, y, z])
      invariant forall m, c', x, y, z :: InBuffer(g2, m, c', x, y, z) && m != n ==> g2[m, c', x, y, z] == old(g2[m, c', x, y, z])
    {
      if WithinBounds(win.h.Pos1(i), win.h.Pos2(i), in1.height, in1.height) {
        GradTapRow(in1, g1, in2, g2, n, gradOutput, win, c, i);
      }
      i := i + 1;
    }
  }

  /** The loop over the width taps j of in-bounds height tap i. */
  method GradTapRow(in1: Volume, g1: array5<real>, in2: Volume, g2: array5<real>,
    n: int, gradOutput: real, win: Window, c: int, i: int)
    requires Inputs(in1, in2) && 0 <= n < in1.batch && 0 <= c < in1.channels
    requires WithinBounds(win.h.Pos1(i), win.h.Pos2(i), in1.height, in1.height)
    requires Shaped(g1, in1) && Shaped(g2, in2) && g1 != g2
    modifies g1, g2
    ensures forall c', x, y, z :: InBuffer(g1, n, c', x, y, z) ==>
      g1[n, c', x, y, z] == old(g1[n, c', x, y, z])
                             + SumJ(Scatter(gradOutput, Target(First, c', x, y, z)), in1, in2, n, win, c, i, win.w.size)
    ensures forall c', x, y, z :: InBuffer(g2, n, c', x, y, z) ==>
      g2[n, c', x, y, z] == old(g2[n, c', x, y, z])
                             + SumJ(Scatter(gradOutput, Target(Second, c', x, y, z)), in1, in2, n, win, c, i, win.w.size)
    ensures forall m, c', x, y, z :: InBuffer(g1, m, c', x, y, z) && m != n ==> g1[m, c', x, y, z] == old(g1[m, c', x, y, z])
    ensures forall m, c', x, y, z :: InBuffer(g2, m, c', x, y, z) && m != n ==> g2[m, c', x, y, z] == old(g2[m, c', x, y, z])
  {
    var j := 0;
    while j < win.w.size
      invariant 0 <= j <= win.w.size
      invariant forall c', x, y, z :: InBuffer(g1, n, c', x, y, z) ==>
        g1[n, c', x, y, z] == old(g1[n, c', x, y, z])
          + SumJ(Scatter(gradOutput, Target(First, c', x, y, z)), in1, in2, n, win, c, i, j)
      invariant forall c', x, y, z :: InBuffer(g2, n, c', x, y, z) ==>
        g2[n, c', x, y, z] == old(g2[n, c', x, y, z])
          + SumJ(Scatter(gradOutput, Target(Second, c', x, y, z)), in1, in2, n, win, c, i, j)
      invariant forall m, c', x, y, z :: InBuffer(g1, m, c', x, y, z) && m != n ==> g1[m, c', x, y, z] == old(g1[m, c', x, y, z])
      invariant forall m, c', x, y, z :: InBuffer(g2, m, c', x, y, z) && m != n ==> g2[m, c', x, y, z] == old(g2[m, c', x, y, z])
    {
      if WithinBounds(win.w.Pos1(j), win.w.Pos2(j), in1.width, in1.width) {
        GradTapColumn(in1, g1, in2, g2, n, gradOutput, win, c, i, j);
      }
      j := j + 1;
    }
  }

  /** The loop over the depth taps k of in-bounds taps i and j. */
  method GradTapColumn(in1: Volume, g1: array5<real>, in2: Volume, g2: array5<real>,
    n: int, gradOutput: real, win: Window, c: int, i: int, j: int)
    requires Inputs(in1, in2) && 0 <= n < in1.batch && 0 <= c < in1.channels
    requires WithinBounds(win.h.Pos1(i), win.h.Pos2(i), in1.height, in1.height)
    requires WithinBounds(win.w.Pos1(j), win.w.Pos2(j), in1.width, in1.width)
    requires Shaped(g1, in1) && Shaped(g2, in2) && g1 != g2
    modifies g1, g2
    ensures forall c', x, y, z :: InBuffer(g1, n, c', x, y, z) ==>
      g1[n, c', x, y, z] == old(g1[n, c', x, y, z])
                             + SumK(Scatter(gradOutput, Target(First, c', x, y, z)), in1, in2, n, win, c, i, j, win.d.size)
    ensures forall c', x, y, z :: InBuffer(g2, n, c', x, y, z) ==>
      g2[n, c', x, y, z] == old(g2[n, c', x, y, z])
                             + SumK(Scatter(gradOutput, Target(Second, c', x, y, z)), in1, in2, n, win, c, i, j, win.d.size)
    ensures forall m, c', x, y, z :: InBuffer(g1, m, c', x, y, z) && m != n ==> g1[m, c', x, y, z] == old(g1[m, c', x, y, z])
    ensures forall m, c', x, y, z :: InBuffer(g2, m, c', x, y, z) && m != n ==> g2[m, c', x, y, z] == old(g2[m, c', x, y, z])
  {
    var k := 0;
    while k < win.d.size
      invariant 0 <= k <= win.d.size
      invariant forall c', x, y, z :: InBuffer(g1, n, c', x, y, z) ==>
        g1[n, c', x, y, z] == old(g1[n, c', x, y, z])
          + SumK(Scatter(gradOutput, Target(First, c', x, y, z)), in1, in2, n, win, c, i, j, k)
      invariant forall c', x, y, z :: InBuffer(g2, n, c', x, y, z) ==>
        g2[n, c', x, y, z] == old(g2[n, c', x, y, z])
          + SumK(Scatter(gradOutput, Target(Second, c', x, y, z)), in1, in2, n, win, c, i, j, k)
      invariant forall m, c', x, y, z :: InBuffer(g1, m, c', x, y, z) && m != n ==> g1[m, c', x, y, z] == old(g1[m, c', x, y, z])
      invariant forall m, c', x, y, z :: InBuffer(g2, m, c', x, y, z) && m != n ==> g2[m, c', x, y, z] == old(g2[m, c', x, y, z])
    {
      if WithinBounds(win.d.Pos1(k), win.d.Pos2(k), in1.depth, in1.depth) {
        ScatterTap(in1, g1, in2, g2, n, gradOutput, win, c, i, j, k);
      }
      k := k + 1;
    }
  }

  /** The two scatter-adds of one in-bounds tap (i, j, k) of channel c:
      gradInput2[n][c][p2] += g * input1[n][c][p1], then
      gradInput1[n][c][p1] += g * input2[n][c][p2]. Every element `t` of batch n
      grows by the tap's Scatter(g, t) summand; nothing else changes. */
  method ScatterTap(in1: Volume, g1: array5<real>, in2: Volume, g2: array5<real>,
                    n: int, gradOutput: real, win: Window, c: int, i: int, j: int, k: int)
    requires Inputs(in1, in2) && 0 <= n < in1.batch && 0 <= c < in1.channels
    requires Shaped(g1, in1) && Shaped(g2, in2) && g1 != g2
    requires WithinBounds(win.h.Pos1(i), win.h.Pos2(i), in1.height, in1.height)
    requires WithinBounds(win.w.Pos1(j), win.w.Pos2(j), in1.width, in1.width)
    requires WithinBounds(win.d.Pos1(k), win.d.Pos2(k), in1.depth, in1.depth)
    modifies g1, g2
    ensures forall c', x, y, z :: InBuffer(g1, n, c', x, y, z) ==>
      g1[n, c', x, y, z] == old(g1[n, c', x, y, z])
                            + Term(Scatter(gradOutput, Target(First, c', x, y, z)), in1, in2, n, win, c, i, j, k)
    ensures forall c', x, y, z :: InBuffer(g2, n, c', x, y, z) ==>
      g2[n, c', x, y, z] == old(g2[n, c', x, y, z])
                            + Term(Scatter(gradOutput, Target(Second, c', x, y, z)), in1, in2, n, win, c, i, j, k)
    ensures forall m, c', x, y, z :: InBuffer(g1, m, c', x, y, z) && m != n ==> g1[m, c', x, y, z] == old(g1[m, c', x, y, z])
    ensures forall m, c', x, y, z :: InBuffer(g2, m, c', x, y, z) && m != n ==> g2[m, c', x, y, z] == old(g2[m, c', x, y, z])
  {
    var i1, j1, k1 := win.h.Pos1(i), win.w.Pos1(j), win.d.Pos1(k);
    var i2, j2, k2 := win.h.Pos2(i), win.w.Pos2(j), win.d.Pos2(k);
    var v1 := in1.Get(n, c, i1, j1, k1);
    var v2 := in2.Get(n, c, i2, j2, k2);
    g2[n, c, i2, j2, k2] := g2[n, c, i2, j2, k2] + gradOutput * v1;
    g1[n, c, i1, j1, k1] := g1[n, c, i1, j1, k1] + gradOutput * v2;
  }
}
