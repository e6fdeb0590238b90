/**
 * Properties of the window sums that the two kernels compute.
 *
 *  - The sums are additive in their summand (`WindowSumSplits`): from which
 *    the backward kernel is additive in the incoming gradient, reaches only
 *    the window's taps, and computes exactly how the forward kernel changes
 *    when one input element changes.
 *  - Bounds tests skip taps; they never clamp (`WindowSumIsPaddedSum`): the
 *    forward sum equals the sum over every tap of the zero-padded inputs.
 */
module WindowLemmas {
  import opened CorrelationGeometry
  import opened WindowSums

  /** A probe applied to a pair of inputs. */
  datatype Summand = Summand(p: Probe, in1: Volume, in2: Volume)

  /** Same channel count and spatial extent (the window's bounds tests read only these). */
  predicate SameGrid(a: Volume, b: Volume)
  {
    a.channels == b.channels && a.height == b.height && a.width == b.width && a.depth == b.depth
  }

  /** At every counted tap of the window, summand `a` is summand `b` plus summand `e`. */
  ghost predicate Splits(a: Summand, b: Summand, e: Summand, n: int, win: Window)
  {
    && Inputs(a.in1, a.in2) && Inputs(b.in1, b.in2) && Inputs(e.in1, e.in2)
    && 0 <= n < a.in1.batch && n < b.in1.batch && n < e.in1.batch
    && SameGrid(a.in1, b.in1) && SameGrid(a.in1, e.in1)
    && forall c, i, j, k :: Counted(a.in1, win, c, i, j, k) ==>
         Term(a.p, a.in1, a.in2, n, win, c, i, j, k)
         == Term(b.p, b.in1, b.in2, n, win, c, i, j, k) + Term(e.p, e.in1, e.in2, n, win, c, i, j, k)
  }

  lemma {:induction false} SumKSplits(a: Summand, b: Summand, e: Summand, n: int, win: Window,
                                      c: int, i: int, j: int, k: nat)
    requires Splits(a, b, e, n, win)
    requires 0 <= c < a.in1.channels && 0 <= i < win.h.size && 0 <= j < win.w.size && k <= win.d.size
    requires WithinBounds(win.h.Pos1(i), win.h.Pos2(i), a.in1.height, a.in1.height)
    requires WithinBounds(win.w.Pos1(j), win.w.Pos2(j), a.in1.width, a.in1.width)
    ensures SumK(a.p, a.in1, a.in2, n, win, c, i, j, k)
            == SumK(b.p, b.in1, b.in2, n, win, c, i, j, k) + SumK(e.p, e.in1, e.in2, n, win, c, i, j, k)
  {
    if k > 0 {
      SumKSplits(a, b, e, n, win, c, i, j, k - 1);
      if WithinBounds(win.d.Pos1(k - 1), win.d.Pos2(k - 1), a.in1.depth, a.in1.depth) {
        assert Counted(a.in1, win, c, i, j, k - 1);
      }
    }
  }

  lemma {:induction false} SumJSplits(a: Summand, b: Summand, e: Summand, n: int, win: Window,
                                      c: int, i: int, j: nat)
    requires Splits(a, b, e, n, win)
    requires 0 <= c < a.in1.channels && 0 <= i < win.h.size && j <= win.w.size
    requires WithinBounds(win.h.Pos1(i), win.h.Pos2(i), a.in1.height, a.in1.height)
    ensures SumJ(a.p, a.in1, a.in2, n, win, c, i, j)
            == SumJ(b.p, b.in1, b.in2, n, win, c, i, j) + SumJ(e.p, e.in1, e.in2, n, win, c, i, j)
  {
    if j > 0 {
      SumJSplits(a, b, e, n, win, c, i, j - 1);
      if WithinBounds(win.w.Pos1(j - 1), win.w.Pos2(j - 1), a.in1.width, a.in1.width) {
        SumKSplits(a, b, e, n, win, c, i, j - 1, win.d.size);
      }
    }
  }

  lemma {:induction false} SumISplits(a: Summand, b: Summand, e: Summand, n: int, win: Window, c: int, i: nat)
    requires Splits(a, b, e, n, win)
    requires 0 <= c < a.in1.channels && i <= win.h.size
    ensures SumI(a.p, a.in1, a.in2, n, win, c, i)
            == SumI(b.p, b.in1, b.in2, n, win, c, i) + SumI(e.p, e.in1, e.in2, n, win, c, i)
  {
    if i > 0 {
      SumISplits(a, b, e, n, win, c, i - 1);
      if WithinBounds(win.h.Pos1(i - 1), win.h.Pos2(i - 1), a.in1.height, a.in1.height) {
        SumJSplits(a, b, e, n, win, c, i - 1, win.w.size);
      }
    }
  }

  lemma {:induction false} SumCSplits(a: Summand, b: Summand, e: Summand, n: int, win: Window, c: nat)
    requires Splits(a, b, e, n, win)
    requires c <= a.in1.channels
    ensures SumC(a.p, a.in1, a.in2, n, win, c)
            == SumC(b.p, b.in1, b.in2, n, win, c) + SumC(e.p, e.in1, e.in2, n, win, c)
  {
    if c > 0 {
      SumCSplits(a, b, e, n, win, c - 1);
      SumISplits(a, b, e, n, win, c - 1, win.h.size);
    }
  }

  /** A split of the summand at every counted tap is a split of the window sums. */
  lemma WindowSumSplits(a: Summand, b: Summand, e: Summand, n: int, win: Window)
    requires Splits(a, b, e, n, win)
    ensures WindowSum(a.p, a.in1, a.in2, n, win)
            == WindowSum(b.p, b.in1, b.in2, n, win) + WindowSum(e.p, e.in1, e.in2, n, win)
  {
    SumCSplits(a, b, e, n, win, a.in1.channels);
  }

  /** The backward kernel's effect is additive in the incoming gradient value:
      two calls with g and g' add what one call with g + g' adds. */
  lemma ScatterAdditive(in1: Volume, in2: Volume, n: int, win: Window, g: real, g': real, t: Target)
    requires Inputs(in1, in2) && 0 <= n < in1.batch
    ensures WindowSum(Scatter(g + g', t), in1, in2, n, win)
            == WindowSum(Scatter(g, t), in1, in2, n, win) + WindowSum(Scatter(g', t), in1, in2, n, win)
  {
    var a, b, e := Summand(Scatter(g + g', t), in1, in2), Summand(Scatter(g, t), in1, in2), Summand(Scatter(g', t), in1, in2);
    forall c, i, j, k | Counted(in1, win, c, i, j, k)
      ensures Term(a.p, in1, in2, n, win, c, i, j, k) == Term(b.p, in1, in2, n, win, c, i, j, k) + Term(e.p, in1, in2, n, win, c, i, j, k)
    {
      var v1 := in1.Get(n, c, win.h.Pos1(i), win.w.Pos1(j), win.d.Pos1(k));
      var v2 := in2.Get(n, c, win.h.Pos2(i), win.w.Pos2(j), win.d.Pos2(k));
      assert (g + g') * v1 == g * v1 + g' * v1;
      assert (g + g') * v2 == g * v2 + g' * v2;
    }
    WindowSumSplits(a, b, e, n, win);
  }

  /** Gradient element `t` is the input-1 (First) or input-2 (Second)
      coordinate of some counted tap of the window. */
  ghost predicate Reached(in1: Volume, win: Window, t: Target)
  {
    exists c, i, j, k :: Counted(in1, win, c, i, j, k) && t.c == c &&
      if t.side == First then t.x == win.h.Pos1(i) && t.y == win.w.Pos1(j) && t.z == win.d.Pos1(k)
      else t.x == win.h.Pos2(i) && t.y == win.w.Pos2(j) && t.z == win.d.Pos2(k)
  }

  /** The backward kernel adds nothing to an element its window does not reach. */
  lemma ScatterOnlyReachesWindow(in1: Volume, in2: Volume, n: int, win: Window, g: real, t: Target)
    requires Inputs(in1, in2) && 0 <= n < in1.batch && !Reached(in1, win, t)
    ensures WindowSum(Scatter(g, t), in1, in2, n, win) == 0.0
  {
    var a := Summand(Scatter(g, t), in1, in2);
    forall c, i, j, k | Counted(in1, win, c, i, j, k)
      ensures Term(a.p, in1, in2, n, win, c, i, j, k) == Term(a.p, in1, in2, n, win, c, i, j, k) + Term(a.p, in1, in2, n, win, c, i, j, k)
    {
    }
    WindowSumSplits(a, a, a, n, win);
  }

  /** A window with no taps along some axis (the kernel size there is not
      positive) sums to zero, whatever the probe: the forward kernel leaves
      `*dst` as it was and the backward kernel adds nothing. */
  lemma EmptyWindowIsZero(p: Probe, in1: Volume, in2: Volume, n: int, win: Window)
    requires Inputs(in1, in2) && 0 <= n < in1.batch
    requires win.h.size == 0 || win.w.size == 0 || win.d.size == 0
    ensures WindowSum(p, in1, in2, n, win) == 0.0
  {
    var a := Summand(p, in1, in2);
    assert forall c, i, j, k :: !Counted(in1, win, c, i, j, k);
    WindowSumSplits(a, a, a, n, win);
  }

  /** Input `v` with `delta` added to element [n][c][x][y][z]. */
  function Bump(v: Volume, n: int, c: int, x: int, y: int, z: int, delta: real): (r: Volume)
    requires v.Valid() && v.Contains(n, c, x, y, z)
    ensures r.Valid() && r.batch == v.batch && SameGrid(r, v)
    ensures forall n', c', x', y', z' :: v.Contains(n', c', x', y', z') ==>
      r.Get(n', c', x', y', z') == v.Get(n', c', x', y', z') + if (n', c', x', y', z') == (n, c, x, y, z) then delta else 0.0
  {
    var e := v.data[n][c][x][y][z] + delta;
    v.(data := v.data[n := v.data[n][c := v.data[n][c][x := v.data[n][c][x][y := v.data[n][c][x][y][z := e]]]]])
  }

  /** The backward kernel computes the forward kernel's change: adding `delta`
      to input-1 element [n][c][x][y][z] changes the forward window sum by
      exactly what the backward kernel, given incoming gradient `delta`, adds
      to that element. */
  lemma ScatterIsChangeInInput1(in1: Volume, in2: Volume, n: int, win: Window, c: int, x: int, y: int, z: int, delta: real)
    requires Inputs(in1, in2) && in1.Contains(n, c, x, y, z)
    ensures Inputs(Bump(in1, n, c, x, y, z, delta), in2)
    ensures WindowSum(Dot, Bump(in1, n, c, x, y, z, delta), in2, n, win)
            == WindowSum(Dot, in1, in2, n, win) + WindowSum(Scatter(delta, Target(First, c, x, y, z)), in1, in2, n, win)
  {
    var a := Summand(Dot, Bump(in1, n, c, x, y, z, delta), in2);
    var b := Summand(Dot, in1, in2);
    var e := Summand(Scatter(delta, Target(First, c, x, y, z)), in1, in2);
    forall c', i, j, k | Counted(a.in1, win, c', i, j, k)
      ensures Term(a.p, a.in1, a.in2, n, win, c', i, j, k)
              == Term(b.p, b.in1, b.in2, n, win, c', i, j, k) + Term(e.p, e.in1, e.in2, n, win, c', i, j, k)
    {
      var v1 := in1.Get(n, c', win.h.Pos1(i), win.w.Pos1(j), win.d.Pos1(k));
      var v2 := in2.Get(n, c', win.h.Pos2(i), win.w.Pos2(j), win.d.Pos2(k));
      assert (v1 + delta) * v2 == v1 * v2 + delta * v2;
    }
    WindowSumSplits(a, b, e, n, win);
  }

  /** The same for input 2. */
  lemma ScatterIsChangeInInput2(in1: Volume, in2: Volume, n: int, win: Window, c: int, x: int, y: int, z: int, delta: real)
    requires Inputs(in1, in2) && 0 <= n < in1.batch && in2.Contains(n, c, x, y, z)
    ensures Inputs(in1, Bump(in2, n, c, x, y, z, delta))
    ensures WindowSum(Dot, in1, Bump(in2, n, c, x, y, z, delta), n, win)
            == WindowSum(Dot, in1, in2, n, win) + WindowSum(Scatter(delta, Target(Second, c, x, y, z)), in1, in2, n, win)
  {
    var a := Summand(Dot, in1, Bump(in2, n, c, x, y, z, delta));
    var b := Summand(Dot, in1, in2);
    var e := Summand(Scatter(delta, Target(Second, c, x, y, z)), in1, in2);
    forall c', i, j, k | Counted(a.in1, win, c', i, j, k)
      ensures Term(a.p, a.in1, a.in2, n, win, c', i, j, k)
              == Term(b.p, b.in1, b.in2, n, win, c', i, j, k) + Term(e.p, e.in1, e.in2, n, win, c', i, j, k)
    {
      var v1 := in1.Get(n, c', win.h.Pos1(i), win.w.Pos1(j), win.d.Pos1(k));
      var v2 := in2.Get(n, c', win.h.Pos2(i), win.w.Pos2(j), win.d.Pos2(k));
      assert v1 * (v2 + delta) == v1 * v2 + delta * v1;
    }
    WindowSumSplits(a, b, e, n, win);
  }

  /** Tap (i, j, k) of channel c on the zero-padded inputs: each input is read
      as 0 wherever its coordinate leaves input 1's extent. */
  function PaddedTerm(in1: Volume, in2: Volume, n: int, win: Window, c: int, i: int, j: int, k: int): real
    requires Inputs(in1, in2) && 0 <= n < in1.batch && 0 <= c < in1.channels
  {
    var i1, j1, k1 := win.h.Pos1(i), win.w.Pos1(j), win.d.Pos1(k);
    var i2, j2, k2 := win.h.Pos2(i), win.w.Pos2(j), win.d.Pos2(k);
    (if in1.InExtent(i1, j1, k1) then in1.Get(n, c, i1, j1, k1) else 0.0)
    * (if in1.InExtent(i2, j2, k2) then in2.Get(n, c, i2, j2, k2) else 0.0)
  }

  /** Depth taps k' < k, every one of them, of the padded inputs. */
  function PaddedK(in1: Volume, in2: Volume, n: int, win: Window, c: int, i: int, j: int, k: nat): real
    requires Inputs(in1, in2) && 0 <= n < in1.batch && 0 <= c < in1.channels
  {
    if k == 0 then 0.0 else PaddedK(in1, in2, n, win, c, i, j, k - 1) + PaddedTerm(in1, in2, n, win, c, i, j, k - 1)
  }

  function PaddedJ(in1: Volume, in2: Volume, n: int, win: Window, c: int, i: int, j: nat): real
    requires Inputs(in1, in2) && 0 <= n < in1.batch && 0 <= c < in1.channels
  {
    if j == 0 then 0.0 else PaddedJ(in1, in2, n, win, c, i, j - 1) + PaddedK(in1, in2, n, win, c, i, j - 1, win.d.size)
  }

  function PaddedI(in1: Volume, in2: Volume, n: int, win: Window, c: int, i: nat): real
    requires Inputs(in1, in2) && 0 <= n < in1.batch && 0 <= c < in1.channels
  {
    if i == 0 then 0.0 else PaddedI(in1, in2, n, win, c, i - 1) + PaddedJ(in1, in2, n, win, c, i - 1, win.w.size)
  }

  function PaddedC(in1: Volume, in2: Volume, n: int, win: Window, c: nat): real
    requires Inputs(in1, in2) && 0 <= n < in1.batch && c <= in1.channels
  {
    if c == 0 then 0.0 else PaddedC(in1, in2, n, win, c - 1) + PaddedI(in1, in2, n, win, c - 1, win.h.size)
  }

  /** The correlation of the window over the zero-padded inputs: the sum over
      all channels and all kernel taps, with no bounds tests. */
  function PaddedWindowSum(in1: Volume, in2: Volume, n: int, win: Window): real
    requires Inputs(in1, in2) && 0 <= n < in1.batch
  {
    PaddedC(in1, in2, n, win, in1.channels)
  }

  /** Along a height or width tap whose coordinates leave the extent, every
      padded product is zero. */
  lemma {:induction false} PaddedKOutside(in1: Volume, in2: Volume, n: int, win: Window, c: int, i: int, j: int, k: nat)
    requires Inputs(in1, in2) && 0 <= n < in1.batch && 0 <= c < in1.channels
    requires !WithinBounds(win.h.Pos1(i), win.h.Pos2(i), in1.height, in1.height)
             || !WithinBounds(win.w.Pos1(j), win.w.Pos2(j), in1.width, in1.width)
    ensures PaddedK(in1, in2, n, win, c, i, j, k) == 0.0
  {
    if k > 0 {
      PaddedKOutside(in1, in2, n, win, c, i, j, k - 1);
    }
  }

  lemma {:induction false} PaddedJOutside(in1: Volume, in2: Volume, n: int, win: Window, c: int, i: int, j: nat)
    requires Inputs(in1, in2) && 0 <= n < in1.batch && 0 <= c < in1.channels
    requires !WithinBounds(win.h.Pos1(i), win.h.Pos2(i), in1.height, in1.height)
    ensures PaddedJ(in1, in2, n, win, c, i, j) == 0.0
  {
    if j > 0 {
      PaddedJOutside(in1, in2, n, win, c, i, j - 1);
      PaddedKOutside(in1, in2, n, win, c, i, j - 1, win.d.size);
    }
  }

  lemma {:induction false} PaddedKMatches(in1: Volume, in2: Volume, n: int, win: Window, c: int, i: int, j: int, k: nat)
    requires Inputs(in1, in2) && 0 <= n < in1.batch && 0 <= c < in1.channels
    requires WithinBounds(win.h.Pos1(i), win.h.Pos2(i), in1.height, in1.height)
    requires WithinBounds(win.w.Pos1(j), win.w.Pos2(j), in1.width, in1.width)
    ensures SumK(Dot, in1, in2, n, win, c, i, j, k) == PaddedK(in1, in2, n, win, c, i, j, k)
  {
    if k > 0 {
      PaddedKMatches(in1, in2, n, win, c, i, j, k - 1);
    }
  }

  lemma {:induction false} PaddedJMatches(in1: Volume, in2: Volume, n: int, win: Window, c: int, i: int, j: nat)
    requires Inputs(in1, in2) && 0 <= n < in1.batch && 0 <= c < in1.channels
    requires WithinBounds(win.h.Pos1(i), win.h.Pos2(i), in1.height, in1.height)
    ensures SumJ(Dot, in1, in2, n, win, c, i, j) == PaddedJ(in1, in2, n, win, c, i, j)
  {
    if j > 0 {
      PaddedJMatches(in1, in2, n, win, c, i, j - 1);
      if WithinBounds(win.w.Pos1(j - 1), win.w.Pos2(j - 1), in1.width, in1.width) {
        PaddedKMatches(in1, in2, n, win, c, i, j - 1, win.d.size);
      } else {
        PaddedKOutside(in1, in2, n, win, c, i, j - 1, win.d.size);
      }
    }
  }

  lemma {:induction false} PaddedIMatches(in1: Volume, in2: Volume, n: int, win: Window, c: int, i: nat)
    requires Inputs(in1, in2) && 0 <= n < in1.batch && 0 <= c < in1.channels
    ensures SumI(Dot, in1, in2, n, win, c, i) == PaddedI(in1, in2, n, win, c, i)
  {
    if i > 0 {
      PaddedIMatches(in1, in2, n, win, c, i - 1);
      if WithinBounds(win.h.Pos1(i - 1), win.h.Pos2(i - 1), in1.height, in1.height) {
        PaddedJMatches(in1, in2, n, win, c, i - 1, win.w.size);
      } else {
        PaddedJOutside(in1, in2, n, win, c, i - 1, win.w.size);
      }
    }
  }

  lemma {:induction false} PaddedCMatches(in1: Volume, in2: Volume, n: int, win: Window, c: nat)
    requires Inputs(in1, in2) && 0 <= n < in1.batch && c <= in1.channels
    ensures SumC(Dot, in1, in2, n, win, c) == PaddedC(in1, in2, n, win, c)
  {
    if c > 0 {
      PaddedCMatches(in1, in2, n, win, c - 1);
      PaddedIMatches(in1, in2, n, win, c - 1, win.h.size);
    }
  }

  /** Zero padding: skipping the taps that fail a bounds test gives the
      correlation of the inputs extended by zeros (never by clamped edge
      values) over the whole window. */
  lemma WindowSumIsPaddedSum(in1: Volume, in2: Volume, n: int, win: Window)
    requires Inputs(in1, in2) && 0 <= n < in1.batch
    ensures WindowSum(Dot, in1, in2, n, win) == PaddedWindowSum(in1, in2, n, win)
  {
    PaddedCMatches(in1, in2, n, win, in1.channels);
  }

  /** A window lying wholly in the padding along the height axis correlates to zero. */
  lemma WindowInPaddingIsZero(in1: Volume, in2: Volume, n: int, win: Window)
    requires Inputs(in1, in2) && 0 <= n < in1.batch
    requires forall i :: 0 <= i < win.h.size ==> !WithinBounds(win.h.Pos1(i), win.h.Pos2(i), in1.height, in1.height)
    ensures WindowSum(Dot, in1, in2, n, win) == 0.0
  {
    var a := Summand(Dot, in1, in2);
    WindowSumSplits(a, a, a, n, win);
  }

  /** The channel dot product sum over c' < c of input1[n][c'][x][y][z] * input2[n][c'][x][y][z]. */
  function ChannelDot(in1: Volume, in2: Volume, n: int, x: int, y: int, z: int, c: nat): real
    requires Inputs(in1, in2) && 0 <= n < in1.batch && in1.InExtent(x, y, z) && c <= in1.channels
  {
    if c == 0 then 0.0
    else ChannelDot(in1, in2, n, x, y, z, c - 1) + in1.Get(n, c - 1, x, y, z) * in2.Get(n, c - 1, x, y, z)
  }

  /** A one-tap window with no displacement at (x, y, z). */
  predicate SingleTap(win: Window, x: int, y: int, z: int)
  {
    && win.h.size == 1 && win.h.base == x && win.h.shift == 0
    && win.w.size == 1 && win.w.base == y && win.w.shift == 0
    && win.d.size == 1 && win.d.base == z && win.d.shift == 0
  }

  lemma {:induction false} SingleTapChannels(in1: Volume, in2: Volume, n: int, win: Window, x: int, y: int, z: int, c: nat)
    requires Inputs(in1, in2) && 0 <= n < in1.batch && in1.InExtent(x, y, z) && c <= in1.channels
    requires SingleTap(win, x, y, z)
    ensures SumC(Dot, in1, in2, n, win, c) == ChannelDot(in1, in2, n, x, y, z, c)
  {
    if c > 0 {
      SingleTapChannels(in1, in2, n, win, x, y, z, c - 1);
      assert SumK(Dot, in1, in2, n, win, c - 1, 0, 0, 1) == in1.Get(n, c - 1, x, y, z) * in2.Get(n, c - 1, x, y, z);
      assert SumJ(Dot, in1, in2, n, win, c - 1, 0, 1) == SumK(Dot, in1, in2, n, win, c - 1, 0, 0, 1);
      assert SumI(Dot, in1, in2, n, win, c - 1, 1) == SumJ(Dot, in1, in2, n, win, c - 1, 0, 1);
    }
  }

  /** A one-tap window without displacement correlates the channel vectors of
      the two inputs at one position. */
  lemma SingleTapIsChannelDot(in1: Volume, in2: Volume, n: int, win: Window, x: int, y: int, z: int)
    requires Inputs(in1, in2) && 0 <= n < in1.batch && in1.InExtent(x, y, z)
    requires SingleTap(win, x, y, z)
    ensures WindowSum(Dot, in1, in2, n, win) == ChannelDot(in1, in2, n, x, y, z, in1.channels)
  {
    SingleTapChannels(in1, in2, n, win, x, y, z, in1.channels);
  }
}
