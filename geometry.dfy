/**
 * Pure index arithmetic of the 3D correlation: output size per spatial axis,
 * patch radius, displacement shift and base coordinate of a window.
 *
 * All quantities are the source's C++ `int`s, modelled as unbounded `int`;
 * C++ integer division truncates toward zero, which `TruncDiv` makes explicit.
 */
module CorrelationGeometry {

  /** Geometry of one spatial axis, as the caller passes it (kH, patchH, padH,
      dilationH, dilation_patchH, dH for the height axis, and so on). */
  datatype Axis = Axis(kernel: int, patch: nat, pad: int, dilation: int, patchDilation: int, stride: int)

  /** The three spatial axes: height, width, depth. */
  datatype Geometry = Geometry(h: Axis, w: Axis, d: Axis)

  /** The taps of a kernel window along one axis: `size` taps spaced `dilation`
      apart starting at `base` in input 1, and the same taps moved by `shift`
      in input 2. */
  datatype AxisWindow = AxisWindow(size: nat, dilation: int, base: int, shift: int)
  {
    /** Coordinate in input 1 of tap `t` (i1 = u + i * dilationH). */
    function Pos1(t: int): int { base + t * dilation }

    /** Coordinate in input 2 of tap `t` (i2 = i1 + shiftU). */
    function Pos2(t: int): int { Pos1(t) + shift }
  }

  /** The argument list of one kernel call: a window per spatial axis. */
  datatype Window = Window(h: AxisWindow, w: AxisWindow, d: AxisWindow)

  function Abs(a: int): int { if a < 0 then -a else a }

  /** C++ `a / b` on integers: the quotient truncated toward zero. The
      remainder `a - q * b` has the sign of `a` and is smaller than `|b|`. */
  function TruncDiv(a: int, b: int): (q: int)
    requires b != 0
    ensures a >= 0 ==> 0 <= a - q * b < Abs(b)
    ensures a < 0 ==> -Abs(b) < a - q * b <= 0
  {
    if a >= 0 then
      if b > 0 then a / b else -(a / -b)
    else
      if b > 0 then -((-a) / b) else (-a) / (-b)
  }

  function DilatedKernel(a: Axis): int { (a.kernel - 1) * a.dilation + 1 }

  /** Number of output cells along an axis (oH = (iH + 2 * padH - dilatedKH) / dH + 1). */
  function OutSize(input: nat, a: Axis): int
    requires a.stride != 0
  {
    TruncDiv(input + 2 * a.pad - DilatedKernel(a), a.stride) + 1
  }

  /** Half-width of the displacement search range (patchRadH = (patchH - 1) / 2).
      Patch index `r` is the zero displacement; the range reaches `r` indices
      below it and `r` or `r + 1` above it. */
  function PatchRadius(patch: nat): (r: int)
    ensures patch >= 1 ==> 0 <= r <= patch - 1 - r <= r + 1
    ensures patch == 0 ==> r == 0
  {
    TruncDiv(patch - 1, 2)
  }

  /** Displacement of patch index `p` ((ph - patchRadH) * dilation_patchH). */
  function Shift(a: Axis, p: int): int { (p - PatchRadius(a.patch)) * a.patchDilation }

  /** First input-1 coordinate of the window of output index `o` (-padH + h * dH). */
  function Base(a: Axis, o: int): int { -a.pad + o * a.stride }

  /** The window of patch index `p` and output index `o`. The kernel's tap
      loop (`i < kH`) runs no times for a non-positive kernel size, so the
      window then has no taps. */
  function AlongAxis(a: Axis, p: int, o: int): AxisWindow
  {
    AxisWindow(if a.kernel < 0 then 0 else a.kernel, a.dilation, Base(a, o), Shift(a, p))
  }

  /** The kernel call made for cost-volume cell [n][ph][pw][pd][h][w][d] (any n). */
  function WindowAt(geo: Geometry, ph: int, pw: int, pd: int, h: int, w: int, d: int): Window
  {
    Window(AlongAxis(geo.h, ph, h), AlongAxis(geo.w, pw, w), AlongAxis(geo.d, pd, d))
  }

  /** For a positive stride, when the padded input holds at least one dilated
      kernel, output index `o >= 0` exists exactly when the last tap of its
      window lies inside the padded input [-pad, input - 1 + pad]. */
  lemma OutSizeCountsWindows(input: nat, a: Axis, o: int)
    requires a.stride > 0 && 0 <= o
    requires input + 2 * a.pad >= DilatedKernel(a)
    ensures OutSize(input, a) >= 1
    ensures o < OutSize(input, a) <==> Base(a, o) + DilatedKernel(a) - 1 <= input - 1 + a.pad
  {
    var m, s := input + 2 * a.pad - DilatedKernel(a), a.stride;
    var q := m / s;
    assert TruncDiv(m, s) == q;
    assert q * s <= m < q * s + s;
    if o <= q {
      MulMonotone(o, q, s);
    } else {
      MulMonotone(q + 1, o, s);
    }
  }

  lemma MulMonotone(x: int, y: int, s: nat)
    requires x <= y
    ensures x * s <= y * s
  {
    assert y * s - x * s == (y - x) * s;
  }

  /** When the padded input is shorter than one dilated kernel, the source's
      truncating division still yields one output cell as long as the shortfall
      is less than the stride, although that cell's window overruns the padded
      input; a floor division (the conventional formula) would yield one cell
      fewer whenever the stride does not divide the shortfall. A shortfall of a
      whole stride or more yields no cell. */
  lemma OutSizeTruncatesTowardZero(input: nat, a: Axis)
    requires a.stride > 0 && input + 2 * a.pad < DilatedKernel(a)
    ensures var m := input + 2 * a.pad - DilatedKernel(a);
      && (-a.stride < m ==> OutSize(input, a) == 1 && Base(a, 0) + DilatedKernel(a) - 1 > input - 1 + a.pad)
      && (m <= -a.stride ==> OutSize(input, a) <= 0)
      && (m % a.stride != 0 ==> OutSize(input, a) == m / a.stride + 2)
  {
    var m, s := input + 2 * a.pad - DilatedKernel(a), a.stride;
    var t := TruncDiv(m, s);
    if -s < m {
      SameTruncQuotient(m, s, t, 0);
    } else if t >= 0 {
      MulMonotone(0, t, s);
    }
    if m % s != 0 {
      assert m == (m / s) * s + m % s;
      SameTruncQuotient(m, s, t, m / s + 1);
    }
  }

  /** Two quotients that both leave a remainder in (-s, 0] for a negative
      dividend are equal. */
  lemma SameTruncQuotient(m: int, s: int, t: int, t': int)
    requires s > 0 && -s < m - t * s <= 0 && -s < m - t' * s <= 0
    ensures t == t'
  {
    var k := t' - t;
    assert k * s == (m - t * s) - (m - t' * s);
    if k >= 1 {
      MulMonotone(1, k, s);
    } else if k <= -1 {
      MulMonotone(k, -1, s);
    }
  }

  /** For an odd patch size the displacements are symmetric about zero. */
  lemma ShiftsSymmetric(a: Axis, p: int)
    requires a.patch % 2 == 1 && 0 <= p < a.patch
    ensures Shift(a, a.patch - 1 - p) == -Shift(a, p)
  {
    var r := PatchRadius(a.patch);
    assert r + r == a.patch - 1;
    assert a.patch - 1 - p - r == -(p - r);
  }

  /** Geometry with patch 1, kernel 1, no padding and stride 1. */
  predicate Degenerate(a: Axis)
  {
    a.kernel == 1 && a.patch == 1 && a.pad == 0 && a.stride == 1
  }

  /** With degenerate geometry the output is as large as the input along the
      axis, and the one window of output index `o` is the single tap `o` with
      no displacement. */
  lemma DegenerateAxis(input: nat, a: Axis, o: int)
    requires Degenerate(a)
    ensures OutSize(input, a) == input
    ensures AlongAxis(a, 0, o) == AxisWindow(1, a.dilation, o, 0)
  {
  }
}
