/**
 Transposed convolution by overlap-add. Input sample t contributes the kernel, scaled, at raw
 positions t * stride, t * stride + 1, ...; the module trims left_pad and right_pad raw samples.
 */
module TransposedConv {
  import opened Signals

  datatype TConv = TConv(w: seq<real>, stride: nat, bias: real, leftPad: nat, rightPad: nat)

  /** Kernel at least the stride, and no more trimmed on the right than one kernel. */
  ghost predicate ValidTConv(c: TConv) {
    1 <= c.stride <= |c.w| && c.rightPad <= |c.w|
  }

  /** What one input sample puts at distance j from its own raw position. */
  function Tap(w: seq<real>, v: real, j: int): real {
    if 0 <= j < |w| then w[j] * v else 0.0
  }

  /** Raw output position i: every input's contribution. */
  function RawAt(c: TConv, x: Signal, i: int): real {
    if x == [] then 0.0
    else RawAt(c, x[..|x| - 1], i) + Tap(c.w, x[|x| - 1], i - (|x| - 1) * c.stride)
  }

  function RawLen(c: TConv, n: nat): nat {
    if n == 0 then 0 else (n - 1) * c.stride + |c.w|
  }

  /** F.conv_transpose1d without bias. */
  function RawOf(c: TConv, x: Signal): (r: Signal)
    ensures |r| == RawLen(c, |x|)
  {
    seq(RawLen(c, |x|), i => RawAt(c, x, i))
  }

  /** The module on a whole signal: raw plus bias, trimmed on both sides. */
  ghost function FullTConv(c: TConv, x: Signal): Signal {
    var n := RawLen(c, |x|) - c.rightPad - c.leftPad;
    Emitted(c, x, if n > 0 then n else 0)
  }

  /** The first n trimmed output samples. */
  ghost function Emitted(c: TConv, x: Signal, n: nat): (y: Signal)
    ensures |y| == n
  {
    seq(n, i => RawAt(c, x, c.leftPad + i) + c.bias)
  }

  /** Later inputs add only at and after their own raw position. */
  lemma {:induction false} RawSplit(c: TConv, h: Signal, part: Signal, i: int)
    ensures RawAt(c, h + part, i) == RawAt(c, h, i) + RawAt(c, part, i - |h| * c.stride)
    decreases |part|
  {
    if part == [] {
      assert h + part == h;
    } else {
      var front := part[..|part| - 1];
      RawSplit(c, h, front, i);
      var all := h + part;
      assert all[..|all| - 1] == h + front;
      assert all[|all| - 1] == part[|part| - 1];
      assert i - (|all| - 1) * c.stride == (i - |h| * c.stride) - (|part| - 1) * c.stride by {
        assert (|h| + (|part| - 1)) * c.stride == |h| * c.stride + (|part| - 1) * c.stride;
      }
    }
  }

  /** Nothing is written before the first raw position or past the last kernel. */
  lemma {:induction false} RawOutside(c: TConv, x: Signal, i: int)
    requires c.stride >= 1
    requires i < 0 || i >= RawLen(c, |x|)
    ensures RawAt(c, x, i) == 0.0
    decreases |x|
  {
    if x != [] {
      var front := x[..|x| - 1];
      assert (|x| - 1) * c.stride >= 0;
      if front != [] {
        assert (|x| - 1) * c.stride == (|front| - 1) * c.stride + c.stride;
      }
      RawOutside(c, front, i);
    }
  }

  /** Raw positions before h's end are final: no later chunk changes them. */
  lemma Stable(c: TConv, h: Signal, part: Signal, i: int)
    requires c.stride >= 1 && i < |h| * c.stride
    ensures RawAt(c, h + part, i) == RawAt(c, h, i)
  {
    RawSplit(c, h, part, i);
    RawOutside(c, part, i - |h| * c.stride);
  }

  lemma EmittedStable(c: TConv, h: Signal, part: Signal, n: nat)
    requires c.stride >= 1 && (n == 0 || c.leftPad + n <= |h| * c.stride)
    ensures Emitted(c, h + part, n) == Emitted(c, h, n)
  {
    forall i | 0 <= i < n ensures Emitted(c, h + part, n)[i] == Emitted(c, h, n)[i] {
      Stable(c, h, part, c.leftPad + i);
    }
  }

  lemma RawLenGrows(c: TConv, n: nat, m: nat)
    requires 1 <= c.stride <= |c.w|
    ensures n <= m ==> RawLen(c, n) <= RawLen(c, m)
    ensures n > 0 ==> n * c.stride <= RawLen(c, n) == n * c.stride + (|c.w| - c.stride)
    ensures m > 0 ==> RawLen(c, n + m) == n * c.stride + RawLen(c, m)
  {
    if 0 < n <= m {
      assert (n - 1) * c.stride <= (m - 1) * c.stride;
    }
    if n > 0 {
      assert n * c.stride == (n - 1) * c.stride + c.stride;
    }
    if m > 0 {
      assert (n + m - 1) * c.stride == n * c.stride + (m - 1) * c.stride;
    }
  }
}
