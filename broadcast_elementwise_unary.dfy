/**
 * The shape checks and the n-d index <-> flat offset calculators of the
 * broadcast elementwise unary primitive.
 *
 * The template parameter N (the capacity of the fixed-size arrays) is the
 * constant field N of each calculator. int64 overflow is not modelled:
 * integers are unbounded. A FastIntegerMath<T>(d) helper is modelled by its
 * divisor d; its `divides` is C++ integer division and its `mul` is `*`.
 */
module BroadcastElementwiseUnary {
  import opened IntArith

  /** Largest number of dimensions the primitive supports (kMaxNumDims). */
  const MaxNumDims: nat := 8

  /** A buffer address; only compared for aliasing. */
  type Addr = nat

  // ---------------------------------------------------------------------
  // Shape checks
  // ---------------------------------------------------------------------

  /**
   * What CheckInplace enforces: a source that is the destination buffer has
   * the destination's first numDims dims; a source that is not is free.
   */
  predicate InplaceCompatible(numDims: nat, src0Dims: seq<int>, src0: Addr,
                              src1Dims: seq<int>, src1: Addr, dstDims: seq<int>, dst: Addr)
    requires src0 == dst ==> numDims <= |src0Dims| && numDims <= |dstDims|
    requires src1 == dst ==> numDims <= |src1Dims| && numDims <= |dstDims|
  {
    && (src0 == dst ==> forall i :: 0 <= i < numDims ==> src0Dims[i] == dstDims[i])
    && (src1 == dst ==> forall i :: 0 <= i < numDims ==> src1Dims[i] == dstDims[i])
  }

  /**
   * CheckInplace. A failing CHECK_EQ aborts the process; here it is the
   * result false. Only the dims of an aliased source are read.
   */
  method CheckInplace(numDims: nat, src0Dims: seq<int>, src0: Addr,
                      src1Dims: seq<int>, src1: Addr, dstDims: seq<int>, dst: Addr)
    returns (ok: bool)
    requires src0 == dst ==> numDims <= |src0Dims| && numDims <= |dstDims|
    requires src1 == dst ==> numDims <= |src1Dims| && numDims <= |dstDims|
    ensures ok <==> InplaceCompatible(numDims, src0Dims, src0, src1Dims, src1, dstDims, dst)
    ensures src0 != dst && src1 != dst ==> ok
  {
    var i := 0;
    while i < numDims
      invariant 0 <= i <= numDims
      invariant src0 == dst ==> forall k :: 0 <= k < i ==> src0Dims[k] == dstDims[k]
      invariant src1 == dst ==> forall k :: 0 <= k < i ==> src1Dims[k] == dstDims[k]
    {
      if src0 == dst && src0Dims[i] != dstDims[i] {
        return false;
      }
      if src1 == dst && src1Dims[i] != dstDims[i] {
        return false;
      }
      i := i + 1;
    }
    return true;
  }

  /** IsDimsEquals: same number of dims and the same dims, entry by entry. */
  method IsDimsEquals(numSrc0Dims: nat, src0Dims: seq<int>, numSrc1Dims: nat, src1Dims: seq<int>)
    returns (equal: bool)
    requires numSrc0Dims <= |src0Dims| && numSrc1Dims <= |src1Dims|
    ensures equal <==> numSrc0Dims == numSrc1Dims
                       && forall i :: 0 <= i < numSrc1Dims ==> src0Dims[i] == src1Dims[i]
    ensures equal <==> src0Dims[..numSrc0Dims] == src1Dims[..numSrc1Dims]
  {
    if numSrc0Dims != numSrc1Dims {
      return false;
    }
    var i := 0;
    while i < numSrc1Dims
      invariant 0 <= i <= numSrc1Dims
      invariant forall k :: 0 <= k < i ==> src0Dims[k] == src1Dims[k]
    {
      if src0Dims[i] != src1Dims[i] {
        assert src0Dims[..numSrc0Dims][i] != src1Dims[..numSrc1Dims][i];
        return false;
      }
      i := i + 1;
    }
    assert src0Dims[..numSrc0Dims] == src1Dims[..numSrc1Dims];
    return true;
  }

  // ---------------------------------------------------------------------
  // Specification functions
  // ---------------------------------------------------------------------

  /** The weighted sum index[0]*stride[0] + ... + index[n-1]*stride[n-1]. */
  function Dot(index: seq<int>, stride: seq<int>, n: nat): int
    requires n <= |index| && n <= |stride|
  {
    if n == 0 then 0 else Dot(index, stride, n - 1) + index[n - 1] * stride[n - 1]
  }

  /** Row-major contiguous strides of a shape: axis k steps over the product of the later dims. */
  function RowMajorStrides(dims: seq<int>): (strides: seq<int>)
    ensures |strides| == |dims|
    ensures (forall k :: 0 <= k < |dims| ==> dims[k] > 0) ==>
              forall k :: 0 <= k < |strides| ==> strides[k] > 0
  {
    var strides := seq(|dims|, k requires 0 <= k < |dims| => Product(dims[k + 1..]));
    assert (forall k :: 0 <= k < |dims| ==> dims[k] > 0) ==>
             forall k :: 0 <= k < |strides| ==> strides[k] > 0 by {
      if forall k :: 0 <= k < |dims| ==> dims[k] > 0 {
        forall k | 0 <= k < |strides| ensures strides[k] > 0 {
          ProductPositive(dims[k + 1..]);
        }
      }
    }
    strides
  }

  /** n copies of stride 1, for the axes a calculator does not use. */
  function Ones(n: nat): (s: seq<int>)
    ensures |s| == n
  {
    seq(n, _ => 1)
  }

  /**
   * The index OffsetToNdIndex writes: one quotient per divisor but the last,
   * then the remainder. The last divisor is never used.
   */
  function Decompose(remaining: int, divisors: seq<int>): (index: seq<int>)
    requires |divisors| >= 1
    requires forall k :: 0 <= k < |divisors| - 1 ==> divisors[k] != 0
    ensures |index| == |divisors|
    decreases |divisors|
  {
    if |divisors| == 1 then [remaining]
    else
      var q := DivTrunc(remaining, divisors[0]);
      [q] + Decompose(remaining - q * divisors[0], divisors[1..])
  }

  // ---------------------------------------------------------------------
  // IndexToOffsetWithStrideCalculator
  // ---------------------------------------------------------------------

  class IndexToOffsetWithStrideCalculator {
    const N: nat
    const stride: array<int>

    ghost predicate Valid()
      reads this
    {
      stride.Length == N
    }

    /** The constructor that takes N strides. */
    constructor (N: nat, dims: seq<int>, strides: seq<int>)
      requires N <= |strides|
      ensures Valid() && fresh(stride) && this.N == N
      ensures stride[..] == strides[..N]
    {
      this.N := N;
      stride := new int[N];
      new;
      InitStrides(dims, strides, N);
      assert strides[..N] + Ones(0) == strides[..N];
    }

    /** The constructor that takes the first n of the strides. */
    constructor WithCount(N: nat, dims: seq<int>, strides: seq<int>, n: nat)
      requires n <= N && n <= |strides|
      ensures Valid() && fresh(stride) && this.N == N
      ensures stride[..] == strides[..n] + Ones(N - n)
    {
      this.N := N;
      stride := new int[N];
      new;
      InitStrides(dims, strides, n);
    }

    /** InitStrides: the first n strides are copied, the rest are 1. dims is unused. */
    method InitStrides(dims: seq<int>, strides: seq<int>, n: nat)
      requires Valid() && n <= N && n <= |strides|
      modifies stride
      ensures stride[..] == strides[..n] + Ones(N - n)
    {
      var i: int := n;
      while i < N
        invariant n <= i <= N
        invariant forall k :: n <= k < i ==> stride[k] == 1
      {
        stride[i] := 1;
        i := i + 1;
      }
      i := n - 1;
      while i >= 0
        invariant -1 <= i < n
        invariant forall k :: n <= k < N ==> stride[k] == 1
        invariant forall k :: i < k < n ==> stride[k] == strides[k]
      {
        stride[i] := strides[i];
        i := i - 1;
      }
      assert forall k :: 0 <= k < N ==> stride[..][k] == (strides[..n] + Ones(N - n))[k];
    }

    /** NdIndexToOffset(index): the last stride is taken to be 1. */
    method NdIndexToOffset(index: seq<int>) returns (offset: int)
      requires Valid() && 1 <= N <= |index|
      ensures offset == Dot(index, stride[..], N - 1) + index[N - 1]
    {
      offset := 0;
      var i := 0;
      while i < N - 1
        invariant 0 <= i <= N - 1
        invariant offset == Dot(index, stride[..], i)
      {
        offset := offset + index[i] * stride[i];
        i := i + 1;
      }
      offset := offset + index[N - 1];
    }

    /** NdIndexToOffset(index, n): only the first n axes contribute; n <= 0 gives 0. */
    method NdIndexToOffsetUpTo(index: seq<int>, n: int) returns (offset: int)
      requires Valid() && n <= N && n <= |index|
      ensures offset == if n <= 0 then 0 else Dot(index, stride[..], n)
    {
      offset := 0;
      var i := 0;
      while i < N
        invariant 0 <= i <= N
        invariant offset == Dot(index, stride[..], if i < n then i else if n <= 0 then 0 else n)
      {
        if i < n {
          offset := offset + index[i] * stride[i];
        }
        i := i + 1;
      }
    }
  }

  // ---------------------------------------------------------------------
  // OffsetToIndexWithStrideCalculator
  // ---------------------------------------------------------------------

  class OffsetToIndexWithStrideCalculator {
    const N: nat
    /** The divisor of each FastIntegerMath helper. */
    const mathHelper: array<int>

    ghost predicate Valid()
      reads this
    {
      mathHelper.Length == N
    }

    /** The constructor over N dims. */
    constructor (N: nat, dims: seq<int>)
      requires 1 <= N <= |dims|
      ensures Valid() && fresh(mathHelper) && this.N == N
      ensures mathHelper[..] == RowMajorStrides(dims[..N])
    {
      this.N := N;
      mathHelper := new int[N];
      new;
      InitFastIntegerMath(dims, N);
      assert RowMajorStrides(dims[..N]) + Ones(0) == RowMajorStrides(dims[..N]);
    }

    /** The constructor over the first n dims. */
    constructor WithCount(N: nat, dims: seq<int>, n: nat)
      requires 1 <= n <= N && n <= |dims|
      ensures Valid() && fresh(mathHelper) && this.N == N
      ensures mathHelper[..] == RowMajorStrides(dims[..n]) + Ones(N - n)
    {
      this.N := N;
      mathHelper := new int[N];
      new;
      InitFastIntegerMath(dims, n);
    }

    /**
     * InitFastIntegerMath: strides from axis n-1 on are 1; below it each
     * stride is the next dim times the next stride, that is, row-major.
     */
    method InitFastIntegerMath(dims: seq<int>, n: nat)
      requires Valid() && 1 <= n <= N && n <= |dims|
      modifies mathHelper
      ensures mathHelper[..] == RowMajorStrides(dims[..n]) + Ones(N - n)
    {
      ghost var expected := RowMajorStrides(dims[..n]) + Ones(N - n);
      var strideArr := new int[N];
      var i: int := n - 1;
      while i < N
        invariant n - 1 <= i <= N
        invariant forall k :: n - 1 <= k < i ==> strideArr[k] == 1 && mathHelper[k] == expected[k]
      {
        strideArr[i] := 1;
        mathHelper[i] := 1;
        if i == n - 1 {
          assert dims[..n][n..] == [];
        }
        i := i + 1;
      }
      i := n - 2;
      while i >= 0
        invariant -1 <= i <= n - 2
        invariant forall k :: i < k < N ==> strideArr[k] == mathHelper[k] == expected[k]
      {
        RowMajorStep(dims[..n], i);
        strideArr[i] := dims[i + 1] * strideArr[i + 1];
        mathHelper[i] := strideArr[i];
        i := i - 1;
      }
      assert mathHelper[..] == expected;
    }

    /** OffsetToNdIndex(offset, index): writes index[0..N). */
    method OffsetToNdIndex(offset: int, index: array<int>)
      requires Valid() && 1 <= N <= index.Length && index != mathHelper
      requires forall k :: 0 <= k < N - 1 ==> mathHelper[k] != 0
      modifies index
      ensures index[..N] == Decompose(offset, mathHelper[..N])
      ensures index[N..] == old(index[N..])
    {
      ghost var want := Decompose(offset, mathHelper[..N]);
      var remaining := offset;
      var i := 0;
      while i < N - 1
        invariant 0 <= i <= N - 1
        invariant forall k :: 0 <= k < i ==> index[k] == want[k]
        invariant Decompose(remaining, mathHelper[i..N]) == want[i..]
        invariant forall k :: N <= k < index.Length ==> index[k] == old(index[k])
      {
        DecomposeStep(remaining, mathHelper[..N], i);
        var idx := DivTrunc(remaining, mathHelper[i]);
        index[i] := idx;
        remaining := remaining - idx * mathHelper[i];
        i := i + 1;
      }
      index[N - 1] := remaining;
      assert index[..N] == want;
    }

    /** OffsetToNdIndex(offset, index, n): writes index[0..n) only. */
    method OffsetToNdIndexUpTo(offset: int, index: array<int>, n: int)
      requires Valid() && 1 <= n <= N && n <= index.Length && index != mathHelper
      requires forall k :: 0 <= k < n - 1 ==> mathHelper[k] != 0
      modifies index
      ensures index[..n] == Decompose(offset, mathHelper[..n])
      ensures index[n..] == old(index[n..])
    {
      ghost var want := Decompose(offset, mathHelper[..n]);
      var remaining := offset;
      var i := 0;
      while i < N
        invariant 0 <= i <= n - 1
        invariant forall k :: 0 <= k < i ==> index[k] == want[k]
        invariant Decompose(remaining, mathHelper[i..n]) == want[i..]
        invariant forall k :: n <= k < index.Length ==> index[k] == old(index[k])
      {
        if i == n - 1 {
          break;
        }
        if i < n - 1 {
          DecomposeStep(remaining, mathHelper[..n], i);
          var idx := DivTrunc(remaining, mathHelper[i]);
          index[i] := idx;
          remaining := remaining - idx * mathHelper[i];
        }
        i := i + 1;
      }
      index[n - 1] := remaining;
      assert index[..n] == want;
    }
  }

  // ---------------------------------------------------------------------
  // Lemmas
  // ---------------------------------------------------------------------

  /** One downward step of InitFastIntegerMath: stride k is dim k+1 times stride k+1. */
  lemma RowMajorStep(dims: seq<int>, k: nat)
    requires k + 1 < |dims|
    ensures RowMajorStrides(dims)[k] == dims[k + 1] * RowMajorStrides(dims)[k + 1]
  {
    assert dims[k + 1..][1..] == dims[k + 2..];
  }

  /** One step of the OffsetToNdIndex loop, peeling the quotient for axis i. */
  lemma DecomposeStep(remaining: int, divisors: seq<int>, i: nat)
    requires i + 1 < |divisors|
    requires forall k :: 0 <= k < |divisors| - 1 ==> divisors[k] != 0
    ensures var q := DivTrunc(remaining, divisors[i]);
            Decompose(remaining, divisors[i..]) == [q] + Decompose(remaining - q * divisors[i], divisors[i + 1..])
  {
    assert divisors[i..][1..] == divisors[i + 1..];
  }

  /** The strides of a shape's tail are the tail of its strides. */
  lemma RowMajorTail(dims: seq<int>)
    requires |dims| >= 1
    ensures RowMajorStrides(dims)[1..] == RowMajorStrides(dims[1..])
    ensures RowMajorStrides(dims)[0] == Product(dims[1..])
  {
    forall k | 0 <= k < |dims| - 1
      ensures RowMajorStrides(dims)[1..][k] == RowMajorStrides(dims[1..])[k]
    {
      assert dims[k + 2..] == dims[1..][k + 1..];
    }
  }

  /** The last row-major stride is 1. */
  lemma RowMajorLast(dims: seq<int>)
    requires |dims| >= 1
    ensures RowMajorStrides(dims)[|dims| - 1] == 1
  {
    assert dims[|dims|..] == [];
  }

  /** Entries at or beyond n do not affect the weighted sum over the first n axes. */
  lemma {:induction false} DotDependsOnPrefix(a: seq<int>, b: seq<int>, s: seq<int>, t: seq<int>, n: nat)
    requires n <= |a| && n <= |b| && n <= |s| && n <= |t|
    requires forall k :: 0 <= k < n ==> a[k] == b[k] && s[k] == t[k]
    ensures Dot(a, s, n) == Dot(b, t, n)
  {
    if n > 0 {
      DotDependsOnPrefix(a, b, s, t, n - 1);
    }
  }

  /** The weighted sum split at its first axis instead of its last. */
  lemma {:induction false} DotFront(index: seq<int>, stride: seq<int>, n: nat)
    requires 1 <= n <= |index| && n <= |stride|
    ensures Dot(index, stride, n) == index[0] * stride[0] + Dot(index[1..], stride[1..], n - 1)
  {
    if n > 1 {
      DotFront(index, stride, n - 1);
    }
  }

  /**
   * Round trip at the level of the specification: recombining the index
   * OffsetToNdIndex produces, with the same divisors as strides and stride 1
   * on the last axis, gives back the offset. This is the loop invariant
   * offset == sum of index[j]*stride[j] for j < i, plus remaining.
   */
  lemma {:induction false} DecomposeSum(remaining: int, divisors: seq<int>, stride: seq<int>)
    requires |divisors| >= 1 && |divisors| <= |stride|
    requires forall k :: 0 <= k < |divisors| - 1 ==> divisors[k] != 0
    requires forall k :: 0 <= k < |divisors| - 1 ==> stride[k] == divisors[k]
    requires stride[|divisors| - 1] == 1
    ensures Dot(Decompose(remaining, divisors), stride, |divisors|) == remaining
    decreases |divisors|
  {
    var index := Decompose(remaining, divisors);
    if |divisors| > 1 {
      var q := DivTrunc(remaining, divisors[0]);
      DotFront(index, stride, |divisors|);
      assert index[1..] == Decompose(remaining - q * divisors[0], divisors[1..]);
      DecomposeSum(remaining - q * divisors[0], divisors[1..], stride[1..]);
    }
  }

  /**
   * For positive dims and an offset in [0, product of dims), every entry of
   * the decomposed index lies in [0, dims[k]).
   */
  lemma {:induction false} DecomposeInRange(offset: int, dims: seq<int>)
    requires |dims| >= 1 && forall k :: 0 <= k < |dims| ==> dims[k] > 0
    requires 0 <= offset < Product(dims)
    ensures forall k :: 0 <= k < |dims| ==>
              0 <= Decompose(offset, RowMajorStrides(dims))[k] < dims[k]
  {
    var strides := RowMajorStrides(dims);
    var index := Decompose(offset, strides);
    RowMajorTail(dims);
    if |dims| == 1 {
      assert index == [offset];
    } else {
      var p := strides[0];
      ProductPositive(dims[1..]);
      QuotientInRange(offset, dims[0], p);
      var q := offset / p;
      var rest := offset - q * p;
      assert DivTrunc(offset, p) == q;
      DecomposeInRange(rest, dims[1..]);
      assert index == [q] + Decompose(rest, RowMajorStrides(dims[1..]));
    }
  }

  /** Dividing an offset below d * p by p leaves a quotient below d and a remainder below p. */
  lemma QuotientInRange(offset: int, d: int, p: int)
    requires p > 0 && 0 <= offset < d * p
    ensures 0 <= offset / p < d && 0 <= offset - (offset / p) * p < p
  {
    var q := offset / p;
    assert offset == q * p + offset % p;
    if q >= d {
      MulMonotone(d, q, p);
    }
  }

  /** An in-range index recombines to an offset in [0, product of dims). */
  lemma {:induction false} DotInRange(index: seq<int>, dims: seq<int>)
    requires |dims| >= 1 && |index| == |dims|
    requires forall k :: 0 <= k < |dims| ==> 0 <= index[k] < dims[k]
    ensures 0 <= Dot(index, RowMajorStrides(dims), |dims|) < Product(dims)
  {
    var strides := RowMajorStrides(dims);
    DotFront(index, strides, |dims|);
    RowMajorTail(dims);
    if |dims| == 1 {
      RowMajorLast(dims);
    } else {
      var p := strides[0];
      var rest := Dot(index[1..], strides[1..], |dims| - 1);
      ProductPositive(dims[1..]);
      DotInRange(index[1..], dims[1..]);
      assert 0 <= rest < p;
      AxisStepInRange(index[0], dims[0], rest, p);
      assert Product(dims) == dims[0] * p;
    }
  }

  /** Truncating division undoes one axis of a row-major offset. */
  lemma QuotientOfStep(x: int, rest: int, p: int)
    requires 0 <= x && p > 0 && 0 <= rest < p
    ensures DivTrunc(x * p + rest, p) == x
  {
    MulMonotone(0, x, p);
    DivModUnique(x * p + rest, x, rest, p);
  }

  /** One axis of a row-major offset: x*p + rest stays below d*p when x < d and rest < p. */
  lemma AxisStepInRange(x: int, d: int, rest: int, p: int)
    requires 0 <= x < d && p > 0 && 0 <= rest < p
    ensures 0 <= x * p + rest < d * p
  {
    MulMonotone(0, x, p);
    MulMonotone(x + 1, d, p);
  }

  /** Decomposing x*p + rest, where p is the first divisor and rest < p, peels off x first. */
  lemma DecomposeFront(x: int, rest: int, divisors: seq<int>)
    requires |divisors| >= 2 && forall k :: 0 <= k < |divisors| - 1 ==> divisors[k] != 0
    requires 0 <= x && divisors[0] > 0 && 0 <= rest < divisors[0]
    ensures Decompose(x * divisors[0] + rest, divisors) == [x] + Decompose(rest, divisors[1..])
  {
    QuotientOfStep(x, rest, divisors[0]);
  }

  /**
   * The inductive step of DecomposeDot, for any positive strides: if the
   * index's tail recombines below the first stride and round-trips through
   * the remaining strides, the whole index round-trips.
   */
  lemma DecomposeDotCons(index: seq<int>, strides: seq<int>)
    requires |strides| >= 2 && |index| == |strides|
    requires forall k :: 0 <= k < |strides| ==> strides[k] > 0
    requires 0 <= index[0]
    requires 0 <= Dot(index[1..], strides[1..], |strides| - 1) < strides[0]
    requires Decompose(Dot(index[1..], strides[1..], |strides| - 1), strides[1..]) == index[1..]
    ensures Decompose(Dot(index, strides, |strides|), strides) == index
  {
    var rest := Dot(index[1..], strides[1..], |strides| - 1);
    var offset := Dot(index, strides, |strides|);
    assert offset == index[0] * strides[0] + rest by {
      DotFront(index, strides, |strides|);
    }
    assert Decompose(offset, strides) == [index[0]] + index[1..] by {
      DecomposeFront(index[0], rest, strides);
    }
    assert [index[0]] + index[1..] == index;
  }

  /**
   * The other round trip: an in-range index recombined with row-major
   * strides and decomposed again is the same index.
   */
  lemma {:induction false} DecomposeDot(index: seq<int>, dims: seq<int>)
    requires |dims| >= 1 && |index| == |dims|
    requires forall k :: 0 <= k < |dims| ==> 0 <= index[k] < dims[k]
    ensures Decompose(Dot(index, RowMajorStrides(dims), |dims|), RowMajorStrides(dims)) == index
  {
    if |dims| == 1 {
      RowMajorLast(dims);
    } else {
      RowMajorTail(dims);
      DotInRange(index[1..], dims[1..]);
      DecomposeDot(index[1..], dims[1..]);
      DecomposeDotCons(index, RowMajorStrides(dims));
    }
  }

  // ---------------------------------------------------------------------
  // The two calculators used together
  // ---------------------------------------------------------------------

  /**
   * Offset -> index -> offset over the first n of the dims: the index comes
   * back from an IndexToOffsetWithStrideCalculator initialised with the same
   * row-major strides as the offset it came from, and it is in range when
   * the offset is.
   */
  method OffsetRoundTrip(N: nat, dims: seq<int>, n: nat, offset: int)
    returns (index: seq<int>, back: int)
    requires 1 <= n <= N && n <= |dims|
    requires forall k :: 0 <= k < n ==> dims[k] > 0
    ensures |index| == n && back == offset
    ensures 0 <= offset < Product(dims[..n]) ==> forall k :: 0 <= k < n ==> 0 <= index[k] < dims[k]
  {
    var strides := RowMajorStrides(dims[..n]);
    var toIndex := new OffsetToIndexWithStrideCalculator.WithCount(N, dims, n);
    var toOffset := new IndexToOffsetWithStrideCalculator.WithCount(N, dims, strides, n);
    var buffer := new int[N];
    assert toIndex.mathHelper[..n] == strides;
    toIndex.OffsetToNdIndexUpTo(offset, buffer, n);
    index := buffer[..n];
    back := toOffset.NdIndexToOffsetUpTo(buffer[..], n);
    RowMajorLast(dims[..n]);
    DotDependsOnPrefix(buffer[..], index, toOffset.stride[..], toOffset.stride[..], n);
    DecomposeSum(offset, strides, toOffset.stride[..]);
    if 0 <= offset < Product(dims[..n]) {
      DecomposeInRange(offset, dims[..n]);
    }
  }

  /**
   * Index -> offset -> index over the first n of the dims: an in-range index
   * maps to an offset in range and comes back unchanged.
   */
  method IndexRoundTrip(N: nat, dims: seq<int>, n: nat, index: seq<int>)
    returns (offset: int, back: seq<int>)
    requires 1 <= n <= N && n <= |dims| && n <= |index|
    requires forall k :: 0 <= k < n ==> 0 <= index[k] < dims[k]
    ensures 0 <= offset < Product(dims[..n])
    ensures back == index[..n]
  {
    var strides := RowMajorStrides(dims[..n]);
    var toOffset := new IndexToOffsetWithStrideCalculator.WithCount(N, dims, strides, n);
    var toIndex := new OffsetToIndexWithStrideCalculator.WithCount(N, dims, n);
    offset := toOffset.NdIndexToOffsetUpTo(index, n);
    var buffer := new int[N];
    assert toIndex.mathHelper[..n] == strides;
    toIndex.OffsetToNdIndexUpTo(offset, buffer, n);
    back := buffer[..n];
    DotDependsOnPrefix(index, index[..n], toOffset.stride[..], strides, n);
    DotInRange(index[..n], dims[..n]);
    DecomposeDot(index[..n], dims[..n]);
  }

  /**
   * The overloads without a count, over all N dims: NdIndexToOffset treats
   * the last stride as 1, which the row-major strides have anyway.
   */
  method FullRankRoundTrip(N: nat, dims: seq<int>, offset: int) returns (index: seq<int>, back: int)
    requires 1 <= N <= |dims|
    requires forall k :: 0 <= k < N ==> dims[k] > 0
    ensures |index| == N && back == offset
  {
    var strides := RowMajorStrides(dims[..N]);
    var toIndex := new OffsetToIndexWithStrideCalculator(N, dims);
    var toOffset := new IndexToOffsetWithStrideCalculator(N, dims, strides);
    var buffer := new int[N];
    toIndex.OffsetToNdIndex(offset, buffer);
    index := buffer[..];
    back := toOffset.NdIndexToOffset(index);
    RowMajorLast(dims[..N]);
    assert buffer[..N] == index;
    assert toIndex.mathHelper[..N] == strides;
    assert toOffset.stride[..] == strides;
    DecomposeSum(offset, strides, toOffset.stride[..]);
    assert Dot(index, strides, N) == Dot(index, strides, N - 1) + index[N - 1];
  }
}
