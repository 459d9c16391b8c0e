/** GOMAXPROCS and GOMEMLIMIT from container resources (go_runtime_env.go), in the 64-bit
    arithmetic the operator computes them in. */
module GoRuntime {

  const MAX_INT64: int := 0x7FFF_FFFF_FFFF_FFFF

  newtype int64 = x: int | -0x8000_0000_0000_0000 <= x <= 0x7FFF_FFFF_FFFF_FFFF

  function Wrap64(x: int): int64
  {
    ((x + 0x8000_0000_0000_0000) % 0x1_0000_0000_0000_0000 - 0x8000_0000_0000_0000) as int64
  }

  /** Division that drops the fraction, also below zero. */
  function DivTowardZero(x: int, d: int): int
    requires d > 0
  {
    if x >= 0 then x / d else -((-x) / d)
  }

  /** Whole CPUs, rounded up. */
  function CeilMilliCPUs(milliCPU: int64): int64
  {
    if milliCPU <= 0 then 1
    else Wrap64(DivTowardZero(Wrap64(milliCPU as int + 999) as int, 1000))
  }

  /** Bytes less ten percent. */
  function ApplyMemoryHeadroom(bytes: int64): int64
  {
    if bytes <= 0 then 1
    else
      var headroom := Wrap64(DivTowardZero(Wrap64(bytes as int * 10) as int, 100));
      if Wrap64(bytes as int - headroom as int) <= 0 then 1
      else Wrap64(bytes as int - headroom as int)
  }

  /** Enough CPUs, and no fewer would do. */
  ghost predicate LeastCpus(milliCPU: int, n: int)
  {
    1000 * n >= milliCPU && n >= 1 && forall m | m >= 1 && 1000 * m >= milliCPU :: n <= m
  }

  /** GOMAXPROCS is the least whole number of CPUs that covers the request exactly when adding
      the rounding term does not overflow. */
  lemma MaxProcsIsLeastIffNoOverflow(milliCPU: int64)
    ensures LeastCpus(milliCPU as int, CeilMilliCPUs(milliCPU) as int) <==> milliCPU as int + 999 <= MAX_INT64
  {
    var m := milliCPU as int;
    if 0 < m && m + 999 <= MAX_INT64 {
      assert CeilMilliCPUs(milliCPU) as int == (m + 999) / 1000;
      CeilingIsLeast(m);
    } else if 0 < m {
      assert Wrap64(m + 999) < 0;
      assert CeilMilliCPUs(milliCPU) <= 0;
    }
  }

  lemma CeilingIsLeast(m: int)
    requires m > 0
    ensures LeastCpus(m, (m + 999) / 1000)
  {
    forall n | n >= 1 && 1000 * n >= m
      ensures (m + 999) / 1000 <= n
    {}
  }

  /** Nine tenths of `b`, rounded up. */
  function NineTenths(b: int): int { (9 * b + 9) / 10 }

  function AtLeastOne(n: int): int { if n < 1 then 1 else n }

  lemma NineTenthsIsRest(b: int)
    ensures NineTenths(b) == b - b / 10
  {}

  /** GOMEMLIMIT is nine tenths of the memory, rounded up, and one byte where that is less, exactly when ten times
      the memory does not overflow; for positive amounts it is then at most all of it. */
  lemma MemLimitIsNineTenthsIffNoOverflow(bytes: int64)
    ensures ApplyMemoryHeadroom(bytes) as int == AtLeastOne(NineTenths(bytes as int)) <==> bytes as int * 10 <= MAX_INT64
    ensures bytes as int * 10 <= MAX_INT64 ==>
              1 <= ApplyMemoryHeadroom(bytes) && (bytes > 0 ==> ApplyMemoryHeadroom(bytes) <= bytes)
  {
    var b := bytes as int;
    NineTenthsIsRest(b);
    if b <= 0 {
      assert NineTenths(b) <= 0;
    } else if b * 10 <= MAX_INT64 {
      HundredthOfTen(b);
    } else {
      WrappedHeadroomIsWrong(b, Wrap64(b * 10) as int);
    }
  }

  lemma HundredthOfTen(b: int)
    requires 0 < b && b * 10 <= MAX_INT64
    ensures Wrap64(b * 10) as int == b * 10 && DivTowardZero(b * 10, 100) == b / 10
    ensures -MAX_INT64 <= DivTowardZero(b * 10, 100) <= MAX_INT64 && Wrap64(b / 10) as int == b / 10
    ensures 0 < b - b / 10 <= MAX_INT64 && Wrap64(b - b / 10) as int == b - b / 10
  {}

  /** A wrapped product is short of the true one by a multiple of two to the 64, so its
      hundredth is never the true tenth. */
  lemma WrappedHeadroomIsWrong(b: int, w: int)
    requires MAX_INT64 < b * 10 && b <= MAX_INT64 && w == Wrap64(b * 10) as int
    ensures DivTowardZero(w, 100) < b / 10 && Wrap64(DivTowardZero(w, 100)) as int == DivTowardZero(w, 100)
    ensures var rest := Wrap64(b - DivTowardZero(w, 100));
            rest <= 0 || rest as int == b - DivTowardZero(w, 100)
    ensures b - b / 10 > 1
  {
    assert w <= b * 10 - 0x1_0000_0000_0000_0000;
    assert DivTowardZero(w, 100) <= b / 10 - 1;
  }
}
