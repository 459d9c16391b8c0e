/** The default number of healthy hosts the event bus requires (config_env.go), in the 32-bit
    arithmetic the operator computes it in. */
module Quorum {

  const MAX_INT32: int := 0x7FFF_FFFF

  newtype int32 = x: int | -0x8000_0000 <= x <= 0x7FFF_FFFF

  /** The 32-bit value that `x` wraps to. */
  function Wrap32(x: int): int32
  {
    ((x + 0x8000_0000) % 0x1_0000_0000 - 0x8000_0000) as int32
  }

  /** Division by two that drops the fraction, also below zero. */
  function HalfTowardZero(x: int): int
  {
    if x >= 0 then x / 2 else -((-x) / 2)
  }

  /** floor(total / 2) + 1 with total = node + NATS + the one Jobs pod. */
  function DefaultRequiredHosts(node: int32, nats: int32): int32
  {
    var total := Wrap32(Wrap32(node as int + nats as int) as int + 1);
    Wrap32(HalfTowardZero(total as int) + 1)
  }

  /** Any two groups of `r` hosts out of `total` share a host. */
  ghost predicate IsQuorum(total: nat, r: int)
  {
    forall a: set<nat>, b: set<nat> | a <= Hosts(total) && b <= Hosts(total) && |a| == |b| == r :: a * b != {}
  }

  /** The hosts, numbered from zero. */
  function Hosts(total: nat): (hosts: set<nat>)
    ensures |hosts| == total
    ensures forall h :: h in hosts <==> 0 <= h < total
  {
    if total == 0 then {} else Hosts(total - 1) + {total - 1}
  }

  lemma SubsetSize(a: set<nat>, b: set<nat>)
    requires a <= b
    ensures |a| <= |b|
  {
    assert b == a + (b - a);
    assert |b| == |a| + |b - a|;
  }

  /** Two groups of more than half of the hosts overlap. */
  lemma MajoritiesMeet(total: nat, r: int)
    requires 2 * r > total
    ensures IsQuorum(total, r)
  {
    forall a: set<nat>, b: set<nat> | a <= Hosts(total) && b <= Hosts(total) && |a| == |b| == r
      ensures a * b != {}
    {
      if a * b == {} {
        assert |a + b| == |a| + |b|;
        SubsetSize(a + b, Hosts(total));
      }
    }
  }

  /** Two disjoint groups exist as soon as both fit. */
  lemma HalvesMiss(total: nat, r: nat)
    requires 2 * r <= total
    ensures !IsQuorum(total, r)
  {
    var low, both := Hosts(r), Hosts(2 * r);
    var high := both - low;
    assert both == low + high;
    assert |both| == |low| + |high|;
    assert low <= Hosts(total) && high <= Hosts(total) && |low| == |high| == r && low * high == {};
  }

  lemma RequiredHostsValue(node: int32, nats: int32)
    requires node >= 1 && nats >= 1
    ensures var total := node as int + nats as int + 1;
            var r := DefaultRequiredHosts(node, nats) as int;
            if total <= MAX_INT32 then r == total / 2 + 1 else r <= 1
  {
    var sum := node as int + nats as int;
    if sum + 1 <= MAX_INT32 {
      WrapFits(sum);
      WrapFits(sum + 1);
      WrapFits((sum + 1) / 2 + 1);
    } else {
      WrapTwice(sum);
    }
  }

  lemma WrapFits(x: int)
    requires 0 <= x <= MAX_INT32
    ensures Wrap32(x) as int == x
  {}

  /** Once the number of hosts does not fit, the wrapped number is negative. */
  lemma WrapTwice(sum: int)
    requires MAX_INT32 <= sum <= 2 * MAX_INT32
    ensures var total := Wrap32(Wrap32(sum) as int + 1) as int;
            total < 0 && HalfTowardZero(total) <= 0 && Wrap32(HalfTowardZero(total) + 1) <= 1
  {
    if sum == MAX_INT32 {
      WrapFits(sum);
      assert Wrap32(sum + 1) as int == sum + 1 - 0x1_0000_0000;
    } else {
      assert Wrap32(sum) as int == sum - 0x1_0000_0000;
    }
  }

  /** For validated replica counts the default is the least quorum of the real number of
      hosts exactly when their sum fits in 32 bits. */
  lemma DefaultIsLeastQuorumIffNoOverflow(node: int32, nats: int32)
    requires node >= 1 && nats >= 1
    ensures var total := node as int + nats as int + 1;
            var r := DefaultRequiredHosts(node, nats) as int;
            (0 <= r <= total && IsQuorum(total, r) && forall q: nat | q < r :: !IsQuorum(total, q))
            <==> total <= MAX_INT32
  {
    hide DefaultRequiredHosts, Wrap32, HalfTowardZero, IsQuorum, Hosts;
    var total := node as int + nats as int + 1;
    var r := DefaultRequiredHosts(node, nats) as int;
    RequiredHostsValue(node, nats);
    if total <= MAX_INT32 {
      MajoritiesMeet(total, r);
      forall q: nat | q < r
        ensures !IsQuorum(total, q)
      {
        HalvesMiss(total, q);
      }
    } else if 0 <= r {
      HalvesMiss(total, r);
    }
  }
}
