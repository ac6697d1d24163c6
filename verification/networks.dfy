/**
 * CIDR networks: their size, the address at an offset, and drawing an address
 * that is not yet in use.
 */
module Networks {
  import opened Collections
  import opened Net
  import opened Naturals
  import opened Text

  const TWO_32: nat := 0x1_0000_0000
  const TWO_128: nat := 0x1_00000000_00000000_00000000_00000000

  /** A network by its first address and the number of its host bits. */
  datatype IpNet = Net4(base: nat, hostBits: nat) | Net6(base: nat, hostBits: nat)

  /** Every address of the network fits its family. */
  predicate IsNetwork(net: IpNet) {
    net.base + Pow2(net.hostBits) <= if net.Net4? then TWO_32 else TWO_128
  }

  predicate InNetwork(net: IpNet, a: IpAddr) {
    net.Net4? == a.V4? && net.base <= a.bits < net.base + Pow2(net.hostBits)
  }

  /** The size, saturating at the largest 128-bit value. */
  function NetworkSize(net: IpNet): (size: nat)
    ensures size >= 1
  {
    if net.hostBits >= 128 then TWO_128 - 1 else Pow2(net.hostBits)
  }

  function OffsetInto(net: IpNet, offset: nat): IpAddr {
    match net
    case Net4(base, _) => V4((base + offset % TWO_32) % TWO_32)
    case Net6(base, _) => V6((base + offset) % TWO_128)
  }

  /** The offset probed at one step: the sum wraps at 128 bits first. */
  function Probed(size: nat, start: nat, step: nat): nat
    requires size > 0
  {
    (start + step) % TWO_128 % size
  }

  function Attempts(net: IpNet, reserved: set<IpAddr>): nat {
    var size := NetworkSize(net);
    if |reserved| + 1 < size then |reserved| + 1 else size
  }

  /** Try at most `|reserved| + 1` consecutive addresses from a random offset. */
  method DrawFreshSample(net: IpNet, reserved: set<IpAddr>, start: nat) returns (r: Option<IpAddr>)
    requires IsNetwork(net) && start < NetworkSize(net)
    ensures Drawn(net, reserved, start, r)
    ensures r.Some? ==> InNetwork(net, r.value) && r.value !in reserved
    ensures r.None? && net.hostBits < 128 ==> forall a :: InNetwork(net, a) ==> a in reserved
  {
    var size := NetworkSize(net);
    var attempts := Attempts(net, reserved);
    hide Attempts, OffsetInto, Probed, NetworkSize, InNetwork, IsNetwork;
    for step := 0 to attempts
      invariant forall k :: 0 <= k < step ==> OffsetInto(net, Probed(size, start, k)) in reserved
    {
      var addr := OffsetInto(net, Probed(size, start, step));
      if addr !in reserved {
        ProbesStayInside(net, start, step);
        return Some(addr);
      }
    }
    if net.hostBits < 128 {
      NoneMeansExhausted(net, reserved, start);
    }
    return None;
  }

  /** `r` is the first unreserved address met from `start`, if one is met. */
  ghost predicate Drawn(net: IpNet, reserved: set<IpAddr>, start: nat, r: Option<IpAddr>) {
    var size := NetworkSize(net);
    match r
    case Some(a) =>
      exists step :: 0 <= step < Attempts(net, reserved) && a == OffsetInto(net, Probed(size, start, step))
        && a !in reserved
        && forall k :: 0 <= k < step ==> OffsetInto(net, Probed(size, start, k)) in reserved
    case None =>
      forall k :: 0 <= k < Attempts(net, reserved) ==> OffsetInto(net, Probed(size, start, k)) in reserved
  }

  // ---------------------------------------------------------------------
  // Arithmetic of offsets
  // ---------------------------------------------------------------------

  lemma Squares(k: nat, p: nat)
    requires Pow2(k) == p
    ensures Pow2(2 * k) == p * p
  {
    Pow2Adds(k, k);
  }

  lemma WidthsArePowers()
    ensures Pow2(32) == TWO_32 && Pow2(128) == TWO_128
  {
    assert Pow2(1) == 2;
    hide Pow2;
    Squares(1, 2);
    Squares(2, 4);
    Squares(4, 0x10);
    Squares(8, 0x100);
    Squares(16, 0x1_0000);
    Squares(32, TWO_32);
    Squares(64, 0x1_00000000_00000000);
  }

  /** Below 128 host bits two offsets never overflow 128 bits. */
  lemma SmallNetworks(net: IpNet)
    requires net.hostBits < 128
    ensures 2 * NetworkSize(net) <= TWO_128
  {
    WidthsArePowers();
    Pow2Grows(net.hostBits + 1, 128);
  }

  lemma SizeIsAtMostTheNetwork(net: IpNet)
    requires IsNetwork(net)
    ensures NetworkSize(net) <= Pow2(net.hostBits)
    ensures net.Net4? ==> NetworkSize(net) == Pow2(net.hostBits)
    ensures net.hostBits <= 128
  {
    WidthsArePowers();
    if net.hostBits >= 128 {
      Pow2Grows(128, net.hostBits);
      if net.hostBits > 128 {
        Pow2Grows(129, net.hostBits);
      }
    }
  }

  lemma OffsetsAreInNetwork(net: IpNet, offset: nat)
    requires IsNetwork(net) && offset < NetworkSize(net)
    ensures InNetwork(net, OffsetInto(net, offset)) && OffsetInto(net, offset).bits == net.base + offset
  {
    SizeIsAtMostTheNetwork(net);
    hide Pow2;
  }

  lemma Remainder(x: nat, m: nat)
    requires x < 2 * m
    ensures x % m == if x < m then x else x - m
  {
  }

  lemma ProbesStayInside(net: IpNet, start: nat, step: nat)
    requires IsNetwork(net)
    ensures InNetwork(net, OffsetInto(net, Probed(NetworkSize(net), start, step)))
  {
    var size := NetworkSize(net);
    var x := (start + step) % TWO_128;
    assert x % size < size;
    OffsetsAreInNetwork(net, x % size);
  }

  lemma ProbedWrapsOnce(size: nat, start: nat, step: nat)
    requires start < size && step < size && 2 * size <= TWO_128
    ensures Probed(size, start, step) == if start + step < size then start + step else start + step - size
  {
    Remainder(start + step, TWO_128);
    Remainder(start + step, size);
  }

  // ---------------------------------------------------------------------
  // A draw fails only when the network is used up
  // ---------------------------------------------------------------------

  /** The first `n` addresses probed. */
  function ProbedAddrs(net: IpNet, start: nat, n: nat): set<IpAddr> {
    if n == 0 then {} else ProbedAddrs(net, start, n - 1) + {OffsetInto(net, Probed(NetworkSize(net), start, n - 1))}
  }

  lemma ProbesAreDistinct(net: IpNet, start: nat, j: nat, k: nat)
    requires IsNetwork(net) && net.hostBits < 128 && start < NetworkSize(net) && j < k < NetworkSize(net)
    ensures OffsetInto(net, Probed(NetworkSize(net), start, j)) != OffsetInto(net, Probed(NetworkSize(net), start, k))
  {
    var size := NetworkSize(net);
    SmallNetworks(net);
    ProbedWrapsOnce(size, start, j);
    ProbedWrapsOnce(size, start, k);
    OffsetsAreInNetwork(net, Probed(size, start, j));
    OffsetsAreInNetwork(net, Probed(size, start, k));
  }

  lemma {:induction false} ProbesCount(net: IpNet, start: nat, n: nat)
    requires IsNetwork(net) && net.hostBits < 128 && start < NetworkSize(net) && n <= NetworkSize(net)
    ensures |ProbedAddrs(net, start, n)| == n
    ensures forall a :: a in ProbedAddrs(net, start, n) ==>
      exists k :: 0 <= k < n && a == OffsetInto(net, Probed(NetworkSize(net), start, k))
  {
    if n > 0 {
      ProbesCount(net, start, n - 1);
      var last := OffsetInto(net, Probed(NetworkSize(net), start, n - 1));
      if last in ProbedAddrs(net, start, n - 1) {
        var k :| 0 <= k < n - 1 && last == OffsetInto(net, Probed(NetworkSize(net), start, k));
        ProbesAreDistinct(net, start, k, n - 1);
        assert false;
      }
    }
  }

  /** Every address of the network is probed at the step its offset names. */
  lemma EveryAddressIsProbed(net: IpNet, start: nat, a: IpAddr) returns (step: nat)
    requires IsNetwork(net) && net.hostBits < 128 && start < NetworkSize(net) && InNetwork(net, a)
    ensures step < NetworkSize(net) && OffsetInto(net, Probed(NetworkSize(net), start, step)) == a
  {
    var size, offset := NetworkSize(net), a.bits - net.base;
    step := if offset >= start then offset - start else offset + size - start;
    SmallNetworks(net);
    ProbedWrapsOnce(size, start, step);
    OffsetsAreInNetwork(net, offset);
  }

  /** By the pigeonhole principle `|reserved| + 1` probes cannot all be reserved. */
  lemma NoneMeansExhausted(net: IpNet, reserved: set<IpAddr>, start: nat)
    requires IsNetwork(net) && net.hostBits < 128 && start < NetworkSize(net)
    requires Drawn(net, reserved, start, None)
    ensures forall a :: InNetwork(net, a) ==> a in reserved
  {
    var size, n := NetworkSize(net), Attempts(net, reserved);
    ProbesCount(net, start, n);
    assert ProbedAddrs(net, start, n) <= reserved;
    FewerKeys(ProbedAddrs(net, start, n), reserved);
    assert n == size;
    forall a | InNetwork(net, a) ensures a in reserved {
      var step := EveryAddressIsProbed(net, start, a);
    }
  }

  /** A draw fails exactly when every address of the network is reserved. */
  ghost predicate FailsOnlyWhenExhausted(net: IpNet) {
    forall reserved: set<IpAddr>, start: nat :: start < NetworkSize(net) && Drawn(net, reserved, start, None) ==>
      forall a :: InNetwork(net, a) ==> a in reserved
  }

  /** The guarantee holds for every network but `::/0`. There the size saturates
      one short, the sum wraps at 128 bits, and offset 0 is probed twice. */
  lemma FreshUnlessExhausted(net: IpNet)
    requires IsNetwork(net)
    ensures FailsOnlyWhenExhausted(net) <==> net.hostBits < 128
  {
    if net.hostBits < 128 {
      forall reserved: set<IpAddr>, start: nat | start < NetworkSize(net) && Drawn(net, reserved, start, None)
        ensures forall a :: InNetwork(net, a) ==> a in reserved
      {
        NoneMeansExhausted(net, reserved, start);
      }
    } else {
      WholeSpaceRepeats(net);
    }
  }

  lemma WrappingProbes()
    ensures Probed(TWO_128 - 1, TWO_128 - 2, 0) == TWO_128 - 2
    ensures Probed(TWO_128 - 1, TWO_128 - 2, 1) == 0 && Probed(TWO_128 - 1, TWO_128 - 2, 2) == 0
  {
  }

  lemma AllReserved(net: IpNet, reserved: set<IpAddr>, start: nat)
    requires net == Net6(0, net.hostBits) && net.hostBits >= 128 && |reserved| == 2 && V6(0) in reserved
    requires start == TWO_128 - 2 && V6(start) in reserved
    requires forall k :: 0 <= k < 3 ==> Probed(NetworkSize(net), start, k) == if k == 0 then start else 0
    ensures Drawn(net, reserved, start, None)
  {
  }

  lemma WholeSpaceRepeats(net: IpNet)
    requires IsNetwork(net) && net.hostBits >= 128
    ensures !FailsOnlyWhenExhausted(net)
  {
    WidthsArePowers();
    Pow2Grows(128, net.hostBits);
    hide Pow2;
    var start: nat := TWO_128 - 2;
    var reserved := {V6(start), V6(0)};
    WrappingProbes();
    hide Probed;
    AllReserved(net, reserved, start);
    assert InNetwork(net, V6(1)) && V6(1) !in reserved;
  }
}
