/**
 CIDR blocks over IPv4 and IPv6 addresses, the overlap test, and the cyclic
 allocator of /24 blocks inside 172.16.0.0/12 (section 3 of RFC 1918).
 */
module Subnets {
  import opened GoStrings

  function Pow2(n: nat): (p: nat)
    ensures p >= 1
  {
    if n == 0 then 1 else 2 * Pow2(n - 1)
  }

  datatype Addr = V4(bits: nat) | V6(bits: nat)

  function Width(a: Addr): nat {
    if a.V4? then 32 else 128
  }

  predicate ValidAddr(a: Addr) {
    a.bits < Pow2(Width(a))
  }

  predicate SameFamily(a: Addr, b: Addr) {
    a.V4? == b.V4?
  }

  /** A prefix keeps its address unmasked, so host bits may be set. */
  datatype Prefix = Prefix(addr: Addr, len: nat)

  predicate ValidPrefix(p: Prefix) {
    ValidAddr(p.addr) && p.len <= Width(p.addr)
  }

  /** How many low bits the prefix leaves free. */
  function HostBits(p: Prefix): nat
    requires p.len <= Width(p.addr)
  {
    Width(p.addr) - p.len
  }

  /** netip.Prefix.Contains: the leading len bits agree. */
  predicate Contains(p: Prefix, ip: Addr)
    requires p.len <= Width(p.addr)
  {
    SameFamily(p.addr, ip) && ip.bits / Pow2(HostBits(p)) == p.addr.bits / Pow2(HostBits(p))
  }

  predicate PrefixesOverlap(a: Prefix, b: Prefix)
    requires a.len <= Width(a.addr) && b.len <= Width(b.addr)
  {
    Contains(a, b.addr) || Contains(b, a.addr)
  }

  // ----- reference meaning: a block is an interval of addresses -----

  /** The multiple of d at or below x. */
  function Low(x: nat, d: nat): int
    requires d > 0
  {
    d * (x / d)
  }

  function First(p: Prefix): int
    requires p.len <= Width(p.addr)
  {
    Low(p.addr.bits, Pow2(HostBits(p)))
  }

  ghost predicate InBlock(p: Prefix, ip: Addr)
    requires p.len <= Width(p.addr)
  {
    SameFamily(p.addr, ip) && First(p) <= ip.bits < First(p) + Pow2(HostBits(p))
  }

  ghost predicate ShareAddress(a: Prefix, b: Prefix)
    requires a.len <= Width(a.addr) && b.len <= Width(b.addr)
  {
    exists ip: Addr :: ValidAddr(ip) && InBlock(a, ip) && InBlock(b, ip)
  }

  lemma DivUnique(x: nat, d: nat, q: nat, r: nat)
    requires d > 0 && x == d * q + r && r < d
    ensures x / d == q
  {
    var k := q - x / d;
    assert d * k == d * q - d * (x / d) == x % d - r;
    assert k > 0 ==> d * k >= d;
    assert k < 0 ==> d * k + d <= 0;
  }

  lemma DivDouble(x: nat, p: nat)
    requires p > 0
    ensures x / (2 * p) == x / p / 2
  {
    var q, r := x / p, x % p;
    var h, b := q / 2, q % 2;
    assert x == p * q + r;
    assert p * q == p * (2 * h + b) == (2 * p) * h + p * b;
    assert p * b + r < 2 * p by { assert b == 0 || b == 1; }
    DivUnique(x, 2 * p, h, p * b + r);
  }

  /** Agreement above bit j gives agreement above any higher bit. */
  lemma {:induction false} CoarserAgrees(x: nat, y: nat, j: nat, k: nat)
    requires j <= k && x / Pow2(j) == y / Pow2(j)
    ensures x / Pow2(k) == y / Pow2(k)
  {
    if j < k {
      CoarserAgrees(x, y, j, k - 1);
      DivDouble(x, Pow2(k - 1));
      DivDouble(y, Pow2(k - 1));
    }
  }

  lemma DivInterval(x: nat, d: nat, q: nat)
    requires d > 0
    ensures x / d == q <==> d * q <= x < d * q + d
  {
    if d * q <= x < d * q + d {
      DivUnique(x, d, q, x - d * q);
    }
    assert x == d * (x / d) + x % d;
  }

  lemma SameBucket(x: nat, y: nat, d: nat)
    requires d > 0
    ensures x / d == y / d <==> Low(y, d) <= x < Low(y, d) + d
  {
    DivInterval(x, d, y / d);
  }

  /** The bit test and the interval say the same. */
  lemma ContainsIsBlock(p: Prefix, ip: Addr)
    requires p.len <= Width(p.addr)
    ensures Contains(p, ip) <==> InBlock(p, ip)
  {
    SameBucket(ip.bits, p.addr.bits, Pow2(HostBits(p)));
  }

  lemma SharedGivesOverlap(a: Prefix, b: Prefix, ip: Addr)
    requires a.len <= Width(a.addr) && b.len <= Width(b.addr)
    requires Contains(a, ip) && Contains(b, ip)
    ensures PrefixesOverlap(a, b)
  {
    if HostBits(a) <= HostBits(b) {
      CoarserAgrees(ip.bits, a.addr.bits, HostBits(a), HostBits(b));
    } else {
      CoarserAgrees(ip.bits, b.addr.bits, HostBits(b), HostBits(a));
    }
  }

  /** The overlap test is exact for all lengths, also with host bits set. */
  lemma OverlapExact(a: Prefix, b: Prefix)
    requires ValidPrefix(a) && ValidPrefix(b)
    ensures PrefixesOverlap(a, b) <==> ShareAddress(a, b)
  {
    if PrefixesOverlap(a, b) {
      var ip := if Contains(a, b.addr) then b.addr else a.addr;
      ContainsIsBlock(a, ip);
      ContainsIsBlock(b, ip);
    }
    if ShareAddress(a, b) {
      var ip :| ValidAddr(ip) && InBlock(a, ip) && InBlock(b, ip);
      ContainsIsBlock(a, ip);
      ContainsIsBlock(b, ip);
      SharedGivesOverlap(a, b, ip);
    }
  }

  // ----- the allocator -----

  const CANDIDATES := 4096
  const PRIVATE_BASE := 172 * 0x100_0000 + 16 * 0x1_0000
  const PRIVATE_12 := Prefix(V4(PRIVATE_BASE), 12)

  /** The address 172.second.third.0 of a candidate index. */
  function Candidate(index: nat): (p: Prefix)
    requires index < CANDIDATES
    ensures p == Prefix(V4(PRIVATE_BASE + index * 256), 24)
  {
    var second, third := 16 + index / 256, index % 256;
    Prefix(V4(172 * 0x100_0000 + second * 0x1_0000 + third * 0x100), 24)
  }

  lemma Pow2Values()
    ensures Pow2(8) == 256 && Pow2(20) == 0x10_0000 && Pow2(32) == 0x1_0000_0000
  {
    assert Pow2(4) == 16 && Pow2(8) == 16 * Pow2(4) && Pow2(12) == 16 * Pow2(8);
    assert Pow2(16) == 16 * Pow2(12) && Pow2(20) == 16 * Pow2(16) && Pow2(24) == 16 * Pow2(20);
    assert Pow2(28) == 16 * Pow2(24) && Pow2(32) == 16 * Pow2(28);
  }

  /** Every candidate is a valid /24 whose whole block lies in 172.16.0.0/12. */
  lemma CandidateInside(index: nat)
    requires index < CANDIDATES
    ensures ValidPrefix(Candidate(index))
    ensures forall ip: Addr :: InBlock(Candidate(index), ip) ==> InBlock(PRIVATE_12, ip)
    ensures Contains(Candidate(index), V4(Candidate(index).addr.bits + 1))
    ensures ValidAddr(V4(Candidate(index).addr.bits + 1))
  {
    Pow2Values();
    var p := Candidate(index);
    assert HostBits(p) == 8 && HostBits(PRIVATE_12) == 20;
    assert First(p) == p.addr.bits;
    assert First(PRIVATE_12) == PRIVATE_BASE;
  }

  /** No other /24 of 172.16.0.0/12 is left out: the candidates are all of them, each once. */
  lemma CandidatesAreAll(p: Prefix) returns (index: nat)
    requires p.addr.V4? && ValidPrefix(p) && p.len == 24 && p.addr.bits % 256 == 0
    requires InBlock(Prefix(V4(172 * 0x100_0000 + 16 * 0x1_0000), 12), p.addr)
    ensures index < CANDIDATES && Candidate(index) == p
    ensures forall other :: 0 <= other < CANDIDATES && Candidate(other) == p ==> other == index
  {
    Pow2Values();
    assert HostBits(PRIVATE_12) == 20 && First(PRIVATE_12) == PRIVATE_BASE;
    index := (p.addr.bits - PRIVATE_BASE) / 256;
  }

  ghost predicate InUse(listed: seq<seq<Option<Prefix>>>, p: Prefix) {
    exists i, j :: 0 <= i < |listed| && 0 <= j < |listed[i]| && listed[i][j] == Some(p)
  }

  ghost predicate Collides(listed: seq<seq<Option<Prefix>>>, index: nat)
    requires index < CANDIDATES
  {
    exists u :: InUse(listed, u) && u.len <= Width(u.addr) && PrefixesOverlap(Candidate(index), u)
  }

  /** The used list: every listed subnet that parses. */
  method UsedPrefixes(listed: seq<seq<Option<Prefix>>>) returns (used: seq<Prefix>)
    ensures forall p :: p in used <==> InUse(listed, p)
  {
    used := [];
    for i := 0 to |listed|
      invariant forall p :: p in used <==> InUse(listed[..i], p)
    {
      ghost var before := used;
      for j := 0 to |listed[i]|
        invariant forall p :: p in used <==> p in before || Some(p) in listed[i][..j]
      {
        if listed[i][j].Some? {
          used := used + [listed[i][j].value];
        }
        assert listed[i][..j + 1] == listed[i][..j] + [listed[i][j]];
      }
      forall p
        ensures p in used <==> InUse(listed[..i + 1], p)
      {
        if InUse(listed[..i], p) {
          var a, b :| 0 <= a < i && 0 <= b < |listed[..i][a]| && listed[..i][a][b] == Some(p);
          assert listed[..i + 1][a][b] == Some(p);
        }
        if InUse(listed[..i + 1], p) {
          var a, b :| 0 <= a < i + 1 && 0 <= b < |listed[..i + 1][a]| && listed[..i + 1][a][b] == Some(p);
          if a < i {
            assert listed[..i][a][b] == Some(p);
          }
        }
        if Some(p) in listed[i] {
          var b :| 0 <= b < |listed[i]| && listed[i][b] == Some(p);
          assert listed[..i + 1][i][b] == Some(p);
        }
        assert listed[i][..|listed[i]|] == listed[i];
      }
    }
    assert listed[..|listed|] == listed;
  }

  method FindCollision(prefix: Prefix, used: seq<Prefix>) returns (collision: bool)
    requires prefix.len <= Width(prefix.addr)
    requires forall u :: u in used ==> u.len <= Width(u.addr)
    ensures collision <==> exists u :: u in used && PrefixesOverlap(prefix, u)
  {
    collision := false;
    for k := 0 to |used|
      invariant !collision
      invariant forall m :: 0 <= m < k ==> !PrefixesOverlap(prefix, used[m])
    {
      if PrefixesOverlap(prefix, used[k]) {
        collision := true;
        break;
      }
    }
  }

  /** The candidate index tried at step i. */
  function Probe(start: nat, i: nat): (index: nat)
    ensures index < CANDIDATES
  {
    (start + i) % CANDIDATES
  }

  lemma ProbeCovers(start: nat, index: nat) returns (i: nat)
    requires index < CANDIDATES
    ensures i < CANDIDATES && Probe(start, i) == index
  {
    i := (index + CANDIDATES - start % CANDIDATES) % CANDIDATES;
  }

  /** The first free candidate in probe order, with its gateway; none only when all collide. */
  method AvailableNetworkSubnet(listed: seq<seq<Option<Prefix>>>, start: nat) returns (r: Option<(Prefix, Addr)>)
    requires start < 0x1_0000
    requires forall p :: InUse(listed, p) ==> ValidPrefix(p)
    ensures r.Some? ==> exists i: nat ::
                && i < CANDIDATES
                && r.value.0 == Candidate(Probe(start, i))
                && forall j :: 0 <= j < i ==> Collides(listed, Probe(start, j))
    ensures r.Some? ==> ValidPrefix(r.value.0) && r.value.0.len == 24 && r.value.0.addr.V4?
    ensures r.Some? ==> forall u :: InUse(listed, u) ==> ValidPrefix(u) && !ShareAddress(r.value.0, u)
    ensures r.Some? ==> forall ip: Addr :: InBlock(r.value.0, ip) ==> InBlock(PRIVATE_12, ip)
    ensures r.Some? ==> ValidAddr(r.value.1) && r.value.1 == V4(r.value.0.addr.bits + 1) && Contains(r.value.0, r.value.1)
    ensures r.None? ==> forall index :: 0 <= index < CANDIDATES ==> Collides(listed, index)
  {
    var used := UsedPrefixes(listed);
    for i := 0 to CANDIDATES
      invariant forall j :: 0 <= j < i ==> Collides(listed, Probe(start, j))
    {
      var index := Probe(start, i);
      var prefix := Candidate(index);
      var collision := FindCollision(prefix, used);
      if !collision {
        CandidateInside(index);
        forall u | InUse(listed, u)
          ensures ValidPrefix(u) && !ShareAddress(prefix, u)
        {
          OverlapExact(prefix, u);
        }
        return Some((prefix, V4(prefix.addr.bits + 1)));
      }
    }
    forall index | 0 <= index < CANDIDATES
      ensures Collides(listed, index)
    {
      var i := ProbeCovers(start, index);
    }
    r := None;
  }
}
