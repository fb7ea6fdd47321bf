/**
 * Replacing the bots' firewall chain call by call: the new chain is built under a temporary name and
 * the jump to it put in front before the old chain is dropped. Any call may fail, and a failed call
 * changes nothing; `history` records the kernel's chains after every call.
 */
module Firewall {

  import opened Options

  type Octet = n: int | 0 <= n < 256

  datatype Ip = Ip(a: Octet, b: Octet, c: Octet, d: Octet)

  /** All addresses whose first `bits` bits are the base's. */
  datatype Net = Net(base: Ip, bits: nat)

  /** What a rule may ask of a packet. */
  datatype Cond = Established | DnsTo(ip: Ip, proto: string) | To(net: Net) | Any

  /** A packet, as the set of the conditions it meets. */
  type Packet = set<Cond>

  /** A rule: a packet that meets the condition is dropped, or else leaves the chain it is in. */
  datatype Filter = Filter(cond: Cond, drop: bool)

  /** The chain's own name, and that name with "-NEW". */
  datatype Target = Named | Temporary

  /** A rule of the parent chain: the jump for packets from the bot bridge, or something of someone else's. */
  datatype ParentRule = Jump(to: Target) | Other(rule: Filter)

  type Chain = seq<Filter>

  datatype Kernel = Kernel(parent: seq<ParentRule>, named: Option<Chain>, temporary: Option<Chain>)

  function ChainOf(k: Kernel, t: Target): Option<Chain> {
    if t.Named? then k.named else k.temporary
  }

  /** A chain that is jumped to exists: the kernel sees to that. */
  predicate ValidKernel(k: Kernel) {
    forall i :: 0 <= i < |k.parent| && k.parent[i].Jump? ==> ChainOf(k, k.parent[i].to).Some?
  }

  /** Whether a bot chain drops a packet; if not, the packet goes back to the parent. */
  predicate Drops(c: Chain, p: Packet) {
    c != [] && if c[0].cond in p then c[0].drop else Drops(c[1..], p)
  }

  /** Whether the parent chain drops a packet from the bot bridge. */
  predicate Filtered(parent: seq<ParentRule>, named: Chain, temporary: Chain, p: Packet) {
    parent != [] &&
    match parent[0]
    case Jump(t) => Drops(if t.Named? then named else temporary, p) || Filtered(parent[1..], named, temporary, p)
    case Other(r) => if r.cond in p then r.drop else Filtered(parent[1..], named, temporary, p)
  }

  function OrEmpty(c: Option<Chain>): Chain { if c.Some? then c.value else [] }

  predicate Blocked(k: Kernel, p: Packet) { Filtered(k.parent, OrEmpty(k.named), OrEmpty(k.temporary), p) }

  /** The parent chain without its jumps to one chain. */
  function Without(parent: seq<ParentRule>, t: Target): (r: seq<ParentRule>)
    ensures |r| <= |parent|
    ensures Jump(t) !in parent ==> r == parent
    ensures Jump(t) !in r
    ensures forall x :: x in r ==> x in parent
  {
    if parent == [] then []
    else if parent[0] == Jump(t) then Without(parent[1..], t)
    else [parent[0]] + Without(parent[1..], t)
  }

  function Others(parent: seq<ParentRule>): seq<ParentRule> { Without(Without(parent, Named), Temporary) }

  /** The jumps follow a chain that is renamed. */
  function Renamed(parent: seq<ParentRule>): (r: seq<ParentRule>)
    ensures |r| == |parent|
    ensures forall i :: 0 <= i < |parent| ==> r[i] == if parent[i] == Jump(Temporary) then Jump(Named) else parent[i]
  {
    if parent == [] then []
    else [if parent[0] == Jump(Temporary) then Jump(Named) else parent[0]] + Renamed(parent[1..])
  }

  lemma {:induction false} WithoutConcat(a: seq<ParentRule>, b: seq<ParentRule>, t: Target)
    ensures Without(a + b, t) == Without(a, t) + Without(b, t)
  {
    if a == [] {
      assert a + b == b;
    } else {
      assert (a + b)[1..] == a[1..] + b;
      WithoutConcat(a[1..], b, t);
    }
  }

  /** Taking one jump out leaves everything but the jumps to that chain as it was. */
  lemma WithoutOne(parent: seq<ParentRule>, i: nat, t: Target)
    requires i < |parent| && parent[i] == Jump(t)
    ensures Without(parent[..i] + parent[i + 1..], t) == Without(parent, t)
  {
    var rest := parent[i + 1..];
    assert parent == parent[..i] + ([Jump(t)] + rest) && ([Jump(t)] + rest)[1..] == rest;
    WithoutConcat(parent[..i], rest, t);
    WithoutConcat(parent[..i], [Jump(t)] + rest, t);
  }

  lemma {:induction false} WithoutCommutes(parent: seq<ParentRule>)
    ensures Without(Without(parent, Named), Temporary) == Without(Without(parent, Temporary), Named)
  {
    if parent != [] {
      WithoutCommutes(parent[1..]);
      var x := [parent[0]];
      WithoutConcat(x, Without(parent[1..], Named), Temporary);
      WithoutConcat(x, Without(parent[1..], Temporary), Named);
    }
  }

  // ---------- The rules ----------

  /** Where traffic of a bot must not go. */
  const BLOCKED_NETS: seq<Net> := [
    Net(Ip(10, 0, 0, 0), 8), Net(Ip(172, 16, 0, 0), 12), Net(Ip(192, 168, 0, 0), 16), Net(Ip(169, 254, 0, 0), 16),
    Net(Ip(100, 64, 0, 0), 10), Net(Ip(0, 0, 0, 0), 8), Net(Ip(127, 0, 0, 0), 8), Net(Ip(224, 0, 0, 0), 4),
    Net(Ip(240, 0, 0, 0), 4), Net(Ip(198, 18, 0, 0), 15)]

  function Number(ip: Ip): nat { ((ip.a * 256 + ip.b) * 256 + ip.c) * 256 + ip.d }

  /** How many addresses share their first `bits` bits. */
  function BlockSize(bits: nat): nat
    decreases 32 - bits
  {
    if bits >= 32 then 1 else 2 * BlockSize(bits + 1)
  }

  lemma {:induction false} BlockSizePositive(bits: nat)
    ensures BlockSize(bits) > 0
    decreases 32 - bits
  {
    if bits < 32 { BlockSizePositive(bits + 1); }
  }

  predicate InNet(ip: Ip, n: Net) {
    BlockSizePositive(n.bits);
    Number(ip) / BlockSize(n.bits) == Number(n.base) / BlockSize(n.bits)
  }

  /** Addresses a bot has no business with: private, loopback, link-local, shared, benchmarking, multicast and reserved ones. */
  predicate IsLocal(ip: Ip) {
    || ip.a == 10 || (ip.a == 172 && 16 <= ip.b <= 31) || (ip.a == 192 && ip.b == 168) || (ip.a == 169 && ip.b == 254)
    || (ip.a == 100 && 64 <= ip.b <= 127) || ip.a == 0 || ip.a == 127 || ip.a >= 224 || (ip.a == 198 && 18 <= ip.b <= 19)
  }

  lemma BlockSizes()
    ensures BlockSize(16) == 0x1_0000 && BlockSize(15) == 0x2_0000 && BlockSize(12) == 0x10_0000
    ensures BlockSize(10) == 0x40_0000 && BlockSize(8) == 0x100_0000 && BlockSize(4) == 0x1000_0000
  {
    assert BlockSize(28) == 16;
    assert BlockSize(24) == 256;
    assert BlockSize(20) == 4096;
    assert BlockSize(16) == 0x1_0000;
    assert BlockSize(12) == 0x10_0000;
    assert BlockSize(8) == 0x100_0000;
  }

  /** What the first bits of an address are, by its octets. */
  lemma FirstBits(ip: Ip, base: Ip)
    requires base.c == 0 && base.d == 0
    ensures InNet(ip, Net(base, 16)) <==> ip.a == base.a && ip.b == base.b
    ensures InNet(ip, Net(base, 8)) <==> ip.a == base.a
    ensures InNet(ip, Net(base, 4)) <==> ip.a / 16 == base.a / 16
  {
    BlockSizes();
    hide BlockSize, Number, InNet;
    FirstOctets(ip);
    FirstOctets(base);
    InNetIs(ip, base, 16, 0x1_0000);
    InNetIs(ip, base, 8, 0x100_0000);
    InNetIs(ip, base, 4, 0x1000_0000);
  }

  lemma FirstOddBits(ip: Ip, base: Ip)
    requires base.c == 0 && base.d == 0
    ensures InNet(ip, Net(base, 15)) <==> ip.a == base.a && ip.b / 2 == base.b / 2
    ensures InNet(ip, Net(base, 12)) <==> ip.a == base.a && ip.b / 16 == base.b / 16
    ensures InNet(ip, Net(base, 10)) <==> ip.a == base.a && ip.b / 64 == base.b / 64
  {
    BlockSizes();
    hide BlockSize, Number, InNet;
    FirstOctets(ip);
    FirstOctets(base);
    InNetIs(ip, base, 15, 0x2_0000);
    InNetIs(ip, base, 12, 0x10_0000);
    InNetIs(ip, base, 10, 0x40_0000);
  }

  lemma InNetIs(ip: Ip, base: Ip, bits: nat, size: nat)
    requires BlockSize(bits) == size > 0
    ensures InNet(ip, Net(base, bits)) <==> Number(ip) / size == Number(base) / size
  {
  }

  lemma FirstOctets(ip: Ip)
    ensures Number(ip) / 0x1_0000 == ip.a * 256 + ip.b && Number(ip) / 0x2_0000 == ip.a * 128 + ip.b / 2
    ensures Number(ip) / 0x10_0000 == ip.a * 16 + ip.b / 16 && Number(ip) / 0x40_0000 == ip.a * 4 + ip.b / 64
    ensures Number(ip) / 0x100_0000 == ip.a && Number(ip) / 0x1000_0000 == ip.a / 16
  {
  }

  /** The blocked nets are exactly these. */
  lemma BlockedIsLocal(ip: Ip)
    ensures (exists n :: n in BLOCKED_NETS && InNet(ip, n)) <==> IsLocal(ip)
  {
    forall n | n in BLOCKED_NETS ensures InNet(ip, n) ==> IsLocal(ip) {
      FirstBits(ip, n.base);
      FirstOddBits(ip, n.base);
      hide InNet;
    }
    if IsLocal(ip) {
      var k :=
        if ip.a == 10 then 0 else if ip.a == 172 then 1 else if ip.a == 192 then 2 else if ip.a == 169 then 3 else if ip.a == 100 then 4
        else if ip.a == 0 then 5 else if ip.a == 127 then 6 else if ip.a == 198 then 9 else if ip.a >= 240 then 8 else 7;
      FirstBits(ip, BLOCKED_NETS[k].base);
      FirstOddBits(ip, BLOCKED_NETS[k].base);
      hide InNet;
      assert BLOCKED_NETS[k] in BLOCKED_NETS && InNet(ip, BLOCKED_NETS[k]);
    }
  }

  /** A packet to this address. */
  ghost predicate AddressedTo(p: Packet, ip: Ip) {
    Any in p && forall n: Net :: To(n) in p <==> InNet(ip, n)
  }

  /** Part of an established connection, or a question to an allowed resolver. */
  predicate LetThrough(p: Packet, dns: seq<Ip>) {
    Established in p || exists ip :: ip in dns && (DnsTo(ip, "udp") in p || DnsTo(ip, "tcp") in p)
  }

  predicate ToBlocked(p: Packet, nets: seq<Net>) { exists n :: n in nets && To(n) in p }

  predicate Matches(c: Chain, p: Packet) { exists i :: 0 <= i < |c| && c[i].cond in p }

  lemma MatchesConcat(a: Chain, b: Chain, p: Packet)
    ensures Matches(a + b, p) <==> Matches(a, p) || Matches(b, p)
  {
    var c := a + b;
    assert forall i :: 0 <= i < |a| ==> c[i] == a[i];
    assert forall i :: 0 <= i < |b| ==> c[|a| + i] == b[i];
  }

  lemma {:induction false} DropsConcat(a: Chain, b: Chain, p: Packet)
    ensures Matches(a + b, p) <==> Matches(a, p) || Matches(b, p)
    ensures Drops(a + b, p) <==> Drops(a, p) || (!Matches(a, p) && Drops(b, p))
  {
    MatchesConcat(a, b, p);
    if a == [] {
      assert a + b == b;
    } else {
      assert (a + b)[1..] == a[1..] + b && a == [a[0]] + a[1..];
      MatchesConcat([a[0]], a[1..], p);
      assert Matches([a[0]], p) <==> [a[0]][0].cond in p;
      DropsConcat(a[1..], b, p);
    }
  }

  /** The rules both chains begin with: they match exactly what is let through, and drop nothing. */
  method LettingRules(dns: seq<Ip>) returns (rules: Chain)
    ensures forall p: Packet :: Matches(rules, p) <==> LetThrough(p, dns)
    ensures forall p: Packet :: !Drops(rules, p)
  {
    rules := [Filter(Established, false)];
    assert forall p: Packet :: Matches(rules, p) <==> rules[0].cond in p;
    for k := 0 to |dns|
      invariant forall p: Packet :: Matches(rules, p) <==> LetThrough(p, dns[..k])
      invariant forall p: Packet :: !Drops(rules, p)
    {
      var hole := [Filter(DnsTo(dns[k], "udp"), false), Filter(DnsTo(dns[k], "tcp"), false)];
      forall p: Packet
        ensures Matches(rules + hole, p) <==> LetThrough(p, dns[..k + 1])
        ensures !Drops(rules + hole, p)
      {
        DropsConcat(rules, hole, p);
        assert Matches(hole, p) <==> hole[0].cond in p || hole[1].cond in p;
        assert dns[..k + 1] == dns[..k] + [dns[k]];
        assert hole[1..] == [hole[1]] && !Drops(hole[1..], p);
      }
      rules := rules + hole;
    }
    assert dns[..|dns|] == dns;
  }

  /** Forwarded traffic of a bot is dropped exactly if it is bound for a blocked net and not let through. */
  method EgressRules(dns: seq<Ip>) returns (rules: Chain)
    ensures forall p: Packet | Any in p :: Drops(rules, p) <==> !LetThrough(p, dns) && ToBlocked(p, BLOCKED_NETS)
    ensures rules != [] && rules[|rules| - 1] == Filter(Any, false)
  {
    rules := LettingRules(dns);
    ghost var letting := rules;
    for k := 0 to |BLOCKED_NETS|
      invariant forall p: Packet :: Matches(rules, p) <==> LetThrough(p, dns) || ToBlocked(p, BLOCKED_NETS[..k])
      invariant forall p: Packet :: Drops(rules, p) <==> !LetThrough(p, dns) && ToBlocked(p, BLOCKED_NETS[..k])
    {
      hide LetThrough;
      var net := [Filter(To(BLOCKED_NETS[k]), true)];
      forall p: Packet
        ensures Matches(rules + net, p) <==> LetThrough(p, dns) || ToBlocked(p, BLOCKED_NETS[..k + 1])
        ensures Drops(rules + net, p) <==> !LetThrough(p, dns) && ToBlocked(p, BLOCKED_NETS[..k + 1])
      {
        DropsConcat(rules, net, p);
        assert Matches(net, p) <==> net[0].cond in p;
        assert BLOCKED_NETS[..k + 1] == BLOCKED_NETS[..k] + [BLOCKED_NETS[k]];
      }
      rules := rules + net;
    }
    assert BLOCKED_NETS[..|BLOCKED_NETS|] == BLOCKED_NETS;
    forall p: Packet | Any in p
      ensures Drops(rules + [Filter(Any, false)], p) <==> !LetThrough(p, dns) && ToBlocked(p, BLOCKED_NETS)
    {
      DropsConcat(rules, [Filter(Any, false)], p);
    }
    rules := rules + [Filter(Any, false)];
  }

  /** By address: what leaves a bot is dropped exactly if it is bound for a local address and not let through. */
  method EgressByAddress(dns: seq<Ip>) returns (rules: Chain)
    ensures forall p: Packet, ip: Ip | AddressedTo(p, ip) :: Drops(rules, p) <==> IsLocal(ip) && !LetThrough(p, dns)
  {
    rules := EgressRules(dns);
    hide Drops, LetThrough, InNet, IsLocal, BLOCKED_NETS;
    forall p: Packet, ip: Ip | AddressedTo(p, ip)
      ensures Drops(rules, p) <==> IsLocal(ip) && !LetThrough(p, dns)
    {
      BlockedIsLocal(ip);
    }
  }

  /** The resolvers that get a hole: those that are IPv4 addresses inside a blocked net. */
  method Holes(dns: seq<Option<Ip>>) returns (holes: seq<Ip>)
    ensures forall ip :: ip in holes <==> Some(ip) in dns && IsLocal(ip)
  {
    hide InNet, IsLocal;
    holes := [];
    for k := 0 to |dns|
      invariant forall ip :: ip in holes <==> Some(ip) in dns[..k] && IsLocal(ip)
    {
      if dns[k].Some? {
        var found := false;
        for j := 0 to |BLOCKED_NETS|
          invariant found <==> exists n :: n in BLOCKED_NETS[..j] && InNet(dns[k].value, n)
        {
          if InNet(dns[k].value, BLOCKED_NETS[j]) { found := true; }
        }
        assert BLOCKED_NETS[..|BLOCKED_NETS|] == BLOCKED_NETS;
        BlockedIsLocal(dns[k].value);
        if found { holes := holes + [dns[k].value]; }
      }
    }
    assert dns[..|dns|] == dns;
  }

  /** So a bot reaches every resolver it is given, wherever that is, and nothing else at a local address unless it was asked from there. */
  method ResolversAreReached(dns: seq<Option<Ip>>) returns (rules: Chain)
    ensures forall p: Packet, ip: Ip | AddressedTo(p, ip) && Some(ip) in dns && (DnsTo(ip, "udp") in p || DnsTo(ip, "tcp") in p) :: !Drops(rules, p)
    ensures forall p: Packet, ip: Ip | AddressedTo(p, ip) && IsLocal(ip) && Established !in p && (forall to, proto :: DnsTo(to, proto) !in p) :: Drops(rules, p)
  {
    var holes := Holes(dns);
    rules := EgressByAddress(holes);
    hide Drops, AddressedTo, IsLocal;
  }

  /** Everything a bot sends to the host itself is dropped unless it is let through. */
  method InputRules(dns: seq<Ip>) returns (rules: Chain)
    ensures forall p: Packet | Any in p :: Drops(rules, p) <==> !LetThrough(p, dns)
  {
    rules := LettingRules(dns);
    forall p: Packet | Any in p
      ensures Drops(rules + [Filter(Any, true)], p) <==> !LetThrough(p, dns)
    {
      DropsConcat(rules, [Filter(Any, true)], p);
    }
    rules := rules + [Filter(Any, true)];
  }

  // ---------- What keeps the bots filtered ----------

  /** The old chain stands, and the parent chain is as it was but for jumps to the temporary chain. */
  predicate OldInPlace(k: Kernel, was: Kernel) {
    && k.named == was.named
    && Without(k.parent, Temporary) == Without(was.parent, Temporary)
  }

  /** What the old chain drops is all that is dropped. */
  predicate OnlyOldInForce(k: Kernel, was: Kernel) {
    k.named == was.named && k.parent == Without(was.parent, Temporary)
  }

  /** The new chain is complete and the first thing the parent chain does. */
  predicate NewInFront(k: Kernel, complete: Chain) {
    && k.parent != [] && k.parent[0].Jump?
    && ChainOf(k, k.parent[0].to) == Some(complete)
  }

  /** The new chain's rules, behind whatever an earlier, failed replacement left and could not be cleared. */
  predicate IsComplete(c: Chain, was: Kernel, rules: Chain) {
    c == rules || c == OrEmpty(was.temporary) + rules
  }

  /** Either chain is in force, and the parent's other rules are untouched and in order. */
  ghost predicate Guarded(k: Kernel, was: Kernel, rules: Chain) {
    && Others(k.parent) == Others(was.parent)
    && (OldInPlace(k, was) || exists c :: IsComplete(c, was, rules) && NewInFront(k, c))
  }

  lemma OldIsGuarded(k: Kernel, was: Kernel, rules: Chain)
    requires OldInPlace(k, was)
    ensures Guarded(k, was, rules)
  {
    WithoutCommutes(k.parent);
    WithoutCommutes(was.parent);
  }

  lemma {:induction false} OthersRenamed(parent: seq<ParentRule>)
    requires Jump(Named) !in parent
    ensures Others(Renamed(parent)) == Others(parent)
    ensures Others(parent) == Without(parent, Temporary)
    ensures Jump(Temporary) !in parent ==> Renamed(parent) == parent
  {
    if parent != [] {
      OthersRenamed(parent[1..]);
      assert Renamed(parent)[1..] == Renamed(parent[1..]);
      if parent[0] != Jump(Temporary) {
        var x := [parent[0]];
        WithoutConcat(x, Without(Renamed(parent[1..]), Named), Temporary);
      }
    }
  }

  /** Jumps to a chain that only drops or returns can only make the parent chain drop more. */
  lemma {:induction false} MoreJumpsDropMore(parent: seq<ParentRule>, named: Chain, temporary: Chain, p: Packet)
    requires Filtered(Without(parent, Temporary), named, [], p)
    ensures Filtered(parent, named, temporary, p)
  {
    var less := Without(parent, Temporary);
    if parent[0] == Jump(Temporary) {
      MoreJumpsDropMore(parent[1..], named, temporary, p);
    } else {
      assert less[0] == parent[0] && less[1..] == Without(parent[1..], Temporary);
      if Filtered(less[1..], named, [], p) { MoreJumpsDropMore(parent[1..], named, temporary, p); }
    }
  }

  /**
   * A packet that the new rules drop, and that was dropped without the help of a leftover temporary
   * chain, is dropped at every moment of a replacement that stays guarded.
   */
  lemma GuardedBlocks(k: Kernel, was: Kernel, rules: Chain, p: Packet)
    requires Guarded(k, was, rules)
    requires Filtered(Without(was.parent, Temporary), OrEmpty(was.named), [], p)
    requires Drops(rules, p) && Drops(OrEmpty(was.temporary) + rules, p)
    ensures Blocked(k, p)
  {
    if OldInPlace(k, was) {
      MoreJumpsDropMore(k.parent, OrEmpty(k.named), OrEmpty(k.temporary), p);
    } else {
      var c :| IsComplete(c, was, rules) && NewInFront(k, c);
    }
  }

  /**
   * "Traffic is never unfiltered" holds exactly if it was dropped without the temporary chain's help: a
   * replacement without a failure passes through a state where nothing else drops it.
   */
  lemma LeftoverAloneLeaks(k: Kernel, was: Kernel, p: Packet)
    requires OnlyOldInForce(k, was)
    ensures Blocked(k, p) <==> Filtered(Without(was.parent, Temporary), OrEmpty(was.named), [], p)
  {
    UnusedChain(k.parent, OrEmpty(k.named), OrEmpty(k.temporary), p);
  }

  lemma {:induction false} UnusedChain(parent: seq<ParentRule>, named: Chain, temporary: Chain, p: Packet)
    requires Jump(Temporary) !in parent
    ensures Filtered(parent, named, temporary, p) == Filtered(parent, named, [], p)
  {
    if parent != [] { UnusedChain(parent[1..], named, temporary, p); }
  }

  /** What is left when everything but the renaming works: the new chain under the temporary name, jumped to first of all. */
  function LeftBehind(k: Kernel, rules: Chain): Kernel {
    Kernel([Jump(Temporary)] + Others(k.parent), None, Some(rules))
  }

  /** That drops what the rules drop; with only its old chain in force, nothing but the parent's other rules drops anything. */
  lemma LeftBehindLeaks(start: Kernel, rules: Chain, k: Kernel, p: Packet)
    requires Drops(rules, p) && OnlyOldInForce(k, LeftBehind(start, rules))
    ensures Blocked(LeftBehind(start, rules), p)
    ensures Blocked(k, p) <==> Filtered(Others(start.parent), [], [], p)
  {
    var was, others := LeftBehind(start, rules), Others(start.parent);
    assert was.parent[1..] == others && Without(was.parent, Temporary) == others;
    LeftoverAloneLeaks(k, was, p);
  }

  /** The temporary chain stands, is jumped to first of all, and only jumps to the old chain were taken out. */
  predicate NewInPlace(k: Kernel, was: Kernel) {
    && k.temporary == was.temporary
    && Without(k.parent, Named) == Without(was.parent, Named)
    && k.parent != [] && k.parent[0] == Jump(Temporary)
  }

  /** Only jumps to this chain were taken out of the parent chain, and nothing else changed. */
  predicate JumpsDeleted(k: Kernel, was: Kernel, t: Target) {
    && k == was.(parent := k.parent)
    && Without(k.parent, t) == Without(was.parent, t)
    && (was.parent != [] && was.parent[0] != Jump(t) ==> k.parent != [] && k.parent[0] == was.parent[0])
  }

  lemma JumpsGone(k: Kernel, was: Kernel)
    requires NewInPlace(was, was) && JumpsDeleted(k, was, Named)
    ensures NewInPlace(k, was)
  {
  }

  lemma NoneDeleted(k: Kernel, t: Target)
    ensures JumpsDeleted(k, k, t)
  {
  }

  lemma OneDeleted(k: Kernel, was: Kernel, t: Target, i: nat)
    requires ValidKernel(k) && JumpsDeleted(k, was, t) && i < |k.parent| && k.parent[i] == Jump(t)
    ensures var next := k.(parent := k.parent[..i] + k.parent[i + 1..]); ValidKernel(next) && JumpsDeleted(next, was, t)
  {
    WithoutOne(k.parent, i, t);
  }

  function IndexOf(s: seq<ParentRule>, x: ParentRule): (i: nat)
    requires x in s
    ensures i < |s| && s[i] == x
  {
    if s[0] == x then 0 else 1 + IndexOf(s[1..], x)
  }

  // ---------- Steps of a replacement ----------

  lemma AllOldGuarded(h: seq<Kernel>, n: nat, was: Kernel, rules: Chain)
    requires forall i :: n <= i < |h| ==> OldInPlace(h[i], was)
    ensures forall i :: n <= i < |h| ==> Guarded(h[i], was, rules)
  {
    hide OldInPlace, Guarded;
    forall i | n <= i < |h| ensures Guarded(h[i], was, rules) { OldIsGuarded(h[i], was, rules); }
  }

  lemma AllOldKept(h: seq<Kernel>, n: nat, k: Kernel, was: Kernel)
    requires OldInPlace(k, was) && forall i :: n <= i < |h| ==> OldInPlace(h[i], k)
    ensures forall i :: n <= i < |h| ==> OldInPlace(h[i], was)
  {
  }

  lemma ClearedIsOld(k: Kernel, was: Kernel)
    requires OldInPlace(k, was) && Jump(Temporary) !in k.parent
    ensures OnlyOldInForce(k, was)
  {
  }

  lemma CompleteChain(k: Kernel, was: Kernel, rules: Chain)
    requires k.temporary == Some([]) || (was.temporary.Some? && k.temporary == was.temporary)
    ensures k.temporary.Some? && IsComplete(k.temporary.value + rules, was, rules)
  {
    assert [] + rules == rules;
  }

  lemma FrontInserted(k: Kernel, was: Kernel, rules: Chain)
    requires ValidKernel(k) && OldInPlace(k, was) && k.temporary.Some? && IsComplete(k.temporary.value, was, rules)
    ensures var next := k.(parent := [Jump(Temporary)] + k.parent);
            ValidKernel(next) && NewInPlace(next, next) && Guarded(next, was, rules) && Others(next.parent) == Others(was.parent)
            && next.parent[1..] == k.parent
  {
    var next := k.(parent := [Jump(Temporary)] + k.parent);
    assert next.parent[1..] == k.parent;
    WithoutCommutes(next.parent);
    OldIsGuarded(k, was, rules);
    WithoutCommutes(k.parent);
    assert NewInFront(next, k.temporary.value);
  }

  lemma NewStaysGuarded(k: Kernel, built: Kernel, was: Kernel, rules: Chain)
    requires NewInPlace(k, built) && built.temporary.Some? && IsComplete(built.temporary.value, was, rules)
    requires Others(built.parent) == Others(was.parent)
    ensures Guarded(k, was, rules) && Others(k.parent) == Others(was.parent)
  {
    assert NewInFront(k, built.temporary.value);
  }

  lemma AllNewGuarded(h: seq<Kernel>, n: nat, built: Kernel, was: Kernel, rules: Chain)
    requires forall i :: n <= i < |h| ==> NewInPlace(h[i], built)
    requires built.temporary.Some? && IsComplete(built.temporary.value, was, rules)
    requires Others(built.parent) == Others(was.parent)
    ensures forall i :: n <= i < |h| ==> Guarded(h[i], was, rules)
  {
    hide NewInPlace, Guarded, Others, IsComplete;
    forall i | n <= i < |h| ensures Guarded(h[i], was, rules) { NewStaysGuarded(h[i], built, was, rules); }
  }

  /** The renaming: the jumps follow, so the new chain stays in force. */
  lemma NewRenamed(k: Kernel, built: Kernel, was: Kernel, rules: Chain, cleared: bool)
    requires ValidKernel(k) && k.named.None? && NewInPlace(k, built)
    requires built.temporary.Some? && IsComplete(built.temporary.value, was, rules)
    requires Others(built.parent) == Others(was.parent) && built.parent != [] && built.parent[0] == Jump(Temporary)
    requires cleared ==> built.temporary == Some(rules) && Jump(Temporary) !in built.parent[1..]
    ensures var next := Kernel(Renamed(k.parent), k.temporary, None);
            && ValidKernel(next) && Guarded(next, was, rules) && k.temporary == built.temporary
            && next.parent != [] && next.parent[0] == Jump(Named)
            && (cleared ==> next == Kernel([Jump(Named)] + Others(was.parent), Some(rules), None) && k == LeftBehind(was, rules))
  {
    var next := Kernel(Renamed(k.parent), k.temporary, None);
    NewStaysGuarded(k, built, was, rules);
    RenamedIsValid(k);
    hide ValidKernel, IsComplete, Without, Others;
    OthersRenamed(k.parent);
    assert NewInFront(next, k.temporary.value);
    if cleared { OneJumpLeft(k.parent, built.parent); }
  }

  lemma RenamedIsValid(k: Kernel)
    requires ValidKernel(k) && k.named.None? && k.temporary.Some?
    ensures ValidKernel(Kernel(Renamed(k.parent), k.temporary, None)) && Jump(Named) !in k.parent
  {
  }

  lemma OneJumpLeft(parent: seq<ParentRule>, built: seq<ParentRule>)
    requires Without(parent, Named) == Without(built, Named) && Jump(Named) !in parent
    requires built != [] && built[0] == Jump(Temporary) && Jump(Temporary) !in built[1..]
    ensures Renamed(parent) == [Jump(Named)] + Others(built) && parent == [Jump(Temporary)] + Others(built)
  {
    var o := Without(built[1..], Named);
    assert parent == [Jump(Temporary)] + o;
    assert parent[1..] == o && Without(parent, Temporary) == o;
    RenamedNone(o);
  }

  lemma {:induction false} RenamedNone(parent: seq<ParentRule>)
    requires Jump(Temporary) !in parent
    ensures Renamed(parent) == parent
  {
    if parent != [] { RenamedNone(parent[1..]); }
  }

  // ---------- The calls ----------

  class Iptables {
    /** Which calls fail, by the order they are made in; and whether a renaming fails. */
    const fails: nat -> bool
    const renameFails: bool

    var kernel: Kernel
    var calls: nat
    ghost var history: seq<Kernel>

    constructor (fails: nat -> bool, renameFails: bool, kernel: Kernel)
      requires ValidKernel(kernel)
      ensures this.fails == fails && this.renameFails == renameFails && this.kernel == kernel && calls == 0 && history == [kernel]
    {
      this.fails, this.renameFails, this.kernel, calls, history := fails, renameFails, kernel, 0, [kernel];
    }

    /** Every call but a renaming works. */
    ghost predicate NoFaults() { forall n: nat :: !fails(n) }

    /** One call: it changes the kernel to `next` if `possible`, unless it fails. */
    method Call(possible: bool, next: Kernel) returns (ok: bool)
      requires ValidKernel(kernel) && (possible ==> ValidKernel(next))
      modifies this
      ensures ok ==> possible && kernel == next
      ensures !ok ==> kernel == old(kernel)
      ensures ok <==> possible && !fails(old(calls))
      ensures calls == old(calls) + 1
      ensures history == old(history) + [kernel] && ValidKernel(kernel)
    {
      ok := possible && !fails(calls);
      calls := calls + 1;
      if ok { kernel := next; }
      history := history + [kernel];
    }

    /** Whether a chain can be listed. */
    method Exists(t: Target) returns (ok: bool)
      requires ValidKernel(kernel)
      modifies this
      ensures kernel == old(kernel) && history == old(history) + [kernel] && calls == old(calls) + 1
      ensures ok ==> ChainOf(kernel, t).Some?
      ensures NoFaults() ==> ok == ChainOf(kernel, t).Some?
    {
      ok := Call(ChainOf(kernel, t).Some?, kernel);
    }

    /** Takes out the jumps to a chain, one after another, until there is none left or a call fails. */
    method DeleteJumps(t: Target) returns (ok: bool)
      requires ValidKernel(kernel)
      modifies this
      ensures ValidKernel(kernel) && JumpsDeleted(kernel, old(kernel), t)
      ensures old(history) < history && history[|history| - 1] == kernel
      ensures forall i :: |old(history)| <= i < |history| ==> JumpsDeleted(history[i], old(kernel), t)
      ensures NoFaults() ==> ok && Jump(t) !in kernel.parent
      // It gives up only on a deletion that fails, after the check that found a jump; a check that fails ends it as well.
      ensures calls > old(calls) && (ok <==> (calls - old(calls)) % 2 == 1)
      ensures Jump(t) in kernel.parent ==> fails(calls - 1)
      ensures !ok ==> fails(calls - 1)
    {
      ghost var was := kernel;
      hide ValidKernel, JumpsDeleted;
      NoneDeleted(was, t);
      while true
        invariant ValidKernel(kernel) && JumpsDeleted(kernel, was, t)
        invariant old(history) <= history
        invariant forall i :: |old(history)| <= i < |history| ==> JumpsDeleted(history[i], was, t)
        invariant calls >= old(calls) && (calls - old(calls)) % 2 == 0
        decreases |kernel.parent|
      {
        var found := Call(Jump(t) in kernel.parent, kernel);
        if !found { return true; }
        var i := IndexOf(kernel.parent, Jump(t));
        OneDeleted(kernel, was, t, i);
        var deleted := Call(true, kernel.(parent := kernel.parent[..i] + kernel.parent[i + 1..]));
        if !deleted { return false; }
      }
    }

    /** Makes an empty temporary chain, or clears a leftover one; failures to clear are ignored. */
    method PrepareTemporary() returns (ok: bool)
      requires ValidKernel(kernel)
      modifies this
      ensures ValidKernel(kernel) && OldInPlace(kernel, old(kernel))
      ensures old(history) <= history && forall i :: |old(history)| <= i < |history| ==> OldInPlace(history[i], old(kernel))
      ensures ok ==> kernel.temporary == Some([]) || (old(kernel).temporary.Some? && kernel.temporary == old(kernel).temporary)
      ensures ok && old(kernel).temporary.None? ==> Jump(Temporary) !in kernel.parent
      ensures NoFaults() ==> ok && kernel.temporary == Some([]) && Jump(Temporary) !in kernel.parent
      ensures |old(history)| < |history| && history[|history| - 1] == kernel
    {
      var exists_ := Exists(Temporary);
      if exists_ {
        var _ := DeleteJumps(Temporary);
        var _ := Call(true, kernel.(temporary := Some([])));
        return true;
      }
      ok := Call(kernel.temporary.None?, kernel.(temporary := Some([])));
    }

    method AppendRules(rules: Chain) returns (ok: bool)
      requires ValidKernel(kernel) && kernel.temporary.Some?
      requires history != [] && history[|history| - 1] == kernel
      modifies this
      ensures ValidKernel(kernel) && OldInPlace(kernel, old(kernel)) && kernel.parent == old(kernel).parent
      ensures old(history) <= history && forall i :: |old(history)| <= i < |history| ==> OldInPlace(history[i], old(kernel))
      ensures ok ==> kernel.temporary == Some(old(kernel).temporary.value + rules)
      ensures NoFaults() ==> ok
      ensures history[|history| - 1] == kernel
    {
      assert rules[..0] == [] && old(kernel).temporary.value + [] == old(kernel).temporary.value;
      for i := 0 to |rules|
        invariant ValidKernel(kernel) && kernel == old(kernel).(temporary := kernel.temporary) && kernel.temporary.Some?
        invariant kernel.temporary == Some(old(kernel).temporary.value + rules[..i])
        invariant history != [] && history[|history| - 1] == kernel
        invariant old(history) <= history && forall i :: |old(history)| <= i < |history| ==> OldInPlace(history[i], old(kernel))
      {
        var longer := kernel.temporary.value + [rules[i]];
        assert longer == old(kernel).temporary.value + rules[..i + 1];
        var appended := Call(true, kernel.(temporary := Some(longer)));
        if !appended { return false; }
      }
      assert rules[..|rules|] == rules;
      ok := true;
    }

    /** Drops the old chain, with the new one in front of the parent chain already. */
    method DropNamed() returns (ok: bool)
      requires ValidKernel(kernel) && NewInPlace(kernel, kernel)
      modifies this
      ensures ValidKernel(kernel) && NewInPlace(kernel, old(kernel))
      ensures old(history) <= history && forall i :: |old(history)| <= i < |history| ==> NewInPlace(history[i], old(kernel))
      ensures NoFaults() ==> ok && kernel.named.None?
    {
      ghost var was, h := kernel, |history|;
      var exists_ := Exists(Named);
      if !exists_ { return true; }
      ok := DeleteJumps(Named);
      forall i | h < i < |history| ensures NewInPlace(history[i], was) { JumpsGone(history[i], was); }
      assert history[|history| - 1] == kernel && NewInPlace(kernel, was);
      hide JumpsDeleted, Without;
      if !ok { return; }
      ok := Call(true, kernel.(named := Some([])));
      if !ok { return; }
      ok := Call(Jump(Named) !in kernel.parent && kernel.named == Some([]), kernel.(named := None));
    }

    /** Builds the new chain under the temporary name and puts the jump to it in front. */
    method BuildTemporary(rules: Chain) returns (ok: bool, ghost cleared: bool)
      requires ValidKernel(kernel)
      modifies this
      ensures ValidKernel(kernel) && old(history) < history && history[|history| - 1] == kernel
      ensures forall i :: |old(history)| <= i < |history| ==> Guarded(history[i], old(kernel), rules)
      ensures ok ==> NewInPlace(kernel, kernel) && kernel.parent != [] && kernel.parent[0] == Jump(Temporary)
      ensures ok ==> kernel.temporary.Some? && IsComplete(kernel.temporary.value, old(kernel), rules)
                     && Others(kernel.parent) == Others(old(kernel).parent)
      ensures ok && cleared ==> kernel.temporary == Some(rules) && Jump(Temporary) !in kernel.parent[1..]
      ensures ok && old(kernel).temporary.None? ==> cleared
      ensures NoFaults() ==> ok && cleared
      ensures NoFaults() ==> exists i :: |old(history)| <= i < |history| && OnlyOldInForce(history[i], old(kernel))
    {
      hide ValidKernel, OldInPlace, IsComplete, Guarded, Others, Without;
      ghost var was, h := kernel, |history|;
      ok := PrepareTemporary();
      cleared := kernel.temporary == Some([]) && Jump(Temporary) !in kernel.parent;
      AllOldGuarded(history, h, was, rules);
      if !ok { return; }
      if cleared { ClearedIsOld(kernel, was); }
      ghost var empty, n := kernel, |history|;
      assert cleared ==> OnlyOldInForce(history[n - 1], was);
      ok := AppendRules(rules);
      AllOldKept(history, n, empty, was);
      AllOldGuarded(history, n, was, rules);
      assert cleared ==> OnlyOldInForce(history[n - 1], was);
      if !ok { return; }
      CompleteChain(empty, was, rules);
      assert cleared ==> [] + rules == rules;
      FrontInserted(kernel, was, rules);
      ok := Call(true, kernel.(parent := [Jump(Temporary)] + kernel.parent));
      assert cleared ==> OnlyOldInForce(history[n - 1], was);
    }

    /**
     * Replaces the chain. At every moment, whichever calls fail, the parent chain jumps to the old chain
     * as it was or, first of all, to the complete new one. If it succeeds and a leftover was cleared,
     * there is exactly one jump, in front, to a chain with exactly these rules.
     */
    method ReplaceChain(rules: Chain) returns (ok: bool, ghost cleared: bool)
      requires ValidKernel(kernel)
      modifies this
      ensures ValidKernel(kernel) && Guarded(kernel, old(kernel), rules)
      ensures old(history) <= history
      ensures forall i :: |old(history)| <= i < |history| ==> Guarded(history[i], old(kernel), rules)
      ensures ok ==> kernel.temporary.None? && kernel.named.Some? && IsComplete(kernel.named.value, old(kernel), rules)
                     && kernel.parent != [] && kernel.parent[0] == Jump(Named)
      ensures ok && cleared ==> kernel == Kernel([Jump(Named)] + Others(old(kernel).parent), Some(rules), None)
      ensures ok && old(kernel).temporary.None? ==> cleared
      ensures NoFaults() ==> (ok <==> !renameFails) && cleared
      ensures NoFaults() && renameFails ==> kernel == LeftBehind(old(kernel), rules)
      ensures NoFaults() ==> exists i :: |old(history)| <= i < |history| && OnlyOldInForce(history[i], old(kernel))
    {
      hide ValidKernel, NewInPlace, IsComplete, Guarded, Others, Without, OnlyOldInForce;
      ghost var was := kernel;
      ok, cleared := BuildTemporary(rules);
      ghost var w: nat := 0;
      if NoFaults() { w :| |old(history)| <= w < |history| && OnlyOldInForce(history[w], was); }
      if !ok { return; }
      ghost var built, n := kernel, |history|;
      ok := DropNamed();
      AllNewGuarded(history, n, built, was, rules);
      NewStaysGuarded(kernel, built, was, rules);
      if !ok { return; }
      if kernel.named.None? { NewRenamed(kernel, built, was, rules, cleared); }
      ok := Call(kernel.named.None? && !renameFails, Kernel(Renamed(kernel.parent), kernel.temporary, None));
      assert NoFaults() ==> OnlyOldInForce(history[w], was);
    }
  }

  /**
   * From any kernel and for any rules: a replacement of which only the renaming fails, and another one of
   * which nothing does. In between the packets that the first one's rules drop are dropped; but the second
   * passes a state in which they are not, unless a rule of someone else drops them.
   */
  method FailedRenameLeaksNextTime(start: Kernel, rules: Chain, later: Chain)
    returns (left: Kernel, second: Iptables, ghost passed: Kernel)
    requires ValidKernel(start)
    ensures left == LeftBehind(start, rules)
    ensures second.history != [] && second.history[0] == left && passed in second.history
    ensures second.kernel == Kernel([Jump(Named)] + Others(start.parent), Some(later), None)
    ensures forall p: Packet :: Drops(rules, p) ==> Blocked(left, p)
    ensures forall p: Packet :: Drops(rules, p) ==> (Blocked(passed, p) <==> Filtered(Others(start.parent), [], [], p))
  {
    hide Filtered, Drops, Blocked, Others, Without, Guarded, OnlyOldInForce, IsComplete, ValidKernel;
    var failing := new Iptables(n => false, true, start);
    var ok, cleared := failing.ReplaceChain(rules);
    left := failing.kernel;
    second := new Iptables(n => false, false, left);
    ok, cleared := second.ReplaceChain(later);
    OthersLeftBehind(start, rules);
    ghost var w :| 0 <= w < |second.history| && OnlyOldInForce(second.history[w], left);
    passed := second.history[w];
    forall p: Packet | Drops(rules, p)
      ensures Blocked(left, p) && (Blocked(passed, p) <==> Filtered(Others(start.parent), [], [], p))
    {
      LeftBehindLeaks(start, rules, passed, p);
    }
  }

  lemma OthersLeftBehind(k: Kernel, rules: Chain)
    ensures Others(LeftBehind(k, rules).parent) == Others(k.parent)
  {
    var others := Others(k.parent);
    WithoutConcat([Jump(Temporary)], others, Named);
    WithoutConcat([Jump(Temporary)], Without(others, Named), Temporary);
    WithoutCommutes(k.parent);
    assert Without([Jump(Temporary)], Temporary) == [] && Without([Jump(Temporary)], Named) == [Jump(Temporary)];
  }
}
