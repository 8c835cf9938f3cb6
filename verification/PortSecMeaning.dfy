/** The compiled egress rules mean what the address list says. */
module PortSecMeaning {
  import opened Common
  import opened PortSec

  // ---- Masks ----

  lemma PrefixHit(a: Bits, plen: nat, d: Bits)
    requires |a| == |d| && plen <= |a|
    ensures Hit(MaskedWith(a, PrefixMask(|a|, plen)), d) <==> d[..plen] == a[..plen]
  {
    var mk := MaskedWith(a, PrefixMask(|a|, plen));
    if d[..plen] == a[..plen] {
      forall k | 0 <= k < |d| ensures (d[k] && mk.mask[k]) == mk.value[k] {
        if k < plen { assert d[..plen][k] == a[..plen][k]; }
      }
    } else {
      var k :| 0 <= k < plen && d[..plen][k] != a[..plen][k];
      assert (d[k] && mk.mask[k]) != mk.value[k];
    }
  }

  lemma ExactHit(a: Bits, d: Bits)
    requires |a| == |d|
    ensures Hit(MaskedWith(a, Fill(|a|, true)), d) <==> d == a
  {
    assert Fill(|a|, true) == PrefixMask(|a|, |a|);
    PrefixHit(a, |a|, d);
    assert a[..|a|] == a && d[..|d|] == d;
  }

  lemma HostBits(a: Bits, plen: nat)
    requires plen <= |a|
    ensures IsZero(And(a, Not(PrefixMask(|a|, plen)))) <==> IsZero(a[plen..])
  {
    var h := And(a, Not(PrefixMask(|a|, plen)));
    assert forall k :: 0 <= k < |a| ==> (h[k] <==> a[k] && k >= plen);
    if IsZero(h) {
      forall k | 0 <= k < |a| - plen ensures !a[plen..][k] { assert !h[plen + k]; }
    }
    if IsZero(a[plen..]) {
      forall k | 0 <= k < |a| ensures !h[k] {
        if k >= plen { assert !a[plen..][k - plen]; }
      }
    }
  }

  /** The broadcast address has the network's bits and then ones. */
  lemma Broadcast(a: Bits, plen: nat)
    requires plen <= |a|
    ensures Or(a, Not(PrefixMask(|a|, plen))) == a[..plen] + Fill(|a| - plen, true)
    ensures !IsZero(a[plen..]) ==> !IsZero(Or(a, Not(PrefixMask(|a|, plen))))
  {
    var b := Or(a, Not(PrefixMask(|a|, plen)));
    if !IsZero(a[plen..]) {
      var k :| 0 <= k < |a| - plen && a[plen..][k];
      assert b[plen + k];
    }
  }

  // ---- Rules that fire ----

  ghost predicate Fires(rules: seq<Rule>, priority: nat, p: Packet) {
    exists r :: r in rules && r.priority == priority && Matches(r.m, p)
  }

  /** A rule's action follows from its priority. */
  ghost predicate Tiered(rules: seq<Rule>) {
    forall r :: r in rules ==> r.priority in {80, 85, 90, 95} && (r.allow <==> r.priority in {85, 95})
  }

  lemma FiresConcat(a: seq<Rule>, b: seq<Rule>, priority: nat, p: Packet)
    ensures Fires(a + b, priority, p) <==> Fires(a, priority, p) || Fires(b, priority, p)
  {
  }

  lemma FiresOne(r: Rule, priority: nat, p: Packet)
    ensures Fires([r], priority, p) <==> r.priority == priority && Matches(r.m, p)
  {
    assert r in [r];
  }

  lemma FiresTwo(r: Rule, q: Rule, priority: nat, p: Packet)
    ensures Fires([r, q], priority, p) <==>
            (r.priority == priority && Matches(r.m, p)) || (q.priority == priority && Matches(q.m, p))
  {
    assert [r, q] == [r] + [q];
    FiresConcat([r], [q], priority, p);
    FiresOne(r, priority, p);
    FiresOne(q, priority, p);
  }

  // ---- One address ----

  ghost predicate Base4(m: Match) {
    m.family == OnlyV4 && m.dst4 == None && m.dst6 == None
  }

  ghost predicate Base6(m: Match) {
    m.family == OnlyV6 && m.dst4 == None && m.dst6 == None
  }

  lemma Dst4Matches(m: Match, a: Ip4, mask: Ip4, p: Packet)
    requires Base4(m)
    ensures Matches(Dst4(m, a, mask), p) <==> Matches(m, p) && Hit(MaskedWith(a, mask), p.l3.dst4)
  {
  }

  lemma Dst6Matches(m: Match, a: Ip6, mask: Ip6, p: Packet)
    requires Base6(m)
    ensures Matches(Dst6(m, a, mask), p) <==> Matches(m, p) && Hit(MaskedWith(a, mask), p.l3.dst6)
  {
  }

  lemma AddrFires4(m: Match, x: Prefix4, p: Packet)
    requires Base4(m) && x.plen <= 32
    ensures Fires(AddrRules4(m, Mask4(x)), 95, p) <==> Matches(m, p) && Listed4(x, p.l3.dst4)
  {
    hide Hit, Matches, And, Or, Not, PrefixMask;
    var y := Mask4(x);
    var r := Rule(95, Dst4(m, y.addr, y.mask), true);
    var q := Rule(95, Dst4(m, y.bcast, Fill(32, true)), true);
    HostBits(x.addr, x.plen);
    Broadcast(x.addr, x.plen);
    FiresOne(r, 95, p);
    FiresTwo(r, q, 95, p);
    Dst4Matches(m, y.addr, y.mask, p);
    Dst4Matches(m, y.bcast, Fill(32, true), p);
    MatchesV4(m, p);
    if Matches(m, p) {
      PrefixHit(x.addr, x.plen, p.l3.dst4);
      ExactHit(x.addr, p.l3.dst4);
      ExactHit(y.bcast, p.l3.dst4);
    }
    if IsZero(x.addr[x.plen..]) {
      assert AddrRules4(m, y) == [r];
    } else {
      assert AddrRules4(m, y) == [r, q];
    }
  }

  lemma MatchesV4(m: Match, p: Packet)
    requires Base4(m)
    ensures Matches(m, p) ==> p.l3.V4?
  {
  }

  lemma MatchesV6(m: Match, p: Packet)
    requires Base6(m)
    ensures Matches(m, p) ==> p.l3.V6?
  {
  }

  lemma AddrFires6(m: Match, x: Prefix6, p: Packet)
    requires Base6(m) && x.plen <= 128
    ensures Matches(Dst6(m, Mask6(x).addr, Mask6(x).mask), p) <==> Matches(m, p) && Listed6(x, p.l3.dst6)
  {
    hide Hit, Matches, And, Not, PrefixMask;
    var y := Mask6(x);
    HostBits(x.addr, x.plen);
    Dst6Matches(m, y.addr, y.mask, p);
    MatchesV6(m, p);
    if Matches(m, p) {
      PrefixHit(x.addr, x.plen, p.l3.dst6);
      ExactHit(x.addr, p.l3.dst6);
    }
  }

  lemma {:induction false} AddrsFire4(m: Match, xs: seq<Prefix4>, p: Packet)
    requires Base4(m) && forall x :: x in xs ==> x.plen <= 32
    ensures Fires(AddrsRules4(m, Masks4(xs)), 95, p) <==> Matches(m, p) && exists x :: x in xs && Listed4(x, p.l3.dst4)
  {
    hide Matches, Mask4, Listed4, AddrRules4;
    if xs != [] {
      var init, last := xs[..|xs| - 1], xs[|xs| - 1];
      assert Masks4(xs)[..|xs| - 1] == Masks4(init);
      AddrsFire4(m, init, p);
      AddrFires4(m, last, p);
      FiresConcat(AddrsRules4(m, Masks4(init)), AddrRules4(m, Mask4(last)), 95, p);
      assert xs == init + [last];
    }
  }

  lemma {:induction false} AddrsFire6(m: Match, xs: seq<Prefix6>, p: Packet)
    requires Base6(m) && forall x :: x in xs ==> x.plen <= 128
    ensures Fires(AddrsRules6(m, Masks6(xs)), 95, p) <==> Matches(m, p) && exists x :: x in xs && Listed6(x, p.l3.dst6)
  {
    hide Matches, Mask6, Listed6, Dst6;
    if xs != [] {
      var init, last := xs[..|xs| - 1], xs[|xs| - 1];
      assert Masks6(xs)[..|xs| - 1] == Masks6(init);
      AddrsFire6(m, init, p);
      AddrFires6(m, last, p);
      var r := Rule(95, Dst6(m, Mask6(last).addr, Mask6(last).mask), true);
      FiresConcat(AddrsRules6(m, Masks6(init)), [r], 95, p);
      FiresOne(r, 95, p);
      assert xs == init + [last];
    }
  }

  // ---- Link-local addresses ----

  lemma LinkLocalParts(mac: Mac)
    ensures LinkLocal(mac)[..104] == LLA_PREFIX + Eui64Head(mac[..24])
    ensures LinkLocal(mac)[104..] == mac[24..]
  {
    hide Eui64Head, Fill;
  }

  /** The prefix match on the link-local address of x holds exactly of the
      link-local addresses of the MAC addresses x stands for. */
  lemma LinkLocalExact(x: MacPrefix, d: Ip6)
    requires 24 <= x.plen <= 48
    ensures d[..80 + x.plen] == LinkLocal(x.addr)[..80 + x.plen] <==> LinkLocalOf(x, d)
  {
    hide LinkLocal, Eui64Head, Fill;
    var l := LinkLocal(x.addr);
    LinkLocalParts(x.addr);
    if d[..80 + x.plen] == l[..80 + x.plen] {
      var mac: Mac := x.addr[..24] + d[104..];
      LinkLocalParts(mac);
      assert mac[..24] == x.addr[..24] && mac[24..] == d[104..];
      assert d[..104] == d[..80 + x.plen][..104] == l[..80 + x.plen][..104] == l[..104];
      SameParts(d, LinkLocal(mac));
      forall k | 0 <= k < x.plen ensures mac[k] == x.addr[k] {
        if k >= 24 {
          assert mac[k] == d[80 + k] == d[..80 + x.plen][80 + k] == l[80 + k] == l[104..][k - 24]
              == x.addr[24..][k - 24];
        }
      }
      assert MacIn(x, mac);
    }
    if LinkLocalOf(x, d) {
      var mac: Mac :| MacIn(x, mac) && d == LinkLocal(mac);
      LinkLocalParts(mac);
      assert mac[..24] == mac[..x.plen][..24] == x.addr[..x.plen][..24] == x.addr[..24];
      assert d[..104] == l[..104];
      forall k | 0 <= k < 80 + x.plen ensures d[k] == l[k] {
        if k < 104 {
          assert d[k] == d[..104][k] == l[..104][k];
        } else {
          assert d[k] == d[104..][k - 104] == mac[24..][k - 104] == mac[..x.plen][k - 80];
          assert l[k] == l[104..][k - 104] == x.addr[24..][k - 104] == x.addr[..x.plen][k - 80];
        }
      }
    }
  }

  lemma SameParts(a: Ip6, b: Ip6)
    requires a[..104] == b[..104] && a[104..] == b[104..]
    ensures a == b
  {
    assert a == a[..104] + a[104..] && b == b[..104] + b[104..];
  }

  // ---- One MAC address ----

  /** The packet is to the port. */
  ghost predicate ToPort(port: Match, p: Packet) {
    p.dp == port.dp && p.outport == port.outport
  }

  ghost predicate IsPort(port: Match) {
    port == PortMatch(port.dp, port.outport)
  }

  lemma ToMacMatches(port: Match, x: MacPrefix, p: Packet)
    requires IsPort(port) && x.plen <= 48
    ensures Matches(ToMac(port, x), p) <==> ToPort(port, p) && MacIn(x, p.ethDst)
    ensures Matches(ToMac(port, x).(family := OnlyV4), p) <==> ToPort(port, p) && MacIn(x, p.ethDst) && p.l3.V4?
    ensures Matches(ToMac(port, x).(family := OnlyV6), p) <==> ToPort(port, p) && MacIn(x, p.ethDst) && p.l3.V6?
  {
    hide Hit;
    PrefixHit(x.addr, x.plen, p.ethDst);
  }

  ghost predicate Listed4Any(ip4: seq<Prefix4>, d: Ip4)
    requires forall x :: x in ip4 ==> x.plen <= 32
  {
    ip4 != [] && ((exists x :: x in ip4 && Listed4(x, d)) || d == Fill(32, true) || Multicast4(d))
  }

  lemma Ip4Fires(port: Match, x: MacPrefix, ip4: seq<Prefix4>, p: Packet)
    requires IsPort(port) && x.plen <= 48 && forall y :: y in ip4 ==> y.plen <= 32
    ensures var on := ToPort(port, p) && MacIn(x, p.ethDst) && p.l3.V4?;
            var rs := Ip4Rules(port, x, Masks4(ip4));
            && (Fires(rs, 90, p) <==> on)
            && (Fires(rs, 95, p) <==> on && Listed4Any(ip4, p.l3.dst4))
  {
    hide Matches, Hit, Masks4, Listed4, MacIn, ToMac, Fill, PrefixMask, And;
    var m := ToMac(port, x).(family := OnlyV4);
    var rs := Ip4Rules(port, x, Masks4(ip4));
    ToMacMatches(port, x, p);
    ToMacBase(port, x);
    var deny := Rule(90, m, false);
    FiresOne(deny, 90, p);
    FiresOne(deny, 95, p);
    if ip4 == [] {
      assert rs == [deny];
    } else {
      var addrs := AddrsRules4(m, Masks4(ip4));
      var b := Rule(95, Dst4(m, Fill(32, true), Fill(32, true)), true);
      var c := Rule(95, Dst4(m, MULTICAST4, PrefixMask(32, 4)), true);
      assert rs == [deny] + (addrs + [b, c]);
      FiresConcat([deny], addrs + [b, c], 90, p);
      FiresConcat([deny], addrs + [b, c], 95, p);
      FiresConcat(addrs, [b, c], 90, p);
      FiresConcat(addrs, [b, c], 95, p);
      FiresTwo(b, c, 90, p);
      FiresTwo(b, c, 95, p);
      AddrsFire4(m, ip4, p);
      AddrsTier4(m, Masks4(ip4));
      Dst4Matches(m, Fill(32, true), Fill(32, true), p);
      Dst4Matches(m, MULTICAST4, PrefixMask(32, 4), p);
      if Matches(m, p) {
        ExactHit(Fill(32, true), p.l3.dst4);
        PrefixHit(MULTICAST4, 4, p.l3.dst4);
        MulticastPrefix4();
      }
    }
  }

  lemma MulticastPrefix4()
    ensures MULTICAST4[..4] == [true, true, true, false]
  {
  }

  lemma MulticastPrefix6()
    ensures MULTICAST6[..8] == Fill(8, true)
  {
  }

  lemma ToMacBase(port: Match, x: MacPrefix)
    requires IsPort(port)
    ensures Base4(ToMac(port, x).(family := OnlyV4)) && Base6(ToMac(port, x).(family := OnlyV6))
  {
  }

  lemma {:induction false} AddrsTier4(m: Match, xs: seq<MaskedIp4>)
    ensures forall r :: r in AddrsRules4(m, xs) ==> r.priority == 95 && r.allow
  {
    if xs != [] {
      AddrsTier4(m, xs[..|xs| - 1]);
    }
  }

  lemma {:induction false} AddrsTier6(m: Match, xs: seq<MaskedIp6>)
    ensures forall r :: r in AddrsRules6(m, xs) ==> r.priority == 95 && r.allow
  {
    if xs != [] {
      AddrsTier6(m, xs[..|xs| - 1]);
    }
  }

  ghost predicate Listed6Any(ip6: seq<Prefix6>, x: MacPrefix, d: Ip6)
    requires x.plen <= 48 && forall y :: y in ip6 ==> y.plen <= 128
  {
    ip6 != [] && ((exists y :: y in ip6 && Listed6(y, d)) || LinkLocalOf(x, d) || Multicast6(d))
  }

  lemma Ip6Fires(port: Match, x: MacPrefix, ip6: seq<Prefix6>, p: Packet)
    requires IsPort(port) && 40 <= x.plen <= 48 && forall y :: y in ip6 ==> y.plen <= 128
    ensures var on := ToPort(port, p) && MacIn(x, p.ethDst) && p.l3.V6?;
            var rs := Ip6Rules(port, x, Masks6(ip6));
            && (Fires(rs, 90, p) <==> on)
            && (Fires(rs, 95, p) <==> on && Listed6Any(ip6, x, p.l3.dst6))
  {
    hide Matches, Hit, Masks6, Listed6, MacIn, ToMac, Fill, PrefixMask, And, LinkLocal, LinkLocalOf;
    var m := ToMac(port, x).(family := OnlyV6);
    var rs := Ip6Rules(port, x, Masks6(ip6));
    ToMacMatches(port, x, p);
    ToMacBase(port, x);
    var deny := Rule(90, m, false);
    FiresOne(deny, 90, p);
    FiresOne(deny, 95, p);
    if ip6 == [] {
      assert rs == [deny];
    } else {
      var addrs := AddrsRules6(m, Masks6(ip6));
      var b := Rule(95, Dst6(m, LinkLocal(x.addr), PrefixMask(128, 80 + x.plen)), true);
      var c := Rule(95, Dst6(m, MULTICAST6, PrefixMask(128, 8)), true);
      assert rs == [deny] + (addrs + [b, c]);
      FiresConcat([deny], addrs + [b, c], 90, p);
      FiresConcat([deny], addrs + [b, c], 95, p);
      FiresConcat(addrs, [b, c], 90, p);
      FiresConcat(addrs, [b, c], 95, p);
      FiresTwo(b, c, 90, p);
      FiresTwo(b, c, 95, p);
      AddrsFire6(m, ip6, p);
      AddrsTier6(m, Masks6(ip6));
      Dst6Matches(m, LinkLocal(x.addr), PrefixMask(128, 80 + x.plen), p);
      Dst6Matches(m, MULTICAST6, PrefixMask(128, 8), p);
      if Matches(m, p) {
        PrefixHit(LinkLocal(x.addr), 80 + x.plen, p.l3.dst6);
        LinkLocalExact(x, p.l3.dst6);
        PrefixHit(MULTICAST6, 8, p.l3.dst6);
        MulticastPrefix6();
      }
    }
  }

  // ---- All the MAC addresses of an entry ----

  ghost predicate Short(xs: seq<MacPrefix>) {
    forall x :: x in xs ==> 40 <= x.plen <= 48
  }

  lemma {:induction false} NoIpFires(port: Match, xs: seq<MacPrefix>, p: Packet)
    requires IsPort(port) && Short(xs)
    ensures Fires(NoIpAll(port, xs), 85, p) <==> ToPort(port, p) && exists x :: x in xs && MacIn(x, p.ethDst)
    ensures forall r :: r in NoIpAll(port, xs) ==> r.priority == 85 && r.allow
  {
    hide Matches, ToMac, MacIn;
    if xs != [] {
      var init, last := xs[..|xs| - 1], xs[|xs| - 1];
      assert xs == init + [last];
      NoIpFires(port, init, p);
      ToMacMatches(port, last, p);
      FiresConcat(NoIpAll(port, init), NoIpRules(port, last), 85, p);
      FiresOne(Rule(85, ToMac(port, last), true), 85, p);
    }
  }

  lemma {:induction false} Ip4AllFires(port: Match, xs: seq<MacPrefix>, ip4: seq<Prefix4>, p: Packet)
    requires IsPort(port) && Short(xs) && forall y :: y in ip4 ==> y.plen <= 32
    ensures var on := p.l3.V4? && ToPort(port, p) && exists x :: x in xs && MacIn(x, p.ethDst);
            var rs := Ip4All(port, xs, Masks4(ip4));
            && (Fires(rs, 90, p) <==> on)
            && (Fires(rs, 95, p) <==> on && Listed4Any(ip4, p.l3.dst4))
  {
    hide Fires, Masks4, Listed4Any, MacIn, Ip4Rules;
    if xs != [] {
      var init, last := xs[..|xs| - 1], xs[|xs| - 1];
      assert xs == init + [last];
      Ip4AllFires(port, init, ip4, p);
      Ip4Fires(port, last, ip4, p);
      FiresConcat(Ip4All(port, init, Masks4(ip4)), Ip4Rules(port, last, Masks4(ip4)), 90, p);
      FiresConcat(Ip4All(port, init, Masks4(ip4)), Ip4Rules(port, last, Masks4(ip4)), 95, p);
    } else {
      NoneFires(p);
    }
  }

  lemma NoneFires(p: Packet)
    ensures forall priority :: !Fires([], priority, p)
  {
  }

  lemma {:induction false} Ip6AllFires(port: Match, xs: seq<MacPrefix>, ip6: seq<Prefix6>, p: Packet)
    requires IsPort(port) && Short(xs) && forall y :: y in ip6 ==> y.plen <= 128
    ensures var on := p.l3.V6? && ToPort(port, p);
            var rs := Ip6All(port, xs, Masks6(ip6));
            && (Fires(rs, 90, p) <==> on && exists x :: x in xs && MacIn(x, p.ethDst))
            && (Fires(rs, 95, p) <==> on && exists x :: x in xs && MacIn(x, p.ethDst) && Listed6Any(ip6, x, p.l3.dst6))
  {
    hide Fires, Masks6, Listed6Any, MacIn, Ip6Rules;
    if xs != [] {
      var init, last := xs[..|xs| - 1], xs[|xs| - 1];
      assert xs == init + [last];
      Ip6AllFires(port, init, ip6, p);
      Ip6Fires(port, last, ip6, p);
      FiresConcat(Ip6All(port, init, Masks6(ip6)), Ip6Rules(port, last, Masks6(ip6)), 90, p);
      FiresConcat(Ip6All(port, init, Masks6(ip6)), Ip6Rules(port, last, Masks6(ip6)), 95, p);
    } else {
      NoneFires(p);
    }
  }

  lemma {:induction false} Ip4Tier(port: Match, xs: seq<MacPrefix>, ip4: seq<MaskedIp4>)
    ensures forall r :: r in Ip4All(port, xs, ip4) ==> r.priority in {90, 95} && (r.allow <==> r.priority == 95)
  {
    if xs != [] {
      Ip4Tier(port, xs[..|xs| - 1], ip4);
      AddrsTier4(ToMac(port, xs[|xs| - 1]).(family := OnlyV4), ip4);
    }
  }

  lemma {:induction false} Ip6Tier(port: Match, xs: seq<MacPrefix>, ip6: seq<MaskedIp6>)
    ensures forall r :: r in Ip6All(port, xs, ip6) ==> r.priority in {90, 95} && (r.allow <==> r.priority == 95)
  {
    if xs != [] {
      Ip6Tier(port, xs[..|xs| - 1], ip6);
      AddrsTier6(ToMac(port, xs[|xs| - 1]).(family := OnlyV6), ip6);
    }
  }

  // ---- One entry ----

  ghost predicate Restricts(e: Entry, p: Packet)
    requires EntryOk(e)
  {
    (p.l3.V4? && Restricts4(e, p.ethDst)) || (p.l3.V6? && Restricts6(e, p.ethDst))
  }

  ghost predicate Admits(e: Entry, p: Packet)
    requires EntryOk(e)
  {
    (p.l3.V4? && Admits4(e, p.ethDst, p.l3.dst4)) || (p.l3.V6? && Admits6(e, p.ethDst, p.l3.dst6))
  }

  lemma EntryFires(port: Match, e: Entry, p: Packet)
    requires IsPort(port) && EntryOk(e)
    ensures var rs := EntryRules(port, e);
            && (Fires(rs, 85, p) <==> ToPort(port, p) && Knows(e, p.ethDst))
            && (Fires(rs, 90, p) <==> ToPort(port, p) && Restricts(e, p))
            && (Fires(rs, 95, p) <==> ToPort(port, p) && Admits(e, p))
            && !Fires(rs, 80, p)
  {
    hide Matches, MacIn, Listed4, Listed6, LinkLocalOf, Multicast4;
    hide Multicast6, NoIpAll, Ip4All, Ip6All, Masks4, Masks6, Fill;
    var a, b, c := NoIpAll(port, Macs(e)), Ip4All(port, Macs4(e), Masks4(e.ip4)), Ip6All(port, Macs6(e), Masks6(e.ip6));
    NoIpFires(port, Macs(e), p);
    Ip4AllFires(port, Macs4(e), e.ip4, p);
    Ip6AllFires(port, Macs6(e), e.ip6, p);
    Ip4Tier(port, Macs4(e), Masks4(e.ip4));
    Ip6Tier(port, Macs6(e), Masks6(e.ip6));
    forall priority
      ensures Fires(a + (b + c), priority, p) <==>
              Fires(a, priority, p) || Fires(b, priority, p) || Fires(c, priority, p)
    {
      FiresConcat(b, c, priority, p);
      FiresConcat(a, b + c, priority, p);
    }
    if ListsAny(e) {
      assert EntryRules(port, e) == a + (b + c);
    } else {
      assert EntryRules(port, e) == a;
    }
  }

  lemma EntryTier(port: Match, e: Entry)
    requires IsPort(port) && EntryOk(e)
    ensures Tiered(EntryRules(port, e))
  {
    hide MacIn, Matches, NoIpAll, Ip4All, Ip6All;
    NoIpFires(port, Macs(e), Packet(0, 0, Fill(48, false), NotIp));
    Ip4Tier(port, Macs4(e), Masks4(e.ip4));
    Ip6Tier(port, Macs6(e), Masks6(e.ip6));
  }

  // ---- The whole list ----

  lemma {:induction false} EntriesFire(port: Match, es: seq<Entry>, p: Packet)
    requires IsPort(port) && AllOk(es)
    ensures var rs := EntriesRules(port, es);
            && (Fires(rs, 85, p) <==> ToPort(port, p) && exists e :: e in es && Knows(e, p.ethDst))
            && (Fires(rs, 90, p) <==> ToPort(port, p) && exists e :: e in es && Restricts(e, p))
            && (Fires(rs, 95, p) <==> ToPort(port, p) && exists e :: e in es && Admits(e, p))
            && !Fires(rs, 80, p) && Tiered(rs)
  {
    hide Fires, EntryOk, Knows, Restricts, Admits, EntryRules;
    if es == [] {
      NoneFires(p);
    } else {
      var init, last := es[..|es| - 1], es[|es| - 1];
      assert es == init + [last];
      EntriesFire(port, init, p);
      EntryFires(port, last, p);
      EntryTier(port, last);
      forall priority
        ensures Fires(EntriesRules(port, es), priority, p) <==>
                Fires(EntriesRules(port, init), priority, p) || Fires(EntryRules(port, last), priority, p)
      {
        FiresConcat(EntriesRules(port, init), EntryRules(port, last), priority, p);
      }
    }
  }

  /** Which priority wins. */
  lemma Decided(rules: seq<Rule>, p: Packet)
    requires Tiered(rules)
    ensures Decides(rules, p, true) <==> Fires(rules, 95, p) || (!Fires(rules, 90, p) && Fires(rules, 85, p))
    ensures Decides(rules, p, false) <==>
            !Fires(rules, 95, p) && (Fires(rules, 90, p) || (!Fires(rules, 85, p) && Fires(rules, 80, p)))
  {
    hide Matches;
  }

  /** MAIN RESULT.  With at least one well-formed entry, the highest-priority
      matching rule lets a packet to the port through exactly when the address
      list allows it, and drops it exactly when it does not. */
  lemma EgressExact(dp: nat, port: nat, es: seq<Entry>, p: Packet)
    requires es != [] && AllOk(es) && p.dp == dp && p.outport == port
    ensures Decides(PortRules(dp, port, es), p, true) <==> Allowed(es, p)
    ensures Decides(PortRules(dp, port, es), p, false) <==> !Allowed(es, p)
  {
    hide Matches, Fires, Decides, EntriesRules, EntryOk, Knows, Restricts4, Restricts6, Admits4, Admits6;
    var m := PortMatch(dp, port);
    var d := Rule(80, m, false);
    var rs := EntriesRules(m, es);
    EntriesFire(m, es, p);
    forall priority ensures Fires(rs + [d], priority, p) <==> Fires(rs, priority, p) || priority == 80 {
      FiresConcat(rs, [d], priority, p);
      FiresOne(d, priority, p);
      PortMatches(dp, port, p);
    }
    Decided(rs + [d], p);
    AdmittedIsKnown(es, p);
  }

  lemma PortMatches(dp: nat, port: nat, p: Packet)
    ensures Matches(PortMatch(dp, port), p) <==> p.dp == dp && p.outport == port
  {
  }

  lemma AdmittedIsKnown(es: seq<Entry>, p: Packet)
    requires AllOk(es)
    ensures forall e :: e in es && Admits(e, p) ==> Knows(e, p.ethDst) && Restricts(e, p)
  {
    hide MacIn, Allowed4, Allowed6;
    forall e | e in es && Admits(e, p) ensures Knows(e, p.ethDst) && Restricts(e, p) {
      if p.l3.V4? {
        var x :| x in Macs4(e) && MacIn(x, p.ethDst);
        assert x in Macs(e);
      } else {
        var x :| x in Macs6(e) && MacIn(x, p.ethDst) && Allowed6(e, x, p.l3.dst6);
        assert x in Macs(e);
      }
    }
  }

  /** MAIN RESULT.  Rules of equal priority never disagree, the rules of one port
      say nothing of packets to another, and a list without a well-formed entry
      says nothing at all. */
  lemma EgressConsistent(dp: nat, port: nat, es: seq<Entry>, p: Packet)
    requires AllOk(es)
    ensures forall r, q :: r in PortRules(dp, port, es) && q in PortRules(dp, port, es) && r.priority == q.priority ==>
            r.allow == q.allow
    ensures !(p.dp == dp && p.outport == port) || es == [] ==>
            forall allow :: !Decides(PortRules(dp, port, es), p, allow)
  {
    hide Matches, Fires, Decides, EntriesRules, EntryOk, Knows, Restricts, Admits;
    var m := PortMatch(dp, port);
    var d := Rule(80, m, false);
    var rs := EntriesRules(m, es);
    EntriesFire(m, es, p);
    FiresNothing(es, m, rs, d, p);
    assert rs + [] == rs;
  }

  lemma FiresNothing(es: seq<Entry>, m: Match, rs: seq<Rule>, d: Rule, p: Packet)
    requires Tiered(rs) && d == Rule(80, m, false) && IsPort(m)
    requires !Fires(rs, 80, p)
    requires (!ToPort(m, p) || es == []) ==> !Fires(rs, 85, p) && !Fires(rs, 90, p) && !Fires(rs, 95, p)
    ensures Tiered(rs + [d])
    ensures !ToPort(m, p) ==> forall allow :: !Decides(rs + [d], p, allow)
    ensures es == [] ==> forall allow :: !Decides(rs, p, allow)
  {
    hide Decides;
    FiresConcat(rs, [d], 80, p);
    FiresConcat(rs, [d], 85, p);
    FiresConcat(rs, [d], 90, p);
    FiresConcat(rs, [d], 95, p);
    forall priority ensures Fires([d], priority, p) <==> priority == 80 && ToPort(m, p) {
      FiresOne(d, priority, p);
    }
    Decided(rs, p);
    Decided(rs + [d], p);
    forall allow: bool
      ensures !ToPort(m, p) ==> !Decides(rs + [d], p, allow)
      ensures es == [] ==> !Decides(rs, p, allow)
    {
      if allow {} else {}
    }
  }

  /** What parsing lets through satisfies what the compiler relies on. */
  lemma {:induction false} ParsedOk(ts: seq<Text>)
    ensures AllOk(WellFormed(ts))
  {
    hide EntryOk, Parsed;
    if ts != [] {
      ParsedOk(ts[..|ts| - 1]);
      ParsedEntryOk(ts[|ts| - 1]);
    }
  }

  lemma ParsedEntryOk(t: Text)
    ensures Parsed(t).Some? ==> EntryOk(Parsed(t).value)
  {
    hide Fill;
    if t.mac.Some? {
      TokensOk(t.vrrp, Entry(t.mac.value, [], [], [], []), t.tokens);
    }
  }

  lemma {:induction false} TokensOk(vrrp: bool, e: Entry, ts: seq<Token>)
    requires EntryOk(e)
    ensures AddTokens(vrrp, e, ts).Some? ==> EntryOk(AddTokens(vrrp, e, ts).value)
  {
    hide Fill, IsZero;
    if ts != [] {
      TokensOk(vrrp, e, ts[..|ts| - 1]);
    }
  }

  /** For entries without VRRP, spelled out: the destination MAC is that of an
      entry, and an IP destination is free only while every entry with that MAC
      lists no address at all. */
  lemma PlainEntries(es: seq<Entry>, p: Packet)
    requires AllOk(es) && forall e :: e in es ==> !IsVrrp(e)
    ensures Allowed(es, p) <==>
              && (exists e :: e in es && e.phys == p.ethDst)
              && (|| p.l3.NotIp?
                  || (forall e :: e in es && e.phys == p.ethDst ==> !ListsAny(e))
                  || (exists e :: e in es && e.phys == p.ethDst &&
                        if p.l3.V4? then e.ip4 != [] && Allowed4(e, p.l3.dst4)
                        else e.ip6 != [] && Allowed6(e, MacPrefix(e.phys, 48), p.l3.dst6)))
  {
    hide Allowed4, Allowed6;
    forall e | e in es
      ensures Knows(e, p.ethDst) <==> e.phys == p.ethDst
      ensures Restricts4(e, p.ethDst) <==> ListsAny(e) && e.phys == p.ethDst
      ensures Restricts6(e, p.ethDst) <==> ListsAny(e) && e.phys == p.ethDst
      ensures p.l3.V4? ==> (Admits4(e, p.ethDst, p.l3.dst4) <==>
              e.ip4 != [] && Allowed4(e, p.l3.dst4) && e.phys == p.ethDst)
      ensures p.l3.V6? ==> (Admits6(e, p.ethDst, p.l3.dst6) <==>
              e.ip6 != [] && Allowed6(e, MacPrefix(e.phys, 48), p.l3.dst6) && e.phys == p.ethDst)
    {
      var x := MacPrefix(e.phys, 48);
      assert p.ethDst[..48] == p.ethDst && e.phys[..48] == e.phys;
      assert MacIn(x, p.ethDst) <==> e.phys == p.ethDst;
      assert Macs(e) == [x] && Macs4(e) == [x] && Macs6(e) == [x] && x in [x];
    }
  }
}
