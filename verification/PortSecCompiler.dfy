/** The builders of the egress port-security rules: they reuse one match and one
    action buffer while they append rules to the flow table. */
module PortSecCompiler {
  import opened Common
  import opened PortSec

  class PsAddrs {
    var phys: Mac
    var vrrp4: seq<MacPrefix>
    var vrrp6: seq<MacPrefix>
    var ip4: seq<MaskedIp4>
    var ip6: seq<MaskedIp6>

    constructor ()
      ensures Cleared()
    {
      phys := Fill(48, false);
      vrrp4, vrrp6, ip4, ip6 := [], [], [], [];
    }

    ghost predicate Cleared()
      reads this
    {
      vrrp4 == [] && vrrp6 == [] && ip4 == [] && ip6 == []
    }

    ghost function View(): PsAddr
      reads this
    {
      PsAddr(phys, vrrp4, vrrp6, ip4, ip6)
    }

    method Clear()
      modifies this
      ensures Cleared()
    {
      vrrp4, vrrp6, ip4, ip6 := [], [], [], [];
    }

    method PushIp(ip: Ip6, plen: nat, ghost e: Entry) returns (ok: bool)
      requires View() == Kept(e)
      modifies this
      ensures ok <==> AddIp(e, ip, plen).Some?
      ensures ok ==> View() == Kept(AddIp(e, ip, plen).value)
    {
      if IsV4Mapped(ip) {
        if plen > 32 {
          return false;
        }
        var addr: Ip4 := ip[96..];
        var mask := PrefixMask(32, plen);
        var host := !IsZero(And(addr, Not(mask)));
        ip4 := ip4 + [MaskedIp4(addr, if host then Fill(32, true) else mask,
                                if host then Or(addr, Not(mask)) else Fill(32, false))];
        Masks4Snoc(e.ip4, Prefix4(addr, plen));
      } else {
        if plen > 128 {
          return false;
        }
        var mask := PrefixMask(128, plen);
        ip6 := ip6 + [MaskedIp6(ip, if !IsZero(And(ip, Not(mask))) then Fill(128, true) else mask)];
        Masks6Snoc(e.ip6, Prefix6(ip, plen));
      }
      return true;
    }

    method PushVrrpMac(mac: Mac, plen: nat, ghost e: Entry) returns (ok: bool)
      requires View() == Kept(e)
      modifies this
      ensures ok <==> AddVrrpMac(e, mac, plen).Some?
      ensures ok ==> View() == Kept(AddVrrpMac(e, mac, plen).value)
    {
      if !(40 <= plen <= 48) {
        return false;
      }
      if !IsZero(mac[plen..]) {
        return false;
      }
      if plen == 48 {
        if mac == ANY_VRRP4 || mac == ANY_VRRP6 {
          return false;
        }
      }
      if mac[..40] == ANY_VRRP4[..40] {
        vrrp4 := vrrp4 + [MacPrefix(mac, plen)];
        return true;
      }
      if mac[..40] == ANY_VRRP6[..40] {
        vrrp6 := vrrp6 + [MacPrefix(mac, plen)];
        return true;
      }
      return false;
    }

    method PushToken(vrrp: bool, t: Token, ghost e: Entry) returns (ok: bool)
      requires View() == Kept(e)
      modifies this
      ensures ok <==> AddToken(vrrp, e, t).Some?
      ensures ok ==> View() == Kept(AddToken(vrrp, e, t).value)
    {
      ok := false;
      match t
      case MacToken(mac, plen) => if vrrp { ok := PushVrrpMac(mac, plen, e); }
      case IpToken(ip, plen) => ok := PushIp(ip, plen, e);
      case BadToken =>
    }

    method ParseEntry(t: Text) returns (ok: bool)
      requires Cleared()
      modifies this
      ensures ok <==> Parsed(t).Some?
      ensures ok ==> View() == Kept(Parsed(t).value)
    {
      if t.mac.None? {
        return false;
      }
      phys := t.mac.value;
      ok := true;
      ghost var e0 := Entry(phys, [], [], [], []);
      ghost var r := Some(e0);
      var i := 0;
      while i < |t.tokens|
        invariant i <= |t.tokens| && r == AddTokens(t.vrrp, e0, t.tokens[..i])
        invariant ok && r.Some? && View() == Kept(r.value)
      {
        ok := PushToken(t.vrrp, t.tokens[i], r.value);
        assert t.tokens[..i + 1][..i] == t.tokens[..i];
        r := AddToken(t.vrrp, r.value, t.tokens[i]);
        i := i + 1;
        if !ok {
          FailStays(t.vrrp, e0, t.tokens, i);
          break;
        }
      }
      assert ok ==> t.tokens[..i] == t.tokens;
      if t.vrrp && vrrp4 == [] && vrrp6 == [] {
        vrrp4 := [MacPrefix(ANY_VRRP4, 40)];
        vrrp6 := [MacPrefix(ANY_VRRP6, 40)];
      }
    }
  }

  lemma Masks4Snoc(xs: seq<Prefix4>, x: Prefix4)
    ensures Masks4(xs + [x]) == Masks4(xs) + [Mask4(x)]
  {
  }

  lemma Masks6Snoc(xs: seq<Prefix6>, x: Prefix6)
    ensures Masks6(xs + [x]) == Masks6(xs) + [Mask6(x)]
  {
  }

  lemma {:induction false} FailStays(vrrp: bool, e: Entry, ts: seq<Token>, n: nat)
    requires n <= |ts| && AddTokens(vrrp, e, ts[..n]).None?
    ensures AddTokens(vrrp, e, ts).None?
    decreases |ts|
  {
    if n == |ts| {
      assert ts[..n] == ts;
    } else {
      var init := ts[..|ts| - 1];
      assert init[..n] == ts[..n];
      FailStays(vrrp, e, init, n);
    }
  }

  class Compiler {
    const dp: nat
    const port: nat
    var m: Match
    var allow: bool
    var flows: seq<Rule>

    constructor (dp: nat, port: nat)
      ensures this.dp == dp && this.port == port && flows == []
    {
      this.dp, this.port := dp, port;
      m := Match(0, 0, None, AnyType, None, None);
      allow := false;
      flows := [];
    }

    method ResetMatch()
      modifies this`m
      ensures m == PortMatch(dp, port)
    {
      m := Match(dp, port, None, AnyType, None, None);
    }

    method AddFlow(priority: nat)
      modifies this`flows
      ensures flows == old(flows) + [Rule(priority, m, allow)]
    {
      flows := flows + [Rule(priority, m, allow)];
    }

    method SetDst4(a: Ip4, mask: Ip4)
      modifies this`m
      ensures m == Dst4(old(m), a, mask)
    {
      m := m.(dst4 := Some(Masked(And(a, mask), mask)));
    }

    method SetDst6(a: Ip6, mask: Ip6)
      modifies this`m
      ensures m == Dst6(old(m), a, mask)
    {
      m := m.(dst6 := Some(Masked(And(a, mask), mask)));
    }

    method OutNoIp(x: MacPrefix)
      modifies this
      ensures flows == old(flows) + NoIpRules(PortMatch(dp, port), x)
    {
      ResetMatch();
      m := m.(ethDst := Some(Masked(And(x.addr, PrefixMask(48, x.plen)), PrefixMask(48, x.plen))));
      allow := true;
      AddFlow(85);
    }

    method OutIp4(x: MacPrefix, ip4: seq<MaskedIp4>)
      modifies this
      ensures flows == old(flows) + Ip4Rules(PortMatch(dp, port), x, ip4)
    {
      hide Fill, And, PrefixMask, IsZero;
      ResetMatch();
      m := m.(ethDst := Some(Masked(And(x.addr, PrefixMask(48, x.plen)), PrefixMask(48, x.plen))));
      m := m.(family := OnlyV4);
      ghost var base := m;
      allow := false;
      AddFlow(90);
      if ip4 == [] {
        return;
      }
      allow := true;
      AddrFlows4(ip4, base);
      SetDst4(Fill(32, true), Fill(32, true));
      assert m == Dst4(base, Fill(32, true), Fill(32, true));
      AddFlow(95);
      SetDst4(MULTICAST4, PrefixMask(32, 4));
      assert m == Dst4(base, MULTICAST4, PrefixMask(32, 4));
      AddFlow(95);
    }

    /** Appends the rules of these addresses; the match is left with the last one. */
    method AddrFlows4(ip4: seq<MaskedIp4>, ghost base: Match)
      requires allow && m == base && base.dst4 == None
      modifies this
      ensures allow && m.(dst4 := None) == base && flows == old(flows) + AddrsRules4(base, ip4)
    {
      hide Fill, And, PrefixMask, IsZero;
      ghost var start := flows;
      var i := 0;
      while i < |ip4|
        invariant i <= |ip4| && allow && m.(dst4 := None) == base
        invariant flows == start + AddrsRules4(base, ip4[..i])
      {
        assert ip4[..i + 1][..i] == ip4[..i];
        SetDst4(ip4[i].addr, ip4[i].mask);
        assert m == Dst4(base, ip4[i].addr, ip4[i].mask);
        AddFlow(95);
        if !IsZero(ip4[i].bcast) {
          SetDst4(ip4[i].bcast, Fill(32, true));
          assert m == Dst4(base, ip4[i].bcast, Fill(32, true));
          AddFlow(95);
        }
        i := i + 1;
      }
      assert ip4[..i] == ip4;
    }

    method OutIp6(x: MacPrefix, ip6: seq<MaskedIp6>)
      modifies this
      ensures flows == old(flows) + Ip6Rules(PortMatch(dp, port), x, ip6)
    {
      hide Fill, And, PrefixMask, IsZero, LinkLocal;
      ResetMatch();
      m := m.(ethDst := Some(Masked(And(x.addr, PrefixMask(48, x.plen)), PrefixMask(48, x.plen))));
      m := m.(family := OnlyV6);
      ghost var base := m;
      allow := false;
      AddFlow(90);
      if ip6 == [] {
        return;
      }
      allow := true;
      ghost var start := flows;
      var i := 0;
      while i < |ip6|
        invariant i <= |ip6| && allow && m.(dst6 := None) == base
        invariant flows == start + AddrsRules6(base, ip6[..i])
      {
        assert ip6[..i + 1][..i] == ip6[..i];
        SetDst6(ip6[i].addr, ip6[i].mask);
        assert m == Dst6(base, ip6[i].addr, ip6[i].mask);
        AddFlow(95);
        i := i + 1;
      }
      assert ip6[..i] == ip6;
      SetDst6(LinkLocal(x.addr), PrefixMask(128, 80 + x.plen));
      assert m == Dst6(base, LinkLocal(x.addr), PrefixMask(128, 80 + x.plen));
      AddFlow(95);
      SetDst6(MULTICAST6, PrefixMask(128, 8));
      assert m == Dst6(base, MULTICAST6, PrefixMask(128, 8));
      AddFlow(95);
    }

    method OutEntry(ps: PsAddrs, ghost e: Entry)
      requires ps.View() == Kept(e) && !IsVrrp(e)
      modifies this
      ensures flows == old(flows) + EntryRules(PortMatch(dp, port), e)
    {
      hide NoIpRules, Ip4Rules, Ip6Rules, Masks4, Masks6;
      ghost var pm := PortMatch(dp, port);
      var x := MacPrefix(ps.phys, 48);
      OneMac(pm, x, ps.ip4, ps.ip6);
      OutNoIp(x);
      if ps.ip4 != [] || ps.ip6 != [] {
        OutIp4(x, ps.ip4);
      }
      if ps.ip4 != [] || ps.ip6 != [] {
        OutIp6(x, ps.ip6);
      }
    }

    method OutVrrpEntry(ps: PsAddrs, ghost e: Entry)
      requires ps.View() == Kept(e) && IsVrrp(e)
      modifies this
      ensures flows == old(flows) + EntryRules(PortMatch(dp, port), e)
    {
      hide NoIpAll, Ip4All, Ip6All, Masks4, Masks6, PortMatch;
      ghost var pm := PortMatch(dp, port);
      NoIpConcat(pm, ps.vrrp4, ps.vrrp6);
      AllNoIp(ps.vrrp4);
      AllNoIp(ps.vrrp6);
      if ps.ip4 != [] || ps.ip6 != [] {
        AllIp4(ps.vrrp4, ps.ip4);
      }
      if ps.ip4 != [] || ps.ip6 != [] {
        AllIp6(ps.vrrp6, ps.ip6);
      }
    }

    method AllNoIp(macs: seq<MacPrefix>)
      modifies this
      ensures flows == old(flows) + NoIpAll(PortMatch(dp, port), macs)
    {
      hide NoIpRules;
      ghost var f0 := flows;
      var i := 0;
      while i < |macs|
        invariant i <= |macs| && flows == f0 + NoIpAll(PortMatch(dp, port), macs[..i])
      {
        assert macs[..i + 1][..i] == macs[..i];
        OutNoIp(macs[i]);
        i := i + 1;
      }
      assert macs[..i] == macs;
    }

    method AllIp4(macs: seq<MacPrefix>, ip4: seq<MaskedIp4>)
      modifies this
      ensures flows == old(flows) + Ip4All(PortMatch(dp, port), macs, ip4)
    {
      hide Ip4Rules;
      ghost var f0 := flows;
      var i := 0;
      while i < |macs|
        invariant i <= |macs| && flows == f0 + Ip4All(PortMatch(dp, port), macs[..i], ip4)
      {
        assert macs[..i + 1][..i] == macs[..i];
        OutIp4(macs[i], ip4);
        i := i + 1;
      }
      assert macs[..i] == macs;
    }

    method AllIp6(macs: seq<MacPrefix>, ip6: seq<MaskedIp6>)
      modifies this
      ensures flows == old(flows) + Ip6All(PortMatch(dp, port), macs, ip6)
    {
      hide Ip6Rules;
      ghost var f0 := flows;
      var i := 0;
      while i < |macs|
        invariant i <= |macs| && flows == f0 + Ip6All(PortMatch(dp, port), macs[..i], ip6)
      {
        assert macs[..i + 1][..i] == macs[..i];
        OutIp6(macs[i], ip6);
        i := i + 1;
      }
      assert macs[..i] == macs;
    }

    /** Every well-formed entry gets its rules; if there is one, the port also
        gets the rule that drops everything else. */
    method Consider(texts: seq<Text>)
      modifies this
      ensures flows == old(flows) + PortRules(dp, port, WellFormed(texts))
    {
      hide EntryRules, EntriesRules, WellFormed, Parsed;
      ghost var f0, pm := flows, PortMatch(dp, port);
      WellFormedEmpty(pm);
      if texts == [] {
        return;
      }
      var installed := false;
      var ps := new PsAddrs();
      var i := 0;
      while i < |texts|
        invariant i <= |texts| && ps.Cleared() && fresh(ps)
        invariant installed <==> WellFormed(texts[..i]) != []
        invariant flows == f0 + EntriesRules(pm, WellFormed(texts[..i]))
      {
        WellFormedSnoc(pm, texts, i);
        var ok := ConsiderEntry(ps, texts[i]);
        if ok {
          installed := true;
        }
        i := i + 1;
      }
      assert texts[..i] == texts;
      if installed {
        ResetMatch();
        allow := false;
        AddFlow(80);
      }
    }

    method ConsiderEntry(ps: PsAddrs, text: Text) returns (ok: bool)
      requires ps.Cleared()
      modifies this, ps
      ensures ps.Cleared() && (ok <==> Parsed(text).Some?)
      ensures flows == old(flows) + if ok then EntryRules(PortMatch(dp, port), Parsed(text).value) else []
    {
      hide EntryRules, Parsed;
      ok := ps.ParseEntry(text);
      if ok {
        if ps.vrrp4 == [] && ps.vrrp6 == [] {
          OutEntry(ps, Parsed(text).value);
        } else {
          OutVrrpEntry(ps, Parsed(text).value);
        }
      }
      ps.Clear();
    }
  }

  lemma OneMac(pm: Match, x: MacPrefix, ip4: seq<MaskedIp4>, ip6: seq<MaskedIp6>)
    ensures NoIpAll(pm, [x]) == NoIpRules(pm, x)
    ensures Ip4All(pm, [x], ip4) == Ip4Rules(pm, x, ip4)
    ensures Ip6All(pm, [x], ip6) == Ip6Rules(pm, x, ip6)
  {
    hide NoIpRules, Ip4Rules, Ip6Rules;
    assert [x][..0] == [];
  }

  lemma {:induction false} NoIpConcat(pm: Match, a: seq<MacPrefix>, b: seq<MacPrefix>)
    ensures NoIpAll(pm, a + b) == NoIpAll(pm, a) + NoIpAll(pm, b)
  {
    if b == [] {
      assert a + b == a;
    } else {
      var init := b[..|b| - 1];
      NoIpConcat(pm, a, init);
      assert (a + b)[..|a + b| - 1] == a + init;
    }
  }

  lemma WellFormedEmpty(pm: Match)
    ensures WellFormed([]) == [] && EntriesRules(pm, []) == []
  {
  }

  lemma WellFormedSnoc(pm: Match, ts: seq<Text>, i: nat)
    requires i < |ts|
    ensures var r := Parsed(ts[i]);
            && WellFormed(ts[..i + 1]) == WellFormed(ts[..i]) + (if r.Some? then [r.value] else [])
            && EntriesRules(pm, WellFormed(ts[..i + 1])) == EntriesRules(pm, WellFormed(ts[..i]))
                + if r.Some? then EntryRules(pm, r.value) else []
  {
    hide EntryRules, Parsed;
    assert ts[..i + 1][..i] == ts[..i];
    var es, r := WellFormed(ts[..i]), Parsed(ts[i]);
    if r.Some? {
      assert (es + [r.value])[..|es|] == es;
    } else {
      assert es + [] == es;
      assert EntriesRules(pm, es) + [] == EntriesRules(pm, es);
    }
  }
}
