/** What the tokens of a port security entry come to, said of the tokens themselves. */
module PortSecText {
  import opened Common
  import opened PortSec
  import opened PortSecMeaning

  // ---- The tokens ----

  /** The bits of an IPv4 address in its IPv6 form. */
  ghost predicate Maps(ip: Ip6) {
    (forall k :: 0 <= k < 80 ==> !ip[k]) && (forall k :: 80 <= k < 96 ==> ip[k])
  }

  /** The first five bytes are 00:00:5e:00:01 for IPv4 and 00:00:5e:00:02 for IPv6. */
  ghost predicate Vrrp4(mac: Mac) { forall k :: 0 <= k < 40 ==> (mac[k] <==> k in {17, 19, 20, 21, 22, 39}) }

  ghost predicate Vrrp6(mac: Mac) { forall k :: 0 <= k < 40 ==> (mac[k] <==> k in {17, 19, 20, 21, 22, 38}) }

  /** The token is accepted: an address with a prefix of its family; in a VRRP entry
      also a VRRP MAC with bits in its prefix only, and an identifier if it is whole. */
  ghost predicate Accepted(vrrp: bool, t: Token) {
    match t
    case IpToken(ip, plen) => if Maps(ip) then plen <= 32 else plen <= 128
    case MacToken(mac, plen) =>
      && vrrp && 40 <= plen <= 48 && (Vrrp4(mac) || Vrrp6(mac))
      && (forall k :: plen <= k < 48 ==> !mac[k])
      && (plen == 48 ==> exists k :: 40 <= k < 48 && mac[k])
    case BadToken => false
  }

  ghost predicate Good(t: Text) { t.mac.Some? && forall x :: x in t.tokens ==> Accepted(t.vrrp, x) }

  ghost predicate NamesMac(t: Text) { exists x :: x in t.tokens && x.MacToken? }

  /** The destination is one the token lists: the subnet, or if there are bits after
      the prefix the host, for IPv4 also with the bits after the prefix all set. */
  ghost predicate TokenLists4(t: Token, d: Ip4) {
    && t.IpToken? && Maps(t.ip) && t.plen <= 32
    && var a := t.ip[96..];
       if forall k :: t.plen <= k < 32 ==> !a[k]
       then forall k :: 0 <= k < t.plen ==> d[k] == a[k]
       else || (forall k :: 0 <= k < 32 ==> d[k] == a[k])
            || (forall k :: 0 <= k < 32 ==> d[k] == (k >= t.plen || a[k]))
  }

  ghost predicate TokenLists6(t: Token, d: Ip6) {
    && t.IpToken? && !Maps(t.ip) && t.plen <= 128
    && if forall k :: t.plen <= k < 128 ==> !t.ip[k]
       then forall k :: 0 <= k < t.plen ==> d[k] == t.ip[k]
       else d == t.ip
  }

  // ---- What an entry keeps of them ----

  lemma MapsIff(ip: Ip6)
    ensures IsV4Mapped(ip) <==> Maps(ip)
  {
    assert forall k :: 0 <= k < 80 ==> ip[..80][k] == ip[k];
    assert forall k :: 80 <= k < 96 ==> ip[80..96][k - 80] == ip[k];
    if Maps(ip) { assert ip[80..96] == Fill(16, true); }
  }

  lemma VrrpBits()
    ensures Vrrp4(ANY_VRRP4) && Vrrp6(ANY_VRRP6)
    ensures forall k :: 40 <= k < 48 ==> !ANY_VRRP4[k] && !ANY_VRRP6[k]
  {
  }

  lemma VrrpIff(mac: Mac)
    ensures mac[..40] == ANY_VRRP4[..40] <==> Vrrp4(mac)
    ensures mac[..40] == ANY_VRRP6[..40] <==> Vrrp6(mac)
    ensures !(Vrrp4(mac) && Vrrp6(mac))
    ensures mac == ANY_VRRP4 <==> Vrrp4(mac) && forall k :: 40 <= k < 48 ==> !mac[k]
    ensures mac == ANY_VRRP6 <==> Vrrp6(mac) && forall k :: 40 <= k < 48 ==> !mac[k]
  {
    VrrpBits();
    SameBits(mac, ANY_VRRP4, 40);
    SameBits(mac, ANY_VRRP6, 40);
    assert Vrrp4(mac) ==> mac[39];
    assert Vrrp6(mac) ==> !mac[39];
  }

  /** The entry holds what these tokens list, each under its kind. */
  ghost predicate Addresses(e: Entry, ts: seq<Token>) {
    && (forall x :: x in e.ip4 <==> exists t :: t in ts && t.IpToken? && Maps(t.ip) && x == Prefix4(t.ip[96..], t.plen))
    && (forall x :: x in e.ip6 <==> !Maps(x.addr) && IpToken(x.addr, x.plen) in ts)
  }

  ghost predicate Collected(e: Entry, ts: seq<Token>) {
    && Addresses(e, ts)
    && (forall x :: x in e.vrrp4 <==> Vrrp4(x.addr) && MacToken(x.addr, x.plen) in ts)
    && (forall x :: x in e.vrrp6 <==> Vrrp6(x.addr) && MacToken(x.addr, x.plen) in ts)
  }

  /** The entry with what one more token lists. */
  ghost predicate Added(e: Entry, e': Entry, t: Token) {
    && e'.phys == e.phys
    && e'.ip4 == e.ip4 + (if t.IpToken? && Maps(t.ip) then [Prefix4(t.ip[96..], t.plen)] else [])
    && e'.ip6 == e.ip6 + (if t.IpToken? && !Maps(t.ip) then [Prefix6(t.ip, t.plen)] else [])
    && e'.vrrp4 == e.vrrp4 + (if t.MacToken? && Vrrp4(t.mac) then [MacPrefix(t.mac, t.plen)] else [])
    && e'.vrrp6 == e.vrrp6 + (if t.MacToken? && Vrrp6(t.mac) then [MacPrefix(t.mac, t.plen)] else [])
  }

  lemma AddTokenExact(vrrp: bool, e: Entry, t: Token)
    ensures var r := AddToken(vrrp, e, t);
            && (r.Some? <==> Accepted(vrrp, t))
            && (r.Some? ==> Added(e, r.value, t))
  {
    hide IsV4Mapped, Maps, Vrrp4, Vrrp6, Fill;
    match t
    case IpToken(ip, plen) => MapsIff(ip);
    case MacToken(mac, plen) =>
      VrrpIff(mac);
      if plen <= 48 { HostZero(mac, plen); }
    case BadToken =>
  }

  lemma {:induction false} AddTokensExact(vrrp: bool, mac: Mac, ts: seq<Token>)
    ensures var r := AddTokens(vrrp, Entry(mac, [], [], [], []), ts);
            && (r.Some? <==> forall t :: t in ts ==> Accepted(vrrp, t))
            && (r.Some? ==> r.value.phys == mac && Collected(r.value, ts))
  {
    hide AddToken, Accepted, Maps, Vrrp4, Vrrp6;
    var e0 := Entry(mac, [], [], [], []);
    if ts != [] {
      var init, t := ts[..|ts| - 1], ts[|ts| - 1];
      assert ts == init + [t];
      AddTokensExact(vrrp, mac, init);
      var r := AddTokens(vrrp, e0, init);
      if r.Some? {
        AddTokenExact(vrrp, r.value, t);
        if AddToken(vrrp, r.value, t).Some? { CollectOne(r.value, init, AddToken(vrrp, r.value, t).value, t); }
      }
    }
  }

  lemma CollectOne(e: Entry, ts: seq<Token>, e': Entry, t: Token)
    requires Collected(e, ts) && Added(e, e', t)
    ensures Collected(e', ts + [t])
  {
    hide Maps, Vrrp4, Vrrp6;
  }

  /** MAIN RESULT.  A text is an entry iff it has a MAC address and every token is
      accepted.  The entry then lists exactly the addresses of its tokens, each in its
      family and with its own prefix, and stands for the VRRP prefixes it names, or for
      all of both families if it is a VRRP entry that names none. */
  lemma ParsedExact(t: Text)
    ensures Parsed(t).Some? <==> Good(t)
    ensures Good(t) ==>
              var e := Parsed(t).value;
              && e.phys == t.mac.value
              && if t.vrrp && !NamesMac(t)
                 then && Collected(e.(vrrp4 := [], vrrp6 := []), t.tokens)
                      && e.vrrp4 == [MacPrefix(ANY_VRRP4, 40)] && e.vrrp6 == [MacPrefix(ANY_VRRP6, 40)]
                 else Collected(e, t.tokens)
  {
    hide Maps, Vrrp4, Vrrp6, AddTokens, Fill;
    if t.mac.Some? {
      AddTokensExact(t.vrrp, t.mac.value, t.tokens);
      if Good(t) { NamedMacs(t, AddTokens(t.vrrp, Entry(t.mac.value, [], [], [], []), t.tokens).value); }
    }
  }

  lemma NamedMacs(t: Text, e: Entry)
    requires Good(t) && Collected(e, t.tokens)
    ensures IsVrrp(e) <==> NamesMac(t)
  {
    hide Maps, Vrrp4, Vrrp6;
    if IsVrrp(e) {
      var x := if e.vrrp4 != [] then e.vrrp4[0] else e.vrrp6[0];
      assert x in e.vrrp4 || x in e.vrrp6;
      assert MacToken(x.addr, x.plen) in t.tokens;
    }
    if NamesMac(t) {
      var x :| x in t.tokens && x.MacToken?;
      assert Accepted(t.vrrp, x);
      var y := MacPrefix(x.mac, x.plen);
      assert MacToken(y.addr, y.plen) == x;
      assert y in e.vrrp4 || y in e.vrrp6;
    }
  }

  // ---- What an entry allows ----

  lemma Lists4Iff(t: Token, d: Ip4)
    requires t.IpToken? && Maps(t.ip) && t.plen <= 32
    ensures TokenLists4(t, d) <==> Listed4(Prefix4(t.ip[96..], t.plen), d)
  {
    hide Maps, IsZero, Fill;
    var a, n := t.ip[96..], t.plen;
    HostZero(a, n);
    SameBits(d, a, n);
    AllBits(d, a);
    BroadcastBits(d, a, n);
  }

  lemma AllBits(a: Bits, b: Bits)
    requires |a| == |b|
    ensures a == b <==> forall k :: 0 <= k < |a| ==> a[k] == b[k]
  {
  }

  lemma BroadcastBits(d: Ip4, a: Ip4, n: nat)
    requires n <= 32
    ensures d == a[..n] + Fill(32 - n, true) <==> forall k :: 0 <= k < 32 ==> d[k] == (k >= n || a[k])
  {
    var x := a[..n] + Fill(32 - n, true);
    assert forall k :: 0 <= k < 32 ==> x[k] == (k >= n || a[k]);
    AllBits(d, x);
  }

  lemma Lists6Iff(t: Token, d: Ip6)
    requires t.IpToken? && !Maps(t.ip) && t.plen <= 128
    ensures TokenLists6(t, d) <==> Listed6(Prefix6(t.ip, t.plen), d)
  {
    hide Maps, IsZero;
    HostZero(t.ip, t.plen);
    SameBits(d, t.ip, t.plen);
  }

  lemma HostZero(a: Bits, plen: nat)
    requires plen <= |a|
    ensures IsZero(a[plen..]) <==> forall k :: plen <= k < |a| ==> !a[k]
  {
    if IsZero(a[plen..]) {
      forall k | plen <= k < |a| ensures !a[k] { assert a[plen..][k - plen] == a[k]; }
    }
  }

  lemma SameBits(a: Bits, b: Bits, n: nat)
    requires n <= |a| && n <= |b|
    ensures a[..n] == b[..n] <==> forall k :: 0 <= k < n ==> a[k] == b[k]
  {
    if a[..n] == b[..n] {
      forall k | 0 <= k < n ensures a[k] == b[k] { assert a[..n][k] == b[..n][k]; }
    }
  }

  /** MAIN RESULT.  An entry allows an IPv4 destination iff one of its tokens lists it,
      or it is broadcast or multicast; an IPv6 destination iff one of its tokens lists
      it, or it is multicast or the link-local address of one of its MACs. */
  lemma TextAllows(t: Text)
    requires Good(t)
    ensures Parsed(t).Some? && EntryOk(Parsed(t).value)
    ensures var e := Parsed(t).value;
            && (e.ip4 != [] <==> exists x :: x in t.tokens && x.IpToken? && Maps(x.ip))
            && (e.ip6 != [] <==> exists x :: x in t.tokens && x.IpToken? && !Maps(x.ip))
            && (forall d :: Allowed4(e, d) <==>
                  (exists x :: x in t.tokens && TokenLists4(x, d)) || d == Fill(32, true) || Multicast4(d))
            && (forall d, mac: MacPrefix :: mac.plen <= 48 ==>
                  (Allowed6(e, mac, d) <==>
                     (exists x :: x in t.tokens && TokenLists6(x, d)) || LinkLocalOf(mac, d) || Multicast6(d)))
  {
    hide Maps, Vrrp4, Vrrp6, Fill, Parsed, TokenLists4, TokenLists6, Listed4, Listed6, Multicast4, Multicast6,
         LinkLocalOf;
    ParsedExact(t);
    ParsedEntryOk(t);
    var e := Parsed(t).value;
    Kinds(t, e);
    forall d: Ip4
      ensures Allowed4(e, d) <==>
              (exists x :: x in t.tokens && TokenLists4(x, d)) || d == Fill(32, true) || Multicast4(d)
    {
      TextLists4(t, e, d);
    }
    forall d: Ip6, mac: MacPrefix | mac.plen <= 48
      ensures Allowed6(e, mac, d) <==>
              (exists x :: x in t.tokens && TokenLists6(x, d)) || LinkLocalOf(mac, d) || Multicast6(d)
    {
      TextLists6(t, e, d);
    }
  }

  lemma Kinds(t: Text, e: Entry)
    requires Addresses(e, t.tokens)
    ensures e.ip4 != [] <==> exists x :: x in t.tokens && x.IpToken? && Maps(x.ip)
    ensures e.ip6 != [] <==> exists x :: x in t.tokens && x.IpToken? && !Maps(x.ip)
  {
    hide Maps;
    if e.ip4 != [] { assert e.ip4[0] in e.ip4; }
    if e.ip6 != [] {
      var y := e.ip6[0];
      assert y in e.ip6 && IpToken(y.addr, y.plen) in t.tokens;
    }
    if x :| x in t.tokens && x.IpToken? && Maps(x.ip) { assert Prefix4(x.ip[96..], x.plen) in e.ip4; }
    if x :| x in t.tokens && x.IpToken? && !Maps(x.ip) {
      var y := Prefix6(x.ip, x.plen);
      assert IpToken(y.addr, y.plen) == x;
      assert y in e.ip6;
    }
  }

  lemma TextLists4(t: Text, e: Entry, d: Ip4)
    requires Good(t) && Addresses(e, t.tokens) && EntryOk(e)
    ensures (exists x :: x in e.ip4 && Listed4(x, d)) <==> exists x :: x in t.tokens && TokenLists4(x, d)
  {
    hide Maps, Listed4, Vrrp4, Vrrp6;
    if y :| y in e.ip4 && Listed4(y, d) {
      var x :| x in t.tokens && x.IpToken? && Maps(x.ip) && y == Prefix4(x.ip[96..], x.plen);
      Lists4Iff(x, d);
    }
    if x :| x in t.tokens && TokenLists4(x, d) {
      Lists4Iff(x, d);
      assert Prefix4(x.ip[96..], x.plen) in e.ip4;
    }
  }

  lemma TextLists6(t: Text, e: Entry, d: Ip6)
    requires Good(t) && Addresses(e, t.tokens) && EntryOk(e)
    ensures (exists x :: x in e.ip6 && Listed6(x, d)) <==> exists x :: x in t.tokens && TokenLists6(x, d)
  {
    hide Maps, Listed6, Vrrp4, Vrrp6;
    if y :| y in e.ip6 && Listed6(y, d) {
      var x := IpToken(y.addr, y.plen);
      assert x in t.tokens;
      Lists6Iff(x, d);
    }
    if x :| x in t.tokens && TokenLists6(x, d) {
      Lists6Iff(x, d);
      var y := Prefix6(x.ip, x.plen);
      assert IpToken(y.addr, y.plen) == x;
      assert y in e.ip6;
    }
  }

  /** The entries that count are those of the good texts. */
  lemma {:induction false} WellFormedExact(ts: seq<Text>)
    ensures forall e :: e in WellFormed(ts) <==> exists t :: t in ts && Good(t) && Parsed(t) == Some(e)
  {
    hide Good, Parsed;
    if ts != [] {
      var init, t := ts[..|ts| - 1], ts[|ts| - 1];
      assert ts == init + [t];
      WellFormedExact(init);
      ParsedExact(t);
    }
  }
}
