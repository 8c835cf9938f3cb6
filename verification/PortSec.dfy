/** Egress port security: the declarative meaning of a port's address list, the
    prioritised rules it is compiled to, and the builders that emit them
    (ovn/controller/lflow.c).  Addresses are bit strings, most significant bit
    first.  Lexing of the text is not modelled: an entry arrives as tokens. */
module PortSec {
  import opened Common

  type Bits = seq<bool>
  type Mac = b: Bits | |b| == 48 witness seq(48, _ => false)
  type Ip4 = b: Bits | |b| == 32 witness seq(32, _ => false)
  type Ip6 = b: Bits | |b| == 128 witness seq(128, _ => false)

  // ---- Bit strings ----

  function Fill(n: nat, b: bool): (r: Bits)
    ensures |r| == n
  {
    seq(n, _ => b)
  }

  function And(a: Bits, b: Bits): (r: Bits)
    requires |a| == |b|
    ensures |r| == |a|
  {
    seq(|a|, k requires 0 <= k < |a| => a[k] && b[k])
  }

  function Or(a: Bits, b: Bits): (r: Bits)
    requires |a| == |b|
    ensures |r| == |a|
  {
    seq(|a|, k requires 0 <= k < |a| => a[k] || b[k])
  }

  function Not(a: Bits): (r: Bits)
    ensures |r| == |a|
  {
    seq(|a|, k requires 0 <= k < |a| => !a[k])
  }

  function PrefixMask(n: nat, plen: nat): (r: Bits)
    ensures |r| == n
  {
    seq(n, k => k < plen)
  }

  predicate IsZero(a: Bits) {
    forall k :: 0 <= k < |a| ==> !a[k]
  }

  // ---- Matches and rules ----

  datatype Masked = Masked(value: Bits, mask: Bits)

  predicate Hit(mk: Masked, d: Bits) {
    |mk.value| == |mk.mask| == |d| && forall k :: 0 <= k < |d| ==> (d[k] && mk.mask[k]) == mk.value[k]
  }

  function MaskedWith(a: Bits, mask: Bits): Masked
    requires |a| == |mask|
  {
    Masked(And(a, mask), mask)
  }

  datatype L3 = V4(dst4: Ip4) | V6(dst6: Ip6) | NotIp

  datatype Packet = Packet(dp: nat, outport: nat, ethDst: Mac, l3: L3)

  datatype Family = AnyType | OnlyV4 | OnlyV6

  datatype Match = Match(dp: nat, outport: nat, ethDst: Option<Masked>, family: Family, dst4: Option<Masked>,
                         dst6: Option<Masked>)

  predicate Matches(m: Match, p: Packet) {
    && p.dp == m.dp && p.outport == m.outport
    && (m.ethDst.Some? ==> Hit(m.ethDst.value, p.ethDst))
    && (m.family == OnlyV4 ==> p.l3.V4?)
    && (m.family == OnlyV6 ==> p.l3.V6?)
    && (m.dst4.Some? ==> p.l3.V4? && Hit(m.dst4.value, p.l3.dst4))
    && (m.dst6.Some? ==> p.l3.V6? && Hit(m.dst6.value, p.l3.dst6))
  }

  datatype Rule = Rule(priority: nat, m: Match, allow: bool)

  /** A rule that the packet matches, with no matching rule above it, says this. */
  ghost predicate Decides(rules: seq<Rule>, p: Packet, allow: bool) {
    exists r :: r in rules && Matches(r.m, p) && r.allow == allow
      && forall q :: q in rules && Matches(q.m, p) ==> q.priority <= r.priority
  }

  // ---- What a port's address list means ----

  datatype Prefix4 = Prefix4(addr: Ip4, plen: nat)
  datatype Prefix6 = Prefix6(addr: Ip6, plen: nat)
  datatype MacPrefix = MacPrefix(addr: Mac, plen: nat)

  /** A parsed entry: its MAC addresses and the addresses it lists, as given. */
  datatype Entry = Entry(phys: Mac, vrrp4: seq<MacPrefix>, vrrp6: seq<MacPrefix>, ip4: seq<Prefix4>, ip6: seq<Prefix6>)

  predicate EntryOk(e: Entry) {
    && (forall x :: x in e.ip4 ==> x.plen <= 32)
    && (forall x :: x in e.ip6 ==> x.plen <= 128)
    && (forall x :: x in e.vrrp4 ==> 40 <= x.plen <= 48)
    && (forall x :: x in e.vrrp6 ==> 40 <= x.plen <= 48)
  }

  predicate IsVrrp(e: Entry) {
    e.vrrp4 != [] || e.vrrp6 != []
  }

  predicate ListsAny(e: Entry) {
    e.ip4 != [] || e.ip6 != []
  }

  /** The MAC addresses an entry stands for: for all traffic, for IPv4, for IPv6.
      They differ only for a VRRP entry. */
  function Macs(e: Entry): seq<MacPrefix> {
    if IsVrrp(e) then e.vrrp4 + e.vrrp6 else [MacPrefix(e.phys, 48)]
  }

  function Macs4(e: Entry): seq<MacPrefix> {
    if IsVrrp(e) then e.vrrp4 else [MacPrefix(e.phys, 48)]
  }

  function Macs6(e: Entry): seq<MacPrefix> {
    if IsVrrp(e) then e.vrrp6 else [MacPrefix(e.phys, 48)]
  }

  predicate MacIn(x: MacPrefix, d: Mac)
    requires x.plen <= 48
  {
    d[..x.plen] == x.addr[..x.plen]
  }

  /** An address with host bits stands for that host and for the broadcast address
      of its subnet; one without stands for the whole subnet. */
  predicate Listed4(x: Prefix4, d: Ip4)
    requires x.plen <= 32
  {
    if IsZero(x.addr[x.plen..]) then d[..x.plen] == x.addr[..x.plen]
    else d == x.addr || d == x.addr[..x.plen] + Fill(32 - x.plen, true)
  }

  predicate Listed6(x: Prefix6, d: Ip6)
    requires x.plen <= 128
  {
    if IsZero(x.addr[x.plen..]) then d[..x.plen] == x.addr[..x.plen] else d == x.addr
  }

  predicate Multicast4(d: Ip4) {
    d[..4] == [true, true, true, false]
  }

  predicate Multicast6(d: Ip6) {
    d[..8] == Fill(8, true)
  }

  const LLA_PREFIX: Bits := Fill(7, true) + [false, true] + Fill(55, false)  // fe80::/64

  /** The first half of an interface identifier: the vendor part of the MAC with
      its universal/local bit flipped, then ff:fe. */
  function Eui64Head(oui: Bits): (r: Bits)
    requires |oui| == 24
    ensures |r| == 40
  {
    oui[..6] + [!oui[6]] + oui[7..] + Fill(15, true) + [false]
  }

  /** The link-local address made from a MAC address. */
  function LinkLocal(mac: Mac): (r: Ip6) {
    LLA_PREFIX + Eui64Head(mac[..24]) + mac[24..]
  }

  /** d is the link-local address of a MAC address that x stands for. */
  ghost predicate LinkLocalOf(x: MacPrefix, d: Ip6)
    requires x.plen <= 48
  {
    exists mac: Mac :: MacIn(x, mac) && d == LinkLocal(mac)
  }

  predicate Allowed4(e: Entry, d: Ip4)
    requires EntryOk(e)
  {
    (exists x :: x in e.ip4 && Listed4(x, d)) || d == Fill(32, true) || Multicast4(d)
  }

  ghost predicate Allowed6(e: Entry, mac: MacPrefix, d: Ip6)
    requires EntryOk(e) && mac.plen <= 48
  {
    (exists x :: x in e.ip6 && Listed6(x, d)) || LinkLocalOf(mac, d) || Multicast6(d)
  }

  ghost predicate AllOk(es: seq<Entry>) {
    forall e :: e in es ==> EntryOk(e)
  }

  /** The entry stands for the packet's destination MAC address. */
  ghost predicate Knows(e: Entry, d: Mac)
    requires EntryOk(e)
  {
    exists x :: x in Macs(e) && MacIn(x, d)
  }

  /** It does so, and restricts the addresses of that family. */
  ghost predicate Restricts4(e: Entry, d: Mac)
    requires EntryOk(e)
  {
    ListsAny(e) && exists x :: x in Macs4(e) && MacIn(x, d)
  }

  ghost predicate Restricts6(e: Entry, d: Mac)
    requires EntryOk(e)
  {
    ListsAny(e) && exists x :: x in Macs6(e) && MacIn(x, d)
  }

  ghost predicate Admits4(e: Entry, d: Mac, dst: Ip4)
    requires EntryOk(e)
  {
    e.ip4 != [] && Allowed4(e, dst) && exists x :: x in Macs4(e) && MacIn(x, d)
  }

  ghost predicate Admits6(e: Entry, d: Mac, dst: Ip6)
    requires EntryOk(e)
  {
    e.ip6 != [] && exists x :: x in Macs6(e) && MacIn(x, d) && Allowed6(e, x, dst)
  }

  /** A packet to the port is let through when some entry knows its destination
      MAC and, if it is an IP packet, no entry with that MAC restricts the family
      or one that lists addresses of the family admits the destination. */
  ghost predicate Allowed(es: seq<Entry>, p: Packet)
    requires AllOk(es)
  {
    && (exists e :: e in es && Knows(e, p.ethDst))
    && match p.l3
       case NotIp => true
       case V4(d) => (forall e :: e in es ==> !Restricts4(e, p.ethDst))
                     || exists e :: e in es && Admits4(e, p.ethDst, d)
       case V6(d) => (forall e :: e in es ==> !Restricts6(e, p.ethDst))
                     || exists e :: e in es && Admits6(e, p.ethDst, d)
  }

  // ---- The addresses as the compiler keeps them ----

  datatype MaskedIp4 = MaskedIp4(addr: Ip4, mask: Ip4, bcast: Ip4)
  datatype MaskedIp6 = MaskedIp6(addr: Ip6, mask: Ip6)

  /** A broadcast address of zero stands for none. */
  function Mask4(x: Prefix4): MaskedIp4 {
    var mask := PrefixMask(32, x.plen);
    var host := !IsZero(And(x.addr, Not(mask)));
    MaskedIp4(x.addr, if host then Fill(32, true) else mask, if host then Or(x.addr, Not(mask)) else Fill(32, false))
  }

  function Mask6(x: Prefix6): MaskedIp6 {
    var mask := PrefixMask(128, x.plen);
    MaskedIp6(x.addr, if !IsZero(And(x.addr, Not(mask))) then Fill(128, true) else mask)
  }

  datatype PsAddr = PsAddr(phys: Mac, vrrp4: seq<MacPrefix>, vrrp6: seq<MacPrefix>, ip4: seq<MaskedIp4>,
                           ip6: seq<MaskedIp6>)

  function Masks4(xs: seq<Prefix4>): (r: seq<MaskedIp4>)
    ensures |r| == |xs|
  {
    seq(|xs|, k requires 0 <= k < |xs| => Mask4(xs[k]))
  }

  function Masks6(xs: seq<Prefix6>): (r: seq<MaskedIp6>)
    ensures |r| == |xs|
  {
    seq(|xs|, k requires 0 <= k < |xs| => Mask6(xs[k]))
  }

  function Kept(e: Entry): PsAddr {
    PsAddr(e.phys, e.vrrp4, e.vrrp6, Masks4(e.ip4), Masks6(e.ip6))
  }

  // ---- The rules ----

  function PortMatch(dp: nat, port: nat): Match {
    Match(dp, port, None, AnyType, None, None)
  }

  function ToMac(m: Match, x: MacPrefix): Match {
    m.(ethDst := Some(MaskedWith(x.addr, PrefixMask(48, x.plen))))
  }

  function Dst4(m: Match, a: Ip4, mask: Ip4): Match {
    m.(dst4 := Some(MaskedWith(a, mask)))
  }

  function Dst6(m: Match, a: Ip6, mask: Ip6): Match {
    m.(dst6 := Some(MaskedWith(a, mask)))
  }

  const MULTICAST4: Ip4 := Fill(3, true) + Fill(29, false)
  const MULTICAST6: Ip6 := Fill(8, true) + Fill(120, false)

  function AddrRules4(m: Match, a: MaskedIp4): seq<Rule> {
    [Rule(95, Dst4(m, a.addr, a.mask), true)]
    + if IsZero(a.bcast) then [] else [Rule(95, Dst4(m, a.bcast, Fill(32, true)), true)]
  }

  function AddrsRules4(m: Match, xs: seq<MaskedIp4>): seq<Rule> {
    if xs == [] then [] else AddrsRules4(m, xs[..|xs| - 1]) + AddrRules4(m, xs[|xs| - 1])
  }

  function AddrsRules6(m: Match, xs: seq<MaskedIp6>): seq<Rule> {
    if xs == [] then []
    else AddrsRules6(m, xs[..|xs| - 1]) + [Rule(95, Dst6(m, xs[|xs| - 1].addr, xs[|xs| - 1].mask), true)]
  }

  function NoIpRules(port: Match, x: MacPrefix): seq<Rule> {
    [Rule(85, ToMac(port, x), true)]
  }

  function Ip4Rules(port: Match, x: MacPrefix, ip4: seq<MaskedIp4>): seq<Rule> {
    var m := ToMac(port, x).(family := OnlyV4);
    [Rule(90, m, false)]
    + if ip4 == [] then []
      else AddrsRules4(m, ip4)
           + [Rule(95, Dst4(m, Fill(32, true), Fill(32, true)), true),
              Rule(95, Dst4(m, MULTICAST4, PrefixMask(32, 4)), true)]
  }

  function Ip6Rules(port: Match, x: MacPrefix, ip6: seq<MaskedIp6>): seq<Rule> {
    var m := ToMac(port, x).(family := OnlyV6);
    [Rule(90, m, false)]
    + if ip6 == [] then []
      else AddrsRules6(m, ip6)
           + [Rule(95, Dst6(m, LinkLocal(x.addr), PrefixMask(128, 80 + x.plen)), true),
              Rule(95, Dst6(m, MULTICAST6, PrefixMask(128, 8)), true)]
  }

  function NoIpAll(port: Match, xs: seq<MacPrefix>): seq<Rule> {
    if xs == [] then [] else NoIpAll(port, xs[..|xs| - 1]) + NoIpRules(port, xs[|xs| - 1])
  }

  function Ip4All(port: Match, xs: seq<MacPrefix>, ip4: seq<MaskedIp4>): seq<Rule> {
    if xs == [] then [] else Ip4All(port, xs[..|xs| - 1], ip4) + Ip4Rules(port, xs[|xs| - 1], ip4)
  }

  function Ip6All(port: Match, xs: seq<MacPrefix>, ip6: seq<MaskedIp6>): seq<Rule> {
    if xs == [] then [] else Ip6All(port, xs[..|xs| - 1], ip6) + Ip6Rules(port, xs[|xs| - 1], ip6)
  }

  function EntryRules(port: Match, e: Entry): seq<Rule> {
    NoIpAll(port, Macs(e))
    + if ListsAny(e) then Ip4All(port, Macs4(e), Masks4(e.ip4)) + Ip6All(port, Macs6(e), Masks6(e.ip6)) else []
  }

  function EntriesRules(port: Match, es: seq<Entry>): seq<Rule> {
    if es == [] then [] else EntriesRules(port, es[..|es| - 1]) + EntryRules(port, es[|es| - 1])
  }

  /** The rules for a port whose well-formed entries are these. */
  function PortRules(dp: nat, port: nat, es: seq<Entry>): seq<Rule> {
    var m := PortMatch(dp, port);
    EntriesRules(m, es) + if es == [] then [] else [Rule(80, m, false)]
  }

  // ---- Parsing ----

  datatype Token = MacToken(mac: Mac, plen: nat) | IpToken(ip: Ip6, plen: nat) | BadToken

  /** The text of an entry after lexing.  Without a MAC it is not an entry. */
  datatype Text = Text(vrrp: bool, mac: Option<Mac>, tokens: seq<Token>)

  predicate IsV4Mapped(ip: Ip6) {
    IsZero(ip[..80]) && ip[80..96] == Fill(16, true)
  }

  // 00:00:5e:00:01:00 and 00:00:5e:00:02:00
  const ANY_VRRP4: Mac :=
    Fill(17, false) + [true, false, true, true, true, true, false] + Fill(15, false) + [true] + Fill(8, false)
  const ANY_VRRP6: Mac :=
    Fill(17, false) + [true, false, true, true, true, true, false] + Fill(14, false) + [true, false] + Fill(8, false)

  function AddIp(e: Entry, ip: Ip6, plen: nat): Option<Entry> {
    if IsV4Mapped(ip) then if plen > 32 then None else Some(e.(ip4 := e.ip4 + [Prefix4(ip[96..], plen)]))
    else if plen > 128 then None
    else Some(e.(ip6 := e.ip6 + [Prefix6(ip, plen)]))
  }

  /** Only the last byte of a VRRP MAC is an identifier, and it starts from 1. */
  function AddVrrpMac(e: Entry, mac: Mac, plen: nat): Option<Entry> {
    if !(40 <= plen <= 48) || !IsZero(mac[plen..]) then None
    else if plen == 48 && (mac == ANY_VRRP4 || mac == ANY_VRRP6) then None
    else if mac[..40] == ANY_VRRP4[..40] then Some(e.(vrrp4 := e.vrrp4 + [MacPrefix(mac, plen)]))
    else if mac[..40] == ANY_VRRP6[..40] then Some(e.(vrrp6 := e.vrrp6 + [MacPrefix(mac, plen)]))
    else None
  }

  function AddToken(vrrp: bool, e: Entry, t: Token): Option<Entry> {
    match t
    case MacToken(mac, plen) => if vrrp then AddVrrpMac(e, mac, plen) else None
    case IpToken(ip, plen) => AddIp(e, ip, plen)
    case BadToken => None
  }

  function AddTokens(vrrp: bool, e: Entry, ts: seq<Token>): Option<Entry> {
    if ts == [] then Some(e)
    else
      var r := AddTokens(vrrp, e, ts[..|ts| - 1]);
      if r.None? then None else AddToken(vrrp, r.value, ts[|ts| - 1])
  }

  function Parsed(t: Text): Option<Entry> {
    if t.mac.None? then None
    else
      var r := AddTokens(t.vrrp, Entry(t.mac.value, [], [], [], []), t.tokens);
      if r.Some? && t.vrrp && !IsVrrp(r.value)
      then Some(r.value.(vrrp4 := [MacPrefix(ANY_VRRP4, 40)], vrrp6 := [MacPrefix(ANY_VRRP6, 40)]))
      else r
  }

  /** The entries that count, in order: the others add no rules. */
  function WellFormed(ts: seq<Text>): seq<Entry> {
    if ts == [] then []
    else
      var r := Parsed(ts[|ts| - 1]);
      WellFormed(ts[..|ts| - 1]) + if r.Some? then [r.value] else []
  }
}
