/** Tunnel identifiers (ovn/controller/encaps.c): chassis@remote%local, and the
    older form without the local part.  Parsing cuts a string with strtok_r. */
module TunnelId {
  import opened Common

  function Create(chassis: string, remote: string, local: string): string {
    chassis + "@" + remote + "%" + local
  }

  function CreateLegacy(chassis: string, remote: string): string {
    chassis + "@" + remote
  }

  // ---- strtok_r ----

  /** How many leading characters are delimiters. */
  function Spanned(s: string, delims: set<char>): (n: nat)
    ensures n <= |s| && (forall i :: 0 <= i < n ==> s[i] in delims) && (n < |s| ==> s[n] !in delims)
  {
    if s == "" || s[0] !in delims then 0 else 1 + Spanned(s[1..], delims)
  }

  /** How many leading characters are not. */
  function Unspanned(s: string, delims: set<char>): (n: nat)
    ensures n <= |s| && (forall i :: 0 <= i < n ==> s[i] !in delims) && (n < |s| ==> s[n] in delims)
  {
    if s == "" || s[0] in delims then 0 else 1 + Unspanned(s[1..], delims)
  }

  datatype Cut = Cut(token: Option<string>, rest: string)

  /** Skips leading delimiters; the token runs to the next one, which is consumed. */
  function Strtok(s: string, delims: set<char>): Cut {
    var t := s[Spanned(s, delims)..];
    if t == "" then Cut(None, "")
    else
      var n := Unspanned(t, delims);
      Cut(Some(t[..n]), if n == |t| then "" else t[n + 1..])
  }

  /** A token is never empty and never holds a delimiter. */
  lemma TokenClean(s: string, delims: set<char>)
    ensures var t := Strtok(s, delims).token; t.Some? ==> t.value != "" && forall c :: c in delims ==> c !in t.value
  {
  }

  /** A clean word before a delimiter, or at the end, is cut off as it is. */
  lemma CutsWord(w: string, d: char, rest: string)
    requires w != "" && d !in w
    ensures Strtok(w + [d] + rest, {d}) == Cut(Some(w), rest)
    ensures Strtok(w, {d}) == Cut(Some(w), "")
  {
    var s := w + [d] + rest;
    assert s[0] == w[0] && s[|w|] == d;
    assert Spanned(s, {d}) == 0 && s[0..] == s;
    assert forall i :: 0 <= i < |w| ==> s[i] == w[i];
    assert Unspanned(s, {d}) == |w|;
    assert s[..|w|] == w && s[|w| + 1..] == rest;
    assert Spanned(w, {d}) == 0 && w[0..] == w;
    assert Unspanned(w, {d}) == |w|;
    assert w[..|w|] == w;
  }

  lemma CutsAll(s: string)
    ensures Strtok(s, {}) == if s == "" then Cut(None, "") else Cut(Some(s), "")
  {
    assert Spanned(s, {}) == 0 && s[0..] == s && s[..|s|] == s;
    assert Unspanned(s, {}) == |s|;
  }

  // ---- Parsing and matching ----

  datatype Parts = Parts(chassis: string, remote: string, local: Option<string>)

  function Parse(id: string): Option<Parts> {
    var c := Strtok(id, {'@'});
    if c.token.None? then None
    else
      var r := Strtok(c.rest, {'%'});
      if r.token.None? then None else Some(Parts(c.token.value, r.token.value, Strtok(r.rest, {}).token))
  }

  /** Components that are not given match anything; so does a local part when the
      identifier has none. */
  predicate Match(id: string, chassis: string, remote: Option<string>, local: Option<string>) {
    var c := Strtok(id, {'@'});
    var r := Strtok(c.rest, {'%'});
    var l := Strtok(r.rest, {});
    && c.token == Some(chassis)
    && (remote.Some? ==> r.token == remote)
    && (l.token.Some? && local.Some? ==> l.token == local)
  }

  /** MAIN RESULT.  Parsing gives back what an identifier was created from exactly
      when the chassis is not empty and has no '@', the remote part is not empty and
      has no '%', and the local part is not empty. */
  lemma RoundTrip(chassis: string, remote: string, local: string)
    ensures Parse(Create(chassis, remote, local)) == Some(Parts(chassis, remote, Some(local)))
            <==> chassis != "" && '@' !in chassis && remote != "" && '%' !in remote && local != ""
  {
    var id := Create(chassis, remote, local);
    Clean(id);
    if chassis != "" && '@' !in chassis && remote != "" && '%' !in remote {
      assert id == chassis + ['@'] + (remote + ['%'] + local);
      CutsWord(chassis, '@', remote + ['%'] + local);
      CutsWord(remote, '%', local);
      CutsAll(local);
    }
  }

  /** The same of the older form, which has no local part to give back. */
  lemma RoundTripLegacy(chassis: string, remote: string)
    ensures Parse(CreateLegacy(chassis, remote)) == Some(Parts(chassis, remote, None))
            <==> chassis != "" && '@' !in chassis && remote != "" && '%' !in remote
  {
    var id := CreateLegacy(chassis, remote);
    Clean(id);
    if chassis != "" && '@' !in chassis && remote != "" && '%' !in remote {
      assert id == chassis + ['@'] + remote;
      CutsWord(chassis, '@', remote);
      CutsWord(remote, '%', "");
      CutsAll("");
    }
  }

  /** What parsing yields has the form that the round trip asks for. */
  lemma Clean(id: string)
    ensures Parse(id).Some? ==>
              var p := Parse(id).value;
              && p.chassis != "" && '@' !in p.chassis && p.remote != "" && '%' !in p.remote
              && (p.local.Some? ==> p.local.value != "")
  {
    var c := Strtok(id, {'@'});
    TokenClean(id, {'@'});
    TokenClean(c.rest, {'%'});
    TokenClean(Strtok(c.rest, {'%'}).rest, {});
  }

  /** Created identifiers tell their components apart. */
  lemma CreateInjective(c1: string, r1: string, l1: string, c2: string, r2: string, l2: string)
    requires c1 != "" && '@' !in c1 && r1 != "" && '%' !in r1 && l1 != ""
    requires c2 != "" && '@' !in c2 && r2 != "" && '%' !in r2 && l2 != ""
    requires Create(c1, r1, l1) == Create(c2, r2, l2)
    ensures c1 == c2 && r1 == r2 && l1 == l2
  {
    RoundTrip(c1, r1, l1);
    RoundTrip(c2, r2, l2);
  }

  /** Where a delimiter is allowed inside a component, two different triples give
      the same identifier. */
  lemma CreateClash(a: string, b: string, c: string, d: string)
    ensures Create(a + "@" + b, c, d) == Create(a, b + "@" + c, d)
    ensures Create(a, b + "%" + c, d) == Create(a, b, c + "%" + d)
  {
    assert a + "@" + b + "@" + c == a + "@" + (b + "@" + c);
    assert a + "@" + (b + "%" + c) + "%" + d == a + "@" + b + "%" + (c + "%" + d);
  }

  predicate Only(s: string, c: char) {
    forall i :: 0 <= i < |s| ==> s[i] == c
  }

  /** From position i on, the identifier is the chassis and nothing else: only '@'
      before it, and after it at most one '@' and then only '%'. */
  predicate BareAt(id: string, chassis: string, i: nat) {
    && chassis != "" && '@' !in chassis && i + |chassis| <= |id|
    && Only(id[..i], '@') && id[i..i + |chassis|] == chassis
    && var rest := id[i + |chassis|..]; rest == "" || (rest[0] == '@' && Only(rest[1..], '%'))
  }

  predicate Bare(id: string, chassis: string) {
    exists i: nat :: i <= |id| && BareAt(id, chassis, i)
  }

  lemma SkipsLeading(s: string, i: nat)
    requires i < |s| && s[i] != '@' && Only(s[..i], '@')
    ensures Strtok(s, {'@'}) == Strtok(s[i..], {'@'})
  {
    hide Unspanned;
    assert forall j :: 0 <= j < i ==> s[j] == s[..i][j];
    assert Spanned(s, {'@'}) == i;
    assert Spanned(s[i..], {'@'}) == 0 && s[i..][0..] == s[i..];
  }

  lemma BareCuts(id: string, chassis: string, i: nat)
    requires BareAt(id, chassis, i)
    ensures Strtok(id, {'@'}).token == Some(chassis) && Only(Strtok(id, {'@'}).rest, '%')
  {
    hide Strtok;
    var rest := id[i + |chassis|..];
    assert id[i] == id[i..i + |chassis|][0] && chassis[0] != '@';
    SkipsLeading(id, i);
    assert id[i..] == chassis + rest;
    if rest == "" {
      assert id[i..] == chassis;
    } else {
      assert id[i..] == chassis + ['@'] + rest[1..];
    }
    CutsWord(chassis, '@', if rest == "" then "" else rest[1..]);
  }

  lemma CutIsBare(id: string, chassis: string)
    requires Strtok(id, {'@'}).token == Some(chassis) && Only(Strtok(id, {'@'}).rest, '%')
    ensures BareAt(id, chassis, Spanned(id, {'@'}))
  {
    CutAt(id, '@');
    TokenClean(id, {'@'});
    hide Strtok, Spanned;
    var n := Spanned(id, {'@'});
    var m := n + |chassis|;
    assert forall i :: 0 <= i < n ==> id[..n][i] == id[i];
    if m < |id| { assert id[m..][0] == id[m] && id[m..][1..] == id[m + 1..]; }
  }

  /** Without a remote part there is nothing to parse, but the chassis matches. */
  lemma CutsBare(id: string, chassis: string)
    ensures var c := Strtok(id, {'@'}); c.token == Some(chassis) && Only(c.rest, '%') <==> Bare(id, chassis)
  {
    hide Strtok, Only, BareAt;
    var c := Strtok(id, {'@'});
    if c.token == Some(chassis) && Only(c.rest, '%') {
      CutIsBare(id, chassis);
    }
    if Bare(id, chassis) {
      var i: nat :| i <= |id| && BareAt(id, chassis, i);
      BareCuts(id, chassis, i);
    }
  }

  lemma OnlySpanned(s: string)
    ensures Strtok(s, {'%'}).token.None? <==> Only(s, '%')
  {
  }

  /** MAIN RESULT.  An identifier that parses matches exactly when every component
      that is given, and that it has, is equal; one that does not parse, when it is
      no more than the chassis and no remote part is given. */
  lemma MatchExact(id: string, chassis: string, remote: Option<string>, local: Option<string>)
    ensures Match(id, chassis, remote, local) <==>
            match Parse(id)
            case None => remote.None? && Bare(id, chassis)
            case Some(p) => && chassis == p.chassis && (remote.Some? ==> remote.value == p.remote)
                            && (local.Some? && p.local.Some? ==> local == p.local)
  {
    hide Strtok, Bare, Only;
    var c := Strtok(id, {'@'});
    CutsBare(id, chassis);
    OnlySpanned(c.rest);
    CutsAll("");
    NoMore(c.rest);
  }

  lemma NoMore(s: string)
    ensures Strtok(s, {'%'}).token.None? ==> Strtok(s, {'%'}).rest == ""
  {
  }

  lemma MatchCreated(c: string, r: string, l: string, chassis: string, remote: Option<string>, local: Option<string>)
    requires c != "" && '@' !in c && r != "" && '%' !in r && l != ""
    ensures Match(Create(c, r, l), chassis, remote, local)
            <==> chassis == c && (remote.Some? ==> remote.value == r) && (local.Some? ==> local.value == l)
    ensures Match(CreateLegacy(c, r), chassis, remote, local) <==> chassis == c && (remote.Some? ==> remote.value == r)
  {
    RoundTrip(c, r, l);
    RoundTripLegacy(c, r);
    MatchExact(Create(c, r, l), chassis, remote, local);
    MatchExact(CreateLegacy(c, r), chassis, remote, local);
  }

  // ---- Parsing, whatever the identifier ----

  /** The word stands in the string after delimiters only, and `rest` is what follows
      the delimiter after it, if there is one. */
  ghost predicate StandsAt(s: string, d: char, a: string, w: string, rest: string) {
    && Only(a, d) && w != "" && d !in w
    && (s == a + w + [d] + rest || (s == a + w && rest == ""))
  }

  /** Where the token lies, and what is left. */
  lemma CutAt(s: string, d: char)
    ensures var c, n := Strtok(s, {d}), Spanned(s, {d});
            if n == |s| then c == Cut(None, "")
            else
              && c.token.Some?
              && var m := n + |c.token.value|;
              && n < m <= |s| && c.token.value == s[n..m]
              && if m == |s| then c.rest == "" else s[m] == d && c.rest == s[m + 1..]
  {
    hide Spanned, Unspanned;
    var n := Spanned(s, {d});
    if n < |s| {
      var t := s[n..];
      var k := Unspanned(t, {d});
      assert t[0] == s[n];
      assert t[..k] == s[n..n + k];
      if k < |t| {
        assert t[k] == s[n + k];
        assert t[k + 1..] == s[n + k + 1..];
      }
    }
  }

  lemma CutStands(s: string, d: char)
    ensures var c := Strtok(s, {d}); c.token.Some? ==> StandsAt(s, d, s[..Spanned(s, {d})], c.token.value, c.rest)
  {
    var c, n := Strtok(s, {d}), Spanned(s, {d});
    CutAt(s, d);
    TokenClean(s, {d});
    hide Strtok, Spanned;
    if c.token.Some? {
      var m := n + |c.token.value|;
      Joins(s, n, m);
    }
  }

  lemma Joins(s: string, n: nat, m: nat)
    requires n <= m <= |s|
    ensures if m == |s| then s == s[..n] + s[n..m] else s == s[..n] + s[n..m] + [s[m]] + s[m + 1..]
  {
  }

  lemma SpannedIs(s: string, d: char, n: nat)
    requires n < |s| && s[n] != d && forall i :: 0 <= i < n ==> s[i] == d
    ensures Spanned(s, {d}) == n
  {
    hide Spanned;
    assert s[n] !in {d} && forall i :: 0 <= i < n ==> s[i] in {d};
  }

  lemma StandsCut(s: string, d: char, a: string, w: string, rest: string)
    requires StandsAt(s, d, a, w, rest)
    ensures Strtok(s, {d}) == Cut(Some(w), rest)
  {
    hide Strtok;
    var t := if s == a + w && rest == "" then w else w + [d] + rest;
    assert s == a + t;
    assert s[|a|] == w[0] && forall i :: 0 <= i < |a| ==> s[i] == a[i];
    SpannedIs(s, d, |a|);
    SpannedIs(t, d, 0);
    CutFrom(s, d, t);
    CutsWord(w, d, rest);
  }

  lemma CutFrom(s: string, d: char, t: string)
    requires s[Spanned(s, {d})..] == t && Spanned(t, {d}) == 0
    ensures Strtok(s, {d}) == Strtok(t, {d})
  {
    hide Spanned, Unspanned;
    assert t[0..] == t;
  }

  /** The identifier, taken apart: any number of '@', the chassis, one '@', any number of
      '%', the remote part, and after one '%' the local part, if anything is left. */
  ghost predicate TakenApart(id: string, p: Parts, a: string, b: string) {
    && Only(a, '@') && p.chassis != "" && '@' !in p.chassis
    && Only(b, '%') && p.remote != "" && '%' !in p.remote
    && match p.local
       case None => id == a + p.chassis + "@" + b + p.remote || id == a + p.chassis + "@" + b + p.remote + "%"
       case Some(l) => l != "" && id == a + p.chassis + "@" + b + p.remote + "%" + l
  }

  /** MAIN RESULT.  What parsing makes of any string whatever. */
  lemma ParseExact(id: string, p: Parts)
    ensures Parse(id) == Some(p) <==> exists a, b :: TakenApart(id, p, a, b)
  {
    hide Strtok;
    if Parse(id) == Some(p) {
      var c := Strtok(id, {'@'});
      var r := Strtok(c.rest, {'%'});
      CutStands(id, '@');
      CutStands(c.rest, '%');
      CutsAll(r.rest);
      var a, b := id[..Spanned(id, {'@'})], c.rest[..Spanned(c.rest, {'%'})];
      var head, tail := b + p.remote, if c.rest == b + p.remote && r.rest == "" then "" else "%" + r.rest;
      assert c.rest == head + tail;
      assert id == a + p.chassis + "@" + c.rest;
      assert id == a + p.chassis + "@" + b + p.remote + tail;
      assert TakenApart(id, p, a, b);
    }
    if a, b :| TakenApart(id, p, a, b) { ApartParses(id, p, a, b); }
  }

  lemma ApartParses(id: string, p: Parts, a: string, b: string)
    requires TakenApart(id, p, a, b)
    ensures Parse(id) == Some(p)
  {
    hide Strtok;
    var bare := p.local.None? && id == a + p.chassis + "@" + b + p.remote;
    var l := if p.local.Some? then p.local.value else "";
    var rest := if bare then b + p.remote else b + p.remote + "%" + l;
    assert id == a + p.chassis + ['@'] + rest;
    StandsCut(id, '@', a, p.chassis, rest);
    StandsCut(rest, '%', b, p.remote, l);
    CutsAll(l);
  }

  // ---- The imperative form ----

  /** The saved position of strtok_r, as what is left of the string. */
  class Tokenizer {
    var rest: string

    constructor (s: string)
      ensures rest == s
    {
      rest := s;
    }

    method Next(delims: set<char>) returns (token: Option<string>)
      modifies this
      ensures Cut(token, rest) == Strtok(old(rest), delims)
    {
      var i := Span(rest, delims);
      var t := rest[i..];
      if t == "" {
        rest := "";
        return None;
      }
      var n := CSpan(t, delims);
      token := Some(t[..n]);
      rest := if n == |t| then "" else t[n + 1..];
    }
  }

  method Span(s: string, delims: set<char>) returns (i: nat)
    ensures i == Spanned(s, delims)
  {
    i := 0;
    while i < |s| && s[i] in delims
      invariant i <= |s| && i + Spanned(s[i..], delims) == Spanned(s, delims)
    {
      assert s[i..][1..] == s[i + 1..];
      i := i + 1;
    }
  }

  method CSpan(s: string, delims: set<char>) returns (i: nat)
    ensures i == Unspanned(s, delims)
  {
    i := 0;
    while i < |s| && s[i] !in delims
      invariant i <= |s| && i + Unspanned(s[i..], delims) == Unspanned(s, delims)
    {
      assert s[i..][1..] == s[i + 1..];
      i := i + 1;
    }
  }

  method ParseId(id: string) returns (r: Option<Parts>)
    ensures r == Parse(id)
  {
    var tok := new Tokenizer(id);
    var chassis := tok.Next({'@'});
    if chassis.None? {
      return None;
    }
    var remote := tok.Next({'%'});
    if remote.None? {
      return None;
    }
    var local := tok.Next({});
    return Some(Parts(chassis.value, remote.value, local));
  }

  method MatchId(id: string, chassis: string, remote: Option<string>, local: Option<string>) returns (r: bool)
    ensures r <==> Match(id, chassis, remote, local)
  {
    var tok := new Tokenizer(id);
    var c := tok.Next({'@'});
    if c.None? || c.value != chassis {
      return false;
    }
    var rem := tok.Next({'%'});
    if remote.Some? && (rem.None? || rem.value != remote.value) {
      return false;
    }
    var l := tok.Next({});
    if l.None? {
      // The older form: the local part is not compared.
    } else if local.Some? && l.value != local.value {
      return false;
    }
    return true;
  }
}
