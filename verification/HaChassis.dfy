/** Election in a group of highly available chassis (ovn/controller/ha-chassis.c):
    each chassis decides by itself, from what it sees, whether it is the active
    one.  Chassis are known by their names, which are unique. */
module HaChassis {
  import opened Common

  datatype Member = Member(chassis: Option<string>, priority: int)

  datatype Group = Group(members: seq<Member>, refs: seq<string>)

  datatype Candidate = Candidate(name: string, priority: int)

  // ---- Order ----

  function Strcmp(a: string, b: string): int {
    if a == "" then if b == "" then 0 else -1
    else if b == "" then 1
    else if a[0] < b[0] then -1
    else if a[0] > b[0] then 1
    else Strcmp(a[1..], b[1..])
  }

  lemma {:induction false} StrcmpZero(a: string, b: string)
    ensures Strcmp(a, b) == 0 <==> a == b
    ensures Strcmp(a, b) == -Strcmp(b, a)
  {
    if a != "" && b != "" {
      StrcmpZero(a[1..], b[1..]);
      assert a == [a[0]] + a[1..] && b == [b[0]] + b[1..];
    }
  }

  lemma {:induction false} StrcmpTransitive(a: string, b: string, c: string)
    requires Strcmp(a, b) <= 0 && Strcmp(b, c) <= 0
    ensures Strcmp(a, c) <= 0
  {
    if a != "" && b != "" && c != "" && a[0] == b[0] == c[0] {
      StrcmpTransitive(a[1..], b[1..], c[1..]);
    }
  }

  /** Earlier in the dictionary: a proper beginning, or smaller at the first letter
      that differs. */
  ghost predicate Earlier(a: string, b: string) {
    exists n: nat :: n <= |a| && n < |b| && a[..n] == b[..n] && (n == |a| || a[n] < b[n])
  }

  lemma {:induction false} StrcmpEarlier(a: string, b: string)
    ensures Strcmp(a, b) < 0 <==> Earlier(a, b)
  {
    if a == "" || b == "" {
      if b != "" { assert a[..0] == b[..0]; }
    } else if a[0] != b[0] {
      if a[0] < b[0] { assert a[..0] == b[..0]; }
      if Earlier(a, b) {
        var n: nat :| n <= |a| && n < |b| && a[..n] == b[..n] && (n == |a| || a[n] < b[n]);
        assert n > 0 ==> a[..n][0] == b[..n][0];
      }
    } else {
      StrcmpEarlier(a[1..], b[1..]);
      EarlierTail(a, b);
    }
  }

  lemma EarlierTail(a: string, b: string)
    requires a != "" && b != "" && a[0] == b[0]
    ensures Earlier(a, b) <==> Earlier(a[1..], b[1..])
  {
    if Earlier(a, b) {
      var n: nat :| n <= |a| && n < |b| && a[..n] == b[..n] && (n == |a| || a[n] < b[n]);
      assert n > 0;
      assert a[1..][..n - 1] == a[..n][1..] && b[1..][..n - 1] == b[..n][1..];
    }
    if Earlier(a[1..], b[1..]) {
      var n: nat :| n <= |a[1..]| && n < |b[1..]| && a[1..][..n] == b[1..][..n]
        && (n == |a[1..]| || a[1..][n] < b[1..][n]);
      assert a[..n + 1] == [a[0]] + a[1..][..n] && b[..n + 1] == [b[0]] + b[1..][..n];
    }
  }

  /** Negative when x comes first. */
  function Compare(x: Candidate, y: Candidate): int {
    if y.priority != x.priority then y.priority - x.priority else Strcmp(y.name, x.name)
  }

  /** Higher priority, and among equals the name that is later in the dictionary. */
  ghost predicate Outranks(x: Candidate, y: Candidate) {
    x.priority > y.priority || (x.priority == y.priority && Earlier(y.name, x.name))
  }

  ghost predicate NotAfter(x: Candidate, y: Candidate) {
    x == y || Outranks(x, y)
  }

  /** The comparison orders by rank. */
  lemma CompareRanks(x: Candidate, y: Candidate)
    ensures Compare(x, y) <= 0 <==> NotAfter(x, y)
    ensures Compare(x, y) < 0 <==> Outranks(x, y)
    ensures Compare(x, y) == 0 <==> x == y
  {
    StrcmpEarlier(y.name, x.name);
    StrcmpZero(x.name, y.name);
  }

  /** Rank is a total order. */
  lemma TotalOrder(x: Candidate, y: Candidate)
    ensures NotAfter(x, y) || NotAfter(y, x)
    ensures NotAfter(x, y) && NotAfter(y, x) ==> x == y
  {
    CompareRanks(x, y);
    CompareRanks(y, x);
    StrcmpZero(x.name, y.name);
  }

  lemma OrderTransitive(x: Candidate, y: Candidate, z: Candidate)
    requires NotAfter(x, y) && NotAfter(y, z)
    ensures NotAfter(x, z)
  {
    CompareRanks(x, y);
    CompareRanks(y, z);
    CompareRanks(x, z);
    if x.priority == y.priority == z.priority {
      StrcmpTransitive(z.name, y.name, x.name);
    }
  }

  // ---- The decision ----

  predicate Among(ms: seq<Member>, c: string) {
    exists m :: m in ms && m.chassis == Some(c)
  }

  predicate Has(g: Group, c: string) {
    Among(g.members, c)
  }

  /** The member takes part in the ordering done by `local`. */
  predicate Visible(m: Member, tunnels: Option<set<string>>, local: string) {
    m.chassis.Some? && (m.chassis.value == local || tunnels.None? || m.chassis.value in tunnels.value)
  }

  function Candidates(ms: seq<Member>, tunnels: Option<set<string>>, local: string): (r: seq<Candidate>)
    ensures |r| <= |ms|
  {
    if ms == [] then []
    else
      var m := ms[|ms| - 1];
      Candidates(ms[..|ms| - 1], tunnels, local)
          + if Visible(m, tunnels, local) then [Candidate(m.chassis.value, m.priority)] else []
  }

  predicate SeesRef(g: Group, tunnels: set<string>) {
    exists r :: r in g.refs && r in tunnels
  }

  /** A single candidate counts only if it sees a chassis that refers to the group. */
  predicate Rejected(g: Group, tunnels: Option<set<string>>, cs: seq<Candidate>) {
    cs == [] || (|cs| == 1 && tunnels.Some? && !SeesRef(g, tunnels.value))
  }

  ghost function Best(s: seq<Candidate>): Candidate
    requires s != []
  {
    if |s| == 1 then s[0]
    else
      var b := Best(s[..|s| - 1]);
      if NotAfter(b, s[|s| - 1]) then b else s[|s| - 1]
  }

  function Named(ms: seq<Member>): nat {
    if ms == [] then 0 else Named(ms[..|ms| - 1]) + if ms[|ms| - 1].chassis.Some? then 1 else 0
  }

  /** Whether `local` takes itself for the active chassis of the group. */
  ghost predicate Active(g: Group, tunnels: set<string>, local: string) {
    if |g.members| == 0 then false
    else if |g.members| == 1 then g.members[0].chassis == Some(local)
    else if Has(g, local) && Named(g.members) == 1 then true
    else if tunnels == {} then false
    else
      var cs := Candidates(g.members, Some(tunnels), local);
      !Rejected(g, Some(tunnels), cs) && Best(cs).name == local
  }

  // ---- Facts about the candidates ----

  lemma {:induction false} CandidatesExact(ms: seq<Member>, tunnels: Option<set<string>>, local: string)
    ensures forall x :: x in Candidates(ms, tunnels, local) <==>
              Member(Some(x.name), x.priority) in ms && Visible(Member(Some(x.name), x.priority), tunnels, local)
  {
    if ms != [] {
      CandidatesExact(ms[..|ms| - 1], tunnels, local);
      assert ms == ms[..|ms| - 1] + [ms[|ms| - 1]];
    }
  }

  lemma {:induction false} BestIsBest(s: seq<Candidate>)
    requires s != []
    ensures Best(s) in s && forall x :: x in s ==> NotAfter(Best(s), x)
  {
    hide Outranks;
    if |s| == 1 {
      TotalOrder(s[0], s[0]);
    } else {
      var init, last := s[..|s| - 1], s[|s| - 1];
      BestIsBest(init);
      assert s == init + [last];
      TotalOrder(Best(init), last);
      TotalOrder(last, last);
      forall x | x in init ensures NotAfter(Best(s), x) {
        if Best(s) == last { OrderTransitive(last, Best(init), x); }
      }
    }
  }

  lemma {:induction false} NamedTwo(ms: seq<Member>, a: string, b: string)
    requires a != b && Among(ms, a) && Among(ms, b)
    ensures Named(ms) >= 2
  {
    var init, last := ms[..|ms| - 1], ms[|ms| - 1];
    assert ms == init + [last];
    if last.chassis == Some(a) {
      NamedOne(init, b);
    } else if last.chassis == Some(b) {
      NamedOne(init, a);
    } else {
      NamedTwo(init, a, b);
    }
  }

  lemma {:induction false} NamedOne(ms: seq<Member>, a: string)
    requires Among(ms, a)
    ensures Named(ms) >= 1
  {
    var init, last := ms[..|ms| - 1], ms[|ms| - 1];
    assert ms == init + [last];
    if last.chassis != Some(a) {
      NamedOne(init, a);
    }
  }

  lemma TwoElements<T>(s: seq<T>, x: T, y: T)
    requires x in s && y in s && x != y
    ensures |s| >= 2
  {
    var i :| 0 <= i < |s| && s[i] == x;
    var j :| 0 <= j < |s| && s[j] == y;
  }

  /** Both of two visible chassis are among the candidates. */
  lemma TwoCandidates(g: Group, tunnels: set<string>, local: string, other: string)
    requires Has(g, local) && Has(g, other) && local != other && other in tunnels
    ensures |Candidates(g.members, Some(tunnels), local)| >= 2 && |g.members| >= 2 && Named(g.members) >= 2
  {
    hide Candidates, Named;
    CandidatesExact(g.members, Some(tunnels), local);
    NamedTwo(g.members, local, other);
    var m :| m in g.members && m.chassis == Some(local);
    var o :| o in g.members && o.chassis == Some(other);
    assert Member(Some(local), m.priority) == m && Member(Some(other), o.priority) == o;
    TwoElements(Candidates(g.members, Some(tunnels), local), Candidate(local, m.priority),
                Candidate(other, o.priority));
    TwoElements(g.members, m, o);
  }

  /** A chassis that sees another member is active only by coming first. */
  lemma ActiveIsBest(g: Group, tunnels: set<string>, local: string, other: string)
    requires Has(g, local) && Has(g, other) && local != other && other in tunnels
    ensures var cs := Candidates(g.members, Some(tunnels), local);
            |cs| >= 2 && (Active(g, tunnels, local) <==> Best(cs).name == local)
  {
    hide Has, Candidates, Named, Best;
    TwoCandidates(g, tunnels, local, other);
  }

  /** MAIN RESULT.  Two members that see each other are never both active, whatever
      else each of them sees. */
  lemma NoSplitBrain(g: Group, a: string, ta: set<string>, b: string, tb: set<string>)
    requires a != b && Has(g, a) && Has(g, b) && b in ta && a in tb
    ensures !(Active(g, ta, a) && Active(g, tb, b))
  {
    hide Active;
    ActiveIsBest(g, ta, a, b);
    ActiveIsBest(g, tb, b, a);
    var ca, cb := Candidates(g.members, Some(ta), a), Candidates(g.members, Some(tb), b);
    CandidatesExact(g.members, Some(ta), a);
    CandidatesExact(g.members, Some(tb), b);
    BestIsBest(ca);
    BestIsBest(cb);
    var x, y := Best(ca), Best(cb);
    if x.name == a && y.name == b {
      assert y in ca && x in cb;
      TotalOrder(x, y);
    }
  }

  /** The chassis of c see each other and no other member. */
  ghost predicate Clique(g: Group, c: set<string>, sees: map<string, set<string>>) {
    forall a :: a in c ==> Has(g, a) && a in sees && forall d :: d != a && Has(g, d) ==> (d in sees[a] <==> d in c)
  }

  lemma {:induction false} SameCandidates(ms: seq<Member>, ta: set<string>, a: string, tb: set<string>, b: string)
    requires forall m :: m in ms ==> (Visible(m, Some(ta), a) <==> Visible(m, Some(tb), b))
    ensures Candidates(ms, Some(ta), a) == Candidates(ms, Some(tb), b)
  {
    if ms != [] {
      assert forall m :: m in ms[..|ms| - 1] ==> m in ms;
      SameCandidates(ms[..|ms| - 1], ta, a, tb, b);
    }
  }

  /** MAIN RESULT.  Among two or more members that all see each other, and no other
      member, exactly one is active. */
  lemma ExactlyOne(g: Group, c: set<string>, sees: map<string, set<string>>, a: string, b: string)
    requires Clique(g, c, sees) && a in c && b in c && a != b
    ensures exists x :: x in c && Active(g, sees[x], x) && forall y :: y in c && Active(g, sees[y], y) ==> y == x
  {
    hide Active, Has;
    var cs := Candidates(g.members, Some(sees[a]), a);
    ActiveIsBest(g, sees[a], a, b);
    BestIsBest(cs);
    CandidatesExact(g.members, Some(sees[a]), a);
    var x := Best(cs).name;
    InClique(g, c, sees, a, Best(cs));
    forall d | d in c && d != a ensures Candidates(g.members, Some(sees[d]), d) == cs {
      forall m | m in g.members ensures Visible(m, Some(sees[a]), a) <==> Visible(m, Some(sees[d]), d) {
        CliqueSees(g, c, sees, a, m);
        CliqueSees(g, c, sees, d, m);
      }
      SameCandidates(g.members, sees[a], a, sees[d], d);
    }
    var other := if x == a then b else a;
    ActiveIsBest(g, sees[x], x, other);
    forall y | y in c && Active(g, sees[y], y) ensures y == x {
      if y != x { NoSplitBrain(g, x, sees[x], y, sees[y]); }
    }
  }

  lemma CliqueSees(g: Group, c: set<string>, sees: map<string, set<string>>, a: string, m: Member)
    requires Clique(g, c, sees) && a in c && m in g.members
    ensures Visible(m, Some(sees[a]), a) <==> m.chassis.Some? && m.chassis.value in c
  {
    if m.chassis.Some? { assert Has(g, m.chassis.value); }
  }

  lemma InClique(g: Group, c: set<string>, sees: map<string, set<string>>, a: string, x: Candidate)
    requires Clique(g, c, sees) && a in c && x in Candidates(g.members, Some(sees[a]), a)
    ensures x.name in c
  {
    CandidatesExact(g.members, Some(sees[a]), a);
    CliqueSees(g, c, sees, a, Member(Some(x.name), x.priority));
  }

  /** The entry of a chassis that comes first. */
  ghost function First(g: Group, a: string): Candidate
    requires Has(g, a)
  {
    OwnCandidates(g, a);
    Best(Candidates(g.members, Some({}), a))
  }

  lemma OwnCandidates(g: Group, a: string)
    requires Has(g, a)
    ensures Candidates(g.members, Some({}), a) != []
  {
    CandidatesExact(g.members, Some({}), a);
    var m :| m in g.members && m.chassis == Some(a);
    assert Member(Some(a), m.priority) == m;
    assert Candidate(a, m.priority) in Candidates(g.members, Some({}), a);
  }

  lemma FirstIsOwn(g: Group, a: string)
    requires Has(g, a)
    ensures First(g, a).name == a && Member(Some(a), First(g, a).priority) in g.members
    ensures forall p :: Member(Some(a), p) in g.members ==> NotAfter(First(g, a), Candidate(a, p))
  {
    hide NotAfter;
    var cs := Candidates(g.members, Some({}), a);
    OwnCandidates(g, a);
    CandidatesExact(g.members, Some({}), a);
    BestIsBest(cs);
    forall p | Member(Some(a), p) in g.members ensures NotAfter(First(g, a), Candidate(a, p)) {
      assert Candidate(a, p) in cs;
    }
  }

  /** No member that the chassis sees comes before it. */
  ghost predicate Unbeaten(g: Group, a: string, tunnels: set<string>)
    requires Has(g, a)
  {
    forall m :: m in g.members && m.chassis.Some? && m.chassis.value in tunnels ==>
        NotAfter(First(g, a), Candidate(m.chassis.value, m.priority))
  }

  lemma ActiveIffUnbeaten(g: Group, tunnels: set<string>, a: string, other: string)
    requires Has(g, a) && Has(g, other) && a != other && other in tunnels
    ensures Active(g, tunnels, a) <==> Unbeaten(g, a, tunnels)
  {
    hide Active, Has, NotAfter, Best, Candidates;
    ActiveIsBest(g, tunnels, a, other);
    var cs := Candidates(g.members, Some(tunnels), a);
    CandidatesExact(g.members, Some(tunnels), a);
    BestIsBest(cs);
    FirstIsOwn(g, a);
    var f, b := First(g, a), Best(cs);
    assert f in cs && NotAfter(b, f);
    if b.name == a {
      forall m | m in g.members && m.chassis.Some? && m.chassis.value in tunnels
        ensures NotAfter(f, Candidate(m.chassis.value, m.priority))
      {
        var y := Candidate(m.chassis.value, m.priority);
        assert Member(Some(y.name), y.priority) == m;
        assert y in cs;
        OrderTransitive(f, b, y);
      }
    }
    if Unbeaten(g, a, tunnels) {
      assert NotAfter(f, b);
      TotalOrder(f, b);
    }
  }

  /** MAIN RESULT.  Members that see each other may also see others.  Let t be the
      one of them that comes first: exactly one of them is active iff t sees no
      member that comes before it. */
  lemma ExactlyOneIff(g: Group, c: set<string>, sees: map<string, set<string>>, t: string, b: string)
    requires forall x :: x in c ==> Has(g, x) && x in sees
    requires forall x, y :: x in c && y in c && x != y ==> y in sees[x]
    requires t in c && b in c && t != b && forall x :: x in c ==> NotAfter(First(g, t), First(g, x))
    ensures (exists x :: x in c && Active(g, sees[x], x) && forall y :: y in c && Active(g, sees[y], y) ==> y == x) <==>
            Unbeaten(g, t, sees[t])
  {
    hide Active, Has, NotAfter, First, Unbeaten;
    ActiveIffUnbeaten(g, sees[t], t, b);
    forall x, y | x in c && y in c && x != y ensures !(Active(g, sees[x], x) && Active(g, sees[y], y)) {
      NoSplitBrain(g, x, sees[x], y, sees[y]);
    }
    forall x | x in c && x != t ensures !Active(g, sees[x], x) {
      ActiveIffUnbeaten(g, sees[x], x, t);
      BeatenBy(g, sees[x], x, t);
    }
  }

  lemma BeatenBy(g: Group, tunnels: set<string>, x: string, t: string)
    requires Has(g, x) && Has(g, t) && x != t && t in tunnels && NotAfter(First(g, t), First(g, x))
    ensures !Unbeaten(g, x, tunnels)
  {
    hide NotAfter, First, Has;
    FirstIsOwn(g, t);
    FirstIsOwn(g, x);
    var m := Member(Some(t), First(g, t).priority);
    assert Candidate(m.chassis.value, m.priority) == First(g, t);
    if Unbeaten(g, x, tunnels) {
      TotalOrder(First(g, x), First(g, t));
    }
  }

  /** A member listed once that sees no other member, in a group that has others, is
      active exactly when it sees a chassis that refers to the group. */
  lemma LoneChassis(g: Group, a: string, b: string, tunnels: set<string>)
    requires a != b && Has(g, a) && Has(g, b) && |Candidates(g.members, Some(tunnels), a)| == 1
    ensures Active(g, tunnels, a) <==> SeesRef(g, tunnels)
  {
    var cs := Candidates(g.members, Some(tunnels), a);
    NamedTwo(g.members, a, b);
    CandidatesExact(g.members, Some(tunnels), a);
    BestIsBest(cs);
    var m :| m in g.members && m.chassis == Some(a);
    var o :| o in g.members && o.chassis == Some(b);
    TwoElements(g.members, m, o);
    assert Member(Some(a), m.priority) == m;
    assert Candidate(a, m.priority) in cs;
  }

  // ---- The decision on priorities and names ----

  /** No two entries are visible. */
  ghost predicate AtMostOne(ms: seq<Member>, tunnels: Option<set<string>>, local: string) {
    forall i, j :: 0 <= i < j < |ms| ==> !Visible(ms[i], tunnels, local) || !Visible(ms[j], tunnels, local)
  }

  lemma {:induction false} FewCandidates(ms: seq<Member>, tunnels: Option<set<string>>, local: string)
    ensures |Candidates(ms, tunnels, local)| == 0 <==> forall m :: m in ms ==> !Visible(m, tunnels, local)
    ensures |Candidates(ms, tunnels, local)| <= 1 <==> AtMostOne(ms, tunnels, local)
  {
    if ms != [] {
      var init, last := ms[..|ms| - 1], ms[|ms| - 1];
      FewCandidates(init, tunnels, local);
      assert ms == init + [last];
      assert forall i :: 0 <= i < |init| ==> ms[i] == init[i] && init[i] in init;
    }
  }

  lemma {:induction false} NamedCandidates(ms: seq<Member>, local: string)
    ensures Named(ms) == |Candidates(ms, None, local)|
  {
    if ms != [] { NamedCandidates(ms[..|ms| - 1], local); }
  }

  ghost predicate Entry(g: Group, c: string, p: int) {
    exists m :: m in g.members && m.chassis == Some(c) && m.priority == p
  }

  /** At most one entry names a chassis. */
  ghost predicate OneNamed(ms: seq<Member>) {
    forall i, j :: 0 <= i < j < |ms| ==> ms[i].chassis.None? || ms[j].chassis.None?
  }

  /** At most one entry names this chassis or one that it sees. */
  ghost predicate OneSeen(ms: seq<Member>, tunnels: set<string>, local: string) {
    forall i, j :: 0 <= i < j < |ms| && ms[i].chassis.Some? && ms[j].chassis.Some? ==>
        || (ms[i].chassis.value != local && ms[i].chassis.value !in tunnels)
        || (ms[j].chassis.value != local && ms[j].chassis.value !in tunnels)
  }

  /** An entry with this priority beats every entry of every other chassis seen: by a
      higher priority, or by the same one and a name later in the dictionary. */
  ghost predicate Beats(g: Group, tunnels: set<string>, local: string, p: int) {
    forall c, q :: Entry(g, c, q) && c in tunnels && c != local ==> p > q || (p == q && Earlier(c, local))
  }

  /** MAIN RESULT.  What the decision comes to, for every group and whatever is seen: a
      chassis is active iff it is the only entry or the only one named; or it sees
      something, one of its entries beats those of all other members it sees, and if
      there are no others to beat it sees a chassis that refers to the group. */
  lemma ActiveExact(g: Group, tunnels: set<string>, local: string)
    ensures Active(g, tunnels, local) <==>
              exists p :: && Entry(g, local, p)
                          && (|| |g.members| == 1 || OneNamed(g.members)
                              || (&& tunnels != {} && Beats(g, tunnels, local, p)
                                  && (OneSeen(g.members, tunnels, local) ==> exists r :: r in g.refs && r in tunnels)))
  {
    hide Best, Candidates, Named, NotAfter, Outranks;
    var ms, cs := g.members, Candidates(g.members, Some(tunnels), local);
    NamedCandidates(ms, local);
    FewCandidates(ms, None, local);
    FewCandidates(ms, Some(tunnels), local);
    OneIs(ms, tunnels, local);
    HasEntry(g, local);
    if |ms| > 1 && Has(g, local) {
      CandidateThere(g, tunnels, local);
      BestBeats(g, tunnels, local);
    } else if |ms| == 1 && Has(g, local) {
      assert ms == [ms[0]];
    }
    if |ms| > 1 && !Has(g, local) && cs != [] {
      CandidatesExact(ms, Some(tunnels), local);
      BestIsBest(cs);
      assert Member(Some(Best(cs).name), Best(cs).priority) in ms;
    }
  }

  lemma OneIs(ms: seq<Member>, tunnels: set<string>, local: string)
    ensures OneNamed(ms) <==> AtMostOne(ms, None, local)
    ensures OneSeen(ms, tunnels, local) <==> AtMostOne(ms, Some(tunnels), local)
  {
  }

  lemma HasEntry(g: Group, local: string)
    ensures Has(g, local) <==> exists p :: Entry(g, local, p)
  {
    if Has(g, local) {
      var m :| m in g.members && m.chassis == Some(local);
      assert Entry(g, local, m.priority);
    }
  }

  lemma CandidateThere(g: Group, tunnels: set<string>, local: string)
    requires Has(g, local)
    ensures Candidates(g.members, Some(tunnels), local) != [] && Named(g.members) >= 1
  {
    NamedOne(g.members, local);
    var m :| m in g.members && m.chassis == Some(local);
    FewCandidates(g.members, Some(tunnels), local);
    assert Visible(m, Some(tunnels), local);
  }

  lemma EntryCandidate(g: Group, tunnels: set<string>, local: string, c: string, q: int)
    ensures Candidate(c, q) in Candidates(g.members, Some(tunnels), local) <==>
            Entry(g, c, q) && (c == local || c in tunnels)
  {
    CandidatesExact(g.members, Some(tunnels), local);
    assert Entry(g, c, q) <==> Member(Some(c), q) in g.members;
  }

  lemma BestBeats(g: Group, tunnels: set<string>, local: string)
    requires Candidates(g.members, Some(tunnels), local) != []
    ensures Best(Candidates(g.members, Some(tunnels), local)).name == local <==>
            exists p :: Entry(g, local, p) && Beats(g, tunnels, local, p)
  {
    hide Candidates, Entry, Best;
    var cs := Candidates(g.members, Some(tunnels), local);
    BestIsBest(cs);
    var b := Best(cs);
    EntryCandidate(g, tunnels, local, b.name, b.priority);
    if b.name == local {
      forall c, q | Entry(g, c, q) && c in tunnels && c != local
        ensures b.priority > q || (b.priority == q && Earlier(c, local))
      {
        EntryCandidate(g, tunnels, local, c, q);
        assert NotAfter(b, Candidate(c, q));
      }
      assert Beats(g, tunnels, local, b.priority);
    } else if exists p :: Entry(g, local, p) && Beats(g, tunnels, local, p) {
      var p :| Entry(g, local, p) && Beats(g, tunnels, local, p);
      EntryCandidate(g, tunnels, local, local, p);
      assert Outranks(Candidate(local, p), b);
      TotalOrder(b, Candidate(local, p));
    }
  }

  /** So, with members listed once each, a chassis that sees another member is active
      iff every member it sees has a smaller priority, or the same one and a name that
      is earlier in the dictionary. */
  lemma ActiveByPriority(g: Group, tunnels: set<string>, local: string, p: int, other: string)
    requires forall i, j :: 0 <= i < j < |g.members| && g.members[i].chassis.Some? ==>
               g.members[i].chassis != g.members[j].chassis
    requires Entry(g, local, p) && Has(g, other) && other != local && other in tunnels
    ensures Active(g, tunnels, local) <==> Beats(g, tunnels, local, p)
  {
    hide Active, Entry, Beats;
    ActiveExact(g, tunnels, local);
    EntryOnce(g, local, p);
    TwoSeen(g, tunnels, local, p, other);
  }

  lemma EntryOnce(g: Group, local: string, p: int)
    requires forall i, j :: 0 <= i < j < |g.members| && g.members[i].chassis.Some? ==>
               g.members[i].chassis != g.members[j].chassis
    requires Entry(g, local, p)
    ensures forall q :: Entry(g, local, q) ==> q == p
  {
    forall q | Entry(g, local, q) ensures q == p {
      var m :| m in g.members && m.chassis == Some(local) && m.priority == p;
      var o :| o in g.members && o.chassis == Some(local) && o.priority == q;
      var i :| 0 <= i < |g.members| && g.members[i] == m;
      var j :| 0 <= j < |g.members| && g.members[j] == o;
      assert i == j;
    }
  }

  lemma TwoSeen(g: Group, tunnels: set<string>, local: string, p: int, other: string)
    requires Entry(g, local, p) && Has(g, other) && other != local && other in tunnels
    ensures |g.members| > 1 && !OneNamed(g.members) && !OneSeen(g.members, tunnels, local)
  {
    var m :| m in g.members && m.chassis == Some(local);
    var o :| o in g.members && o.chassis == Some(other);
    var i :| 0 <= i < |g.members| && g.members[i] == m;
    var j :| 0 <= j < |g.members| && g.members[j] == o;
    var x, y := if i < j then i else j, if i < j then j else i;
    assert x < y && g.members[x].chassis.Some? && g.members[y].chassis.Some?;
  }

  /** The active one of members that see each other has the greatest priority. */
  lemma ActiveIsGreatest(g: Group, tunnels: set<string>, x: string, y: string, q: int)
    requires Has(g, x) && Entry(g, y, q) && x != y && y in tunnels && Active(g, tunnels, x)
    ensures exists p :: Entry(g, x, p) && (p > q || (p == q && Earlier(y, x)))
  {
    hide Active, Entry;
    HasEntry(g, x);
    var p0 :| Entry(g, x, p0);
    HasEntry(g, y);
    TwoSeen(g, tunnels, x, p0, y);
    ActiveExact(g, tunnels, x);
    var p :| Entry(g, x, p) && Beats(g, tunnels, x, p);
  }

  // ---- The imperative form ----

  ghost predicate Ordered(s: seq<Candidate>) {
    forall i, j :: 0 <= i < j < |s| ==> NotAfter(s[i], s[j])
  }

  /** The first i are in place: none of those behind comes before them. */
  ghost predicate Settled(s: seq<Candidate>, i: nat) {
    forall p, q :: 0 <= p < i && p < q < |s| ==> NotAfter(s[p], s[q])
  }

  lemma SwapSettles(s: seq<Candidate>, i: nat, k: nat)
    requires i <= k < |s| && Settled(s, i) && forall q :: i <= q < |s| ==> NotAfter(s[k], s[q])
    ensures var t := s[i := s[k]][k := s[i]]; Settled(t, i + 1) && multiset(t) == multiset(s)
  {
    hide NotAfter;
  }

  /** Sorts the first n places of the array. */
  method SortFirst(a: array<Candidate>, n: nat)
    requires n <= a.Length
    modifies a
    ensures Ordered(a[..n]) && multiset(a[..n]) == multiset(old(a[..n]))
  {
    hide NotAfter, Settled;
    SettledStart(a[..n]);
    var i := 0;
    while i < n
      invariant 0 <= i <= n && Settled(a[..n], i) && multiset(a[..n]) == multiset(old(a[..n]))
    {
      var k := Least(a, i, n);
      SwapSettles(a[..n], i, k);
      Swap(a, i, k, n);
      i := i + 1;
    }
    SettledAll(a[..n]);
  }

  lemma SettledStart(s: seq<Candidate>)
    ensures Settled(s, 0)
  {
  }

  lemma SettledAll(s: seq<Candidate>)
    requires Settled(s, |s|)
    ensures Ordered(s)
  {
  }

  method Swap(a: array<Candidate>, i: nat, k: nat, n: nat)
    requires i < n && k < n && n <= a.Length
    modifies a
    ensures a[..n] == old(a[..n])[i := old(a[k])][k := old(a[i])]
  {
    a[i], a[k] := a[k], a[i];
  }

  method Least(a: array<Candidate>, i: nat, n: nat) returns (k: nat)
    requires i < n <= a.Length
    ensures i <= k < n && forall q :: i <= q < n ==> NotAfter(a[k], a[q])
  {
    hide Compare, NotAfter, Outranks;
    k := i;
    TotalOrder(a[i], a[i]);
    var j := i + 1;
    while j < n
      invariant i <= k < j <= n && forall q :: i <= q < j ==> NotAfter(a[k], a[q])
    {
      TotalOrder(a[j], a[k]);
      TotalOrder(a[j], a[j]);
      CompareRanks(a[k], a[j]);
      if Compare(a[k], a[j]) > 0 {
        forall q | i <= q < j ensures NotAfter(a[j], a[q]) { OrderTransitive(a[j], a[k], a[q]); }
        k := j;
      }
      j := j + 1;
    }
  }

  /** The visible members, best first, or nothing when they are rejected. */
  method OrderedList(g: Group, tunnels: Option<set<string>>, local: string) returns (r: Option<seq<Candidate>>)
    ensures var cs := Candidates(g.members, tunnels, local);
            && (r.None? <==> Rejected(g, tunnels, cs))
            && (r.Some? ==> Ordered(r.value) && multiset(r.value) == multiset(cs))
  {
    hide NotAfter, Ordered, Candidates, SeesRef;
    var order := new Candidate[|g.members|](_ => Candidate("", 0));
    var n := FillVisible(g, tunnels, local, order);
    if n == 0 {
      return None;
    }
    if n == 1 {
      if tunnels.Some? {
        var can := SeesSome(g, tunnels.value);
        if !can {
          return None;
        }
      }
      OneOrdered(order[..n]);
    } else {
      SortFirst(order, n);
    }
    return Some(order[..n]);
  }

  lemma OneOrdered(s: seq<Candidate>)
    requires |s| == 1
    ensures Ordered(s)
  {
  }

  method FillVisible(g: Group, tunnels: Option<set<string>>, local: string, order: array<Candidate>) returns (n: nat)
    requires order.Length == |g.members|
    modifies order
    ensures n <= order.Length && order[..n] == Candidates(g.members, tunnels, local)
  {
    n := 0;
    var i := 0;
    while i < |g.members|
      invariant 0 <= i <= |g.members| && n <= i
      invariant order[..n] == Candidates(g.members[..i], tunnels, local)
    {
      assert g.members[..i + 1][..i] == g.members[..i];
      var m := g.members[i];
      i := i + 1;
      if m.chassis.None? {
        continue;
      }
      if m.chassis.value != local && tunnels.Some? && m.chassis.value !in tunnels.value {
        continue;
      }
      order[n] := Candidate(m.chassis.value, m.priority);
      n := n + 1;
    }
    assert g.members[..i] == g.members;
  }

  method SeesSome(g: Group, tunnels: set<string>) returns (can: bool)
    ensures can <==> SeesRef(g, tunnels)
  {
    can := false;
    var j := 0;
    while j < |g.refs|
      invariant 0 <= j <= |g.refs| && !can && forall x :: 0 <= x < j ==> g.refs[x] !in tunnels
    {
      if g.refs[j] in tunnels {
        can := true;
        break;
      }
      j := j + 1;
    }
  }

  method OnlyCandidate(g: Group, local: string) returns (r: bool)
    ensures r <==> Has(g, local) && Named(g.members) == 1
  {
    var n := 0;
    var present := false;
    var i := 0;
    while i < |g.members|
      invariant 0 <= i <= |g.members| && n == Named(g.members[..i])
      invariant present <==> exists j :: 0 <= j < i && g.members[j].chassis == Some(local)
    {
      assert g.members[..i + 1][..i] == g.members[..i];
      if g.members[i].chassis.Some? {
        n := n + 1;
        if g.members[i].chassis.value == local {
          present := true;
        }
      }
      i := i + 1;
    }
    assert g.members[..i] == g.members;
    return present && n == 1;
  }

  method IsActive(g: Option<Group>, tunnels: set<string>, local: string) returns (r: bool)
    ensures r <==> g.Some? && Active(g.value, tunnels, local)
  {
    if g.None? || |g.value.members| == 0 {
      return false;
    }
    var grp := g.value;
    if |grp.members| == 1 {
      return grp.members[0].chassis == Some(local);
    }
    var only := OnlyCandidate(grp, local);
    if only {
      return true;
    }
    if tunnels == {} {
      return false;
    }
    var o := OrderedList(grp, Some(tunnels), local);
    if o.None? {
      return false;
    }
    HeadIsBest(o.value, Candidates(grp.members, Some(tunnels), local));
    return o.value[0].name == local;
  }

  lemma HeadIsBest(s: seq<Candidate>, cs: seq<Candidate>)
    requires Ordered(s) && multiset(s) == multiset(cs) && cs != []
    ensures s != [] && s[0] == Best(cs)
  {
    hide Outranks, NotAfter;
    BestIsBest(cs);
    assert Best(cs) in multiset(s);
    var i :| 0 <= i < |s| && s[i] == Best(cs);
    assert s[0] in multiset(cs);
    TotalOrder(s[0], s[0]);
    TotalOrder(s[0], Best(cs));
  }
}
