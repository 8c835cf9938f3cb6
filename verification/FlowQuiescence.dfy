/** When a recompute that asks for the same again sends nothing: after a populate, a
    further switch of lists followed by adds that amount to the same requests leaves
    the next populate no flow mod to emit, on conditions that are exact. */
module FlowQuiescence {
  import opened Common
  import opened OpenFlow
  import opened Seqs
  import opened FlowTable
  import opened FlowIndex
  import opened FlowRefinement

  datatype Request = Request(key: Key, acts: Ofpacts, cookie: nat, uuid: Uuid)

  ghost function AddAll(t: Table, reqs: seq<Request>): Table
    requires TwoLists(t)
    decreases |reqs|
  {
    if reqs == [] then t
    else
      var r := reqs[0];
      AddAll(Add(t, r.key, r.acts, r.cookie, r.uuid), reqs[1..])
  }

  ghost function GoalAll(g: Goal, reqs: seq<Request>): Goal
    decreases |reqs|
  {
    if reqs == [] then g else GoalAll(GoalAdd(g, reqs[0].key, reqs[0].acts, reqs[0].uuid), reqs[1..])
  }

  // ---------- Lists across a recompute ----------

  /** The same action object, stale mark aside. */
  ghost predicate SameAct(a: Action, b: Action) { a.(stale := b.stale) == b }

  /** `r` begins with the actions of `s`, in place. */
  ghost predicate Extends(s: seq<Action>, r: seq<Action>) {
    |s| <= |r| && forall i :: 0 <= i < |s| ==> SameAct(s[i], r[i])
  }

  ghost predicate First(s: seq<Action>, i: int)
    requires 0 <= i < |s|
  {
    forall h :: 0 <= h < i ==> s[h].acts != s[i].acts
  }

  /** A request that is live is live at its first occurrence. */
  ghost predicate FirstLive(s: seq<Action>) {
    forall i, j :: 0 <= i < j < |s| && First(s, i) && s[j].acts == s[i].acts && s[j].uuid == s[i].uuid && !s[j].stale
      ==> !s[i].stale
  }

  ghost predicate DistinctActs(s: seq<Action>) {
    forall i, j :: 0 <= i < j < |s| ==> s[i].acts != s[j].acts
  }

  lemma {:induction false} FindFirst(s: seq<Action>, acts: Ofpacts) returns (i: int)
    requires FindActs(s, acts).Some?
    ensures 0 <= i < |s| && s[i] == FindActs(s, acts).value && s[i].acts == acts && First(s, i)
  {
    if s[0].acts == acts {
      i := 0;
    } else {
      var i' := FindFirst(s[1..], acts);
      i := i' + 1;
      forall h | 0 <= h < i ensures s[h].acts != s[i].acts {
        assert h > 0 ==> s[h] == s[1..][h - 1];
      }
    }
  }

  /** Un-staling the first match keeps all this. */
  lemma RefreshFirst(s: seq<Action>, r: seq<Action>, acts: Ofpacts)
    requires Extends(s, r) && FirstLive(r) && NoDupIds(r) && FindActs(r, acts).Some?
    ensures var r' := RestaleSeq(r, (a: Action) => a.stale && a.id != FindActs(r, acts).value.id);
            Extends(s, r') && FirstLive(r') && |r'| == |r|
  {
    hide FindActs, FirstLive, First;
    var id := FindActs(r, acts).value.id;
    var f := FindFirst(r, acts);
    var r' := RestaleSeq(r, (a: Action) => a.stale && a.id != id);
    assert forall i :: 0 <= i < |r| ==> r'[i] == r[i].(stale := r[i].stale && r[i].id != id);
    RefreshedLive(r, r', id, f);
  }

  lemma RefreshedLive(r: seq<Action>, r': seq<Action>, id: nat, f: int)
    requires FirstLive(r) && NoDupIds(r) && 0 <= f < |r| && First(r, f) && r[f].id == id
    requires |r'| == |r| && forall i :: 0 <= i < |r| ==> r'[i] == r[i].(stale := r[i].stale && r[i].id != id)
    ensures FirstLive(r')
  {
    forall i, j | 0 <= i < j < |r'| && First(r', i) && !r'[j].stale
                  && r'[j].acts == r'[i].acts && r'[j].uuid == r'[i].uuid
      ensures !r'[i].stale
    {
      forall h | 0 <= h < i ensures r[h].acts != r[i].acts {
        assert r'[h].acts != r'[i].acts;
      }
      assert First(r, i);
    }
  }

  lemma AppendFirst(s: seq<Action>, r: seq<Action>, a: Action)
    requires Extends(s, r) && FirstLive(r)
    requires FindActs(r, a.acts).Some? ==> FindActs(r, a.acts).value.uuid != a.uuid
    ensures Extends(s, r + [a]) && FirstLive(r + [a])
  {
    var r' := r + [a];
    forall i, j | 0 <= i < j < |r'| && First(r', i) && !r'[j].stale
                  && r'[j].acts == r'[i].acts && r'[j].uuid == r'[i].uuid
      ensures !r'[i].stale
    {
      forall h | 0 <= h < i ensures r[h].acts != r[i].acts {
        assert r'[h].acts != r'[i].acts;
      }
      assert First(r, i);
      if j == |r| {
        assert r[i] in r;
        var f := FindFirst(r, a.acts);
      }
    }
  }

  // ---------- Conjunctions across a recompute ----------

  /** A request of the second round for a conjunction that somebody else was the first
      to ask for. */
  ghost function Foreign(s: seq<Action>, k: Key): Request -> bool {
    (r: Request) =>
      && r.key == k && IsConj(r.acts)
      && FindActs(s, r.acts).Some? && FindActs(s, r.acts).value.uuid != r.uuid
  }

  /** What becomes of the conjunctions `s` of a flow: of equal ones only the first can
      be live again, where it stands; every foreign request is appended. */
  ghost predicate Traced(s: seq<Action>, r: seq<Action>, tail: seq<Request>) {
    && |r| == |s| + |tail|
    && (forall i :: 0 <= i < |s| ==> SameAct(s[i], r[i]) && (!r[i].stale ==> First(s, i)))
    && (forall i :: 0 <= i < |tail| ==> Appended(s, r[|s| + i], tail[i]))
  }

  ghost predicate Appended(s: seq<Action>, a: Action, q: Request) {
    && !a.stale && a.uuid == q.uuid && a.acts == q.acts
    && FindActs(s, q.acts).Some? && FindActs(s, q.acts).value.uuid != q.uuid
  }

  lemma TraceStart(s: seq<Action>)
    ensures Traced(s, RestaleSeq(s, (a: Action) => true), [])
  {
  }

  /** The first of equal conjunctions stays the first. */
  lemma TraceFirst(s: seq<Action>, r: seq<Action>, tail: seq<Request>, acts: Ofpacts) returns (i: int)
    requires Traced(s, r, tail) && FindActs(s, acts).Some?
    ensures 0 <= i < |s| && First(s, i) && s[i] == FindActs(s, acts).value
    ensures FindActs(r, acts).Some? && r[i] == FindActs(r, acts).value && r[i].uuid == s[i].uuid
  {
    i := FindFirst(s, acts);
    assert SameAct(s[i], r[i]) && r[i] in r && r[i].acts == acts;
    assert forall h :: 0 <= h < i ==> SameAct(s[h], r[h]) && r[h].acts != acts;
    var j := FindFirst(r, acts);
    assert j == i;
  }

  lemma TraceKnown(s: seq<Action>, r: seq<Action>, tail: seq<Request>, acts: Ofpacts)
    requires Traced(s, r, tail) && NoDupIds(r) && FindActs(s, acts).Some? && FindActs(r, acts).Some?
    ensures Traced(s, RestaleSeq(r, (a: Action) => a.stale && a.id != FindActs(r, acts).value.id), tail)
  {
    hide FindActs;
    var f := TraceFirst(s, r, tail, acts);
    var id := FindActs(r, acts).value.id;
    var r' := RestaleSeq(r, (a: Action) => a.stale && a.id != id);
    forall i | 0 <= i < |s| ensures SameAct(s[i], r'[i]) && (!r'[i].stale ==> First(s, i)) {
      assert SameAct(s[i], r[i]);
    }
    forall i | 0 <= i < |tail| ensures Appended(s, r'[|s| + i], tail[i]) {
      assert Appended(s, r[|s| + i], tail[i]);
      assert r'[|s| + i] == r[|s| + i];
    }
  }

  lemma TraceNew(s: seq<Action>, r: seq<Action>, tail: seq<Request>, a: Action, q: Request)
    requires Traced(s, r, tail) && Appended(s, a, q)
    ensures Traced(s, r + [a], tail + [q])
  {
  }

  /** A flow of the first round, `f`, and the same flow during the second. */
  ghost predicate Following(f: Flow, g: Flow, tail: seq<Request>) {
    && Extends(f.allow, g.allow) && FirstLive(g.allow)
    && Extends(f.drop, g.drop)
    && Traced(f.conj, g.conj, tail)
    && g.installed == f.installed && g.activeCookie == f.activeCookie
  }

  lemma FollowMoved(f: Flow, l: nat)
    ensures Following(f, InvalidateAll(f.(list := l)), [])
  {
    TraceStart(f.conj);
  }

  lemma RestaleElsewhere(s: seq<Action>, id: nat)
    requires forall a :: a in s ==> a.id != id
    ensures RestaleSeq(s, (a: Action) => a.stale && a.id != id) == s
  {
    assert forall i :: 0 <= i < |s| ==> s[i] in s;
  }

  lemma RefreshExtends(s: seq<Action>, r: seq<Action>, id: nat)
    requires Extends(s, r)
    ensures var r' := RestaleSeq(r, (a: Action) => a.stale && a.id != id); Extends(s, r') && |r'| == |r|
  {
  }

  lemma FollowKnown(f: Flow, g: Flow, tail: seq<Request>, acts: Ofpacts)
    requires Following(f, g, tail) && FlowOk(g) && MatchingAction(g, acts).Some?
    requires IsConj(acts) ==> FindActs(f.conj, acts).Some?
    ensures Following(f, Unstale(g, MatchingAction(g, acts).value.id), tail)
  {
    hide Extends, FirstLive, Traced;
    var m := MatchingAction(g, acts).value;
    MatchPlace(g, acts);
    ClassesExclusive(acts);
    RefreshExtends(f.allow, g.allow, m.id);
    RefreshExtends(f.drop, g.drop, m.id);
    if IsAllow(acts) {
      RefreshFirst(f.allow, g.allow, acts);
    } else {
      assert m !in g.allow;
      RestaleElsewhere(g.allow, m.id);
    }
    if IsConj(acts) {
      TraceKnown(f.conj, g.conj, tail, acts);
    } else {
      assert m !in g.conj;
      RestaleElsewhere(g.conj, m.id);
    }
  }

  lemma FollowNew(f: Flow, g: Flow, tail: seq<Request>, a: Action)
    requires Following(f, g, tail) && !IsConj(a.acts)
    requires MatchingAction(g, a.acts).Some? ==> MatchingAction(g, a.acts).value.uuid != a.uuid
    ensures Following(f, UpdateActions(g, a), tail)
  {
    ClassesExclusive(a.acts);
    if IsAllow(a.acts) { AppendFirst(f.allow, g.allow, a); }
    hide FirstLive, MatchingAction, Traced;
  }

  lemma FollowForeign(f: Flow, g: Flow, tail: seq<Request>, a: Action, q: Request)
    requires Following(f, g, tail) && IsConj(a.acts) && Appended(f.conj, a, q)
    ensures Following(f, UpdateActions(g, a), tail + [q])
  {
    hide FirstLive, Extends, Traced;
    ClassesExclusive(a.acts);
    TraceNew(f.conj, g.conj, tail, a, q);
  }

  // ---------- The second round ----------

  ghost predicate Requested(done: seq<Request>, k: Key) { exists r :: r in done && r.key == k }

  /** The table during the second round: flows already asked for again follow
      their first-round selves, the others wait unchanged on the old list. */
  ghost predicate Round(t1: Table, u: Table, done: seq<Request>) {
    && CoreOk(u) && TwoLists(t1) && u.active == Old(t1) && u.flows.Keys == t1.flows.Keys && u.modified <= u.flows.Keys
    && forall k :: k in u.flows ==> RoundAt(t1, u, done, k)
  }

  ghost predicate RoundAt(t1: Table, u: Table, done: seq<Request>, k: Key)
    requires k in u.flows && k in t1.flows
  {
    if Requested(done, k) then
      && u.flows[k].list == u.active && k in u.modified
      && Following(t1.flows[k], u.flows[k], Filter(done, Foreign(t1.flows[k].conj, k)))
    else u.flows[k].list != u.active && u.flows[k] == t1.flows[k]
  }

  /** The flow the next request works on. */
  lemma TouchedFollows(t1: Table, u: Table, done: seq<Request>, k: Key)
    requires Round(t1, u, done) && k in t1.flows
    ensures Following(t1.flows[k], Touched(u, k), Filter(done, Foreign(t1.flows[k].conj, k)))
  {
    hide Following, CoreOk;
    assert RoundAt(t1, u, done, k);
    if !Requested(done, k) {
      FilterNone(done, Foreign(t1.flows[k].conj, k));
      FollowMoved(t1.flows[k], u.active);
    }
  }

  lemma RoundFollows(f: Flow, u: Table, tail: seq<Request>, r: Request)
    requires CoreOk(u) && Following(f, Touched(u, r.key), tail)
    requires IsConj(r.acts) ==> FindActs(f.conj, r.acts).Some?
    ensures Following(f, Add(u, r.key, r.acts, r.cookie, r.uuid).flows[r.key],
                      tail + if Foreign(f.conj, r.key)(r) then [r] else [])
  {
    hide Following, Linked, Listed, Unstale, UpdateActions, Touched, RequeuedLists, FindActs, Traced;
    var k := r.key;
    var g := Touched(u, k);
    var a := Action(u.nextId, r.acts, r.cookie, r.uuid, false);
    TouchedOk(u, k);
    ClassesExclusive(r.acts);
    assert tail + [] == tail;
    if IsConj(r.acts) {
      FollowingConj(f, g, tail);
      var i := TraceFirst(f.conj, g.conj, tail, r.acts);
      if Known(u, k, r.acts, r.uuid) {
        FollowKnown(f, g, tail, r.acts);
      } else {
        FollowForeign(f, g, tail, a, r);
      }
    } else if Known(u, k, r.acts, r.uuid) {
      FollowKnown(f, g, tail, r.acts);
    } else {
      FollowNew(f, g, tail, a);
    }
  }

  lemma FollowingConj(f: Flow, g: Flow, tail: seq<Request>)
    requires Following(f, g, tail)
    ensures Traced(f.conj, g.conj, tail)
  {
  }

  lemma AddNotices(u: Table, k: Key, acts: Ofpacts, cookie: nat, uuid: Uuid)
    requires TwoLists(u) && k in u.flows && (Moves(u, k) || k in u.modified)
    ensures k in Add(u, k, acts, cookie, uuid).modified
  {
  }

  lemma MovesUnasked(t1: Table, u: Table, done: seq<Request>, k: Key)
    requires Round(t1, u, done) && k in t1.flows
    ensures Moves(u, k) || k in u.modified
  {
    hide Following, CoreOk;
    assert RoundAt(t1, u, done, k);
  }

  lemma RoundStep(t1: Table, u: Table, done: seq<Request>, r: Request)
    requires Round(t1, u, done) && r.key in t1.flows
    requires IsConj(r.acts) ==> FindActs(t1.flows[r.key].conj, r.acts).Some?
    ensures Round(t1, Add(u, r.key, r.acts, r.cookie, r.uuid), done + [r])
  {
    hide Following, CoreOk, FindActs, Add, RequeuedLists, RoundAt, Foreign, Touched;
    var k := r.key;
    CoreLists(u);
    AddCore(u, k, r.acts, r.cookie, r.uuid);
    AddShape(u, k, r.acts, r.cookie, r.uuid);
    MovesUnasked(t1, u, done, k);
    AddNotices(u, k, r.acts, r.cookie, r.uuid);
    TouchedFollows(t1, u, done, k);
    RoundFollows(t1.flows[k], u, Filter(done, Foreign(t1.flows[k].conj, k)), r);
    var u' := Add(u, k, r.acts, r.cookie, r.uuid);
    forall j | j in u'.flows ensures RoundAt(t1, u', done + [r], j) {
      assert RoundAt(t1, u, done, j);
      RoundOne(t1, u, done, r, u', j);
    }
  }

  lemma RoundOne(t1: Table, u: Table, done: seq<Request>, r: Request, u': Table, j: Key)
    requires j in u.flows && j in u'.flows && j in t1.flows && u'.active == u.active
    requires j != r.key ==> RoundAt(t1, u, done, j) && u'.flows[j] == u.flows[j]
    requires j != r.key && j in u.modified ==> j in u'.modified
    requires j == r.key ==>
               && u'.flows[j].list == u.active && j in u'.modified
               && var s := t1.flows[j].conj;
               Following(t1.flows[j], u'.flows[j],
                         Filter(done, Foreign(s, j)) + if Foreign(s, j)(r) then [r] else [])
    ensures RoundAt(t1, u', done + [r], j)
  {
    hide Following, Foreign, Requested, Filter;
    FilterAppend(done, r, Foreign(t1.flows[j].conj, j));
    RequestedMore(done, r, j);
    if j != r.key {
      NotForeign(t1.flows[j].conj, j, r);
      assert Filter(done, Foreign(t1.flows[j].conj, j)) + [] == Filter(done, Foreign(t1.flows[j].conj, j));
    }
  }

  lemma NotForeign(s: seq<Action>, k: Key, r: Request)
    requires r.key != k
    ensures !Foreign(s, k)(r)
  {
  }

  lemma RequestedMore(done: seq<Request>, r: Request, j: Key)
    ensures Requested(done + [r], j) <==> Requested(done, j) || r.key == j
  {
    if Requested(done, j) {
      var q :| q in done && q.key == j;
      assert q in done + [r];
    }
    assert r in done + [r];
  }

  lemma RoundStart(t1: Table)
    requires TableOk(t1) && t1.lists[Old(t1)] == []
    ensures Round(t1, SwitchLists(t1), [])
  {
    SwitchCore(t1);
    assert forall k :: k in t1.flows ==> t1.flows[k].list == t1.active by {
      assert forall k :: k !in t1.lists[Old(t1)];
    }
    hide Linked, FlowOk;
  }

  // ---------- What the same requests amount to ----------

  lemma {:induction false} GoalKeeps(g: Goal, reqs: seq<Request>, k: Key)
    ensures At(g, k).others <= At(GoalAll(g, reqs), k).others
    ensures At(g, k).normal.Some? ==> At(GoalAll(g, reqs), k).normal.Some?
    decreases |reqs|
  {
    if reqs != [] {
      GoalKeeps(GoalAdd(g, reqs[0].key, reqs[0].acts, reqs[0].uuid), reqs[1..], k);
    }
  }

  lemma {:induction false} GoalHas(g: Goal, reqs: seq<Request>, r: Request)
    requires r in reqs
    ensures At(GoalAll(g, reqs), r.key) != NOTHING
    ensures !IsNormal(r.acts) ==> (r.uuid, r.acts) in At(GoalAll(g, reqs), r.key).others
    decreases |reqs|
  {
    var g1 := GoalAdd(g, reqs[0].key, reqs[0].acts, reqs[0].uuid);
    if r == reqs[0] {
      GoalKeeps(g1, reqs[1..], r.key);
    } else {
      GoalHas(g1, reqs[1..], r);
    }
  }

  /** Every request is one the first round ended with. */
  ghost predicate Repeats(t1: Table, r: Request) {
    r.key in t1.flows && (IsConj(r.acts) ==> (r.uuid, r.acts) in LiveOf(t1.flows[r.key].conj))
  }

  lemma RequestRepeats(t1: Table, reqs: seq<Request>, r: Request)
    requires CoreOk(t1) && Agree(t1, GoalAll(map[], reqs)) && r in reqs
    ensures Repeats(t1, r)
  {
    GoalHas(map[], reqs, r);
    ClassesExclusive(r.acts);
    assert Wanted(t1, r.key) == At(GoalAll(map[], reqs), r.key);
    hide Linked, GoalAll;
    var f := t1.flows[r.key];
    if IsConj(r.acts) {
      assert (r.uuid, r.acts) in LiveOf(f.allow) + LiveOf(f.drop) + LiveOf(f.conj);
      assert FlowOk(f);
    }
  }

  lemma RepeatsFound(t1: Table, r: Request)
    requires Repeats(t1, r)
    ensures r.key in t1.flows && (IsConj(r.acts) ==> FindActs(t1.flows[r.key].conj, r.acts).Some?)
  {
  }

  lemma {:induction false} SecondRound(t1: Table, u: Table, g: Goal, done: seq<Request>, reqs: seq<Request>)
    requires Round(t1, u, done) && Agree(u, g)
    requires forall r :: r in reqs ==> Repeats(t1, r)
    ensures TwoLists(u) && Round(t1, AddAll(u, reqs), done + reqs) && Agree(AddAll(u, reqs), GoalAll(g, reqs))
    decreases |reqs|
  {
    hide Agree, Add, Round, Repeats;
    assert CoreOk(u) && TwoLists(u) by { RoundCore(t1, u, done); }
    if reqs == [] {
      assert done + reqs == done;
    } else {
      var r := reqs[0];
      assert r in reqs;
      RepeatsFound(t1, r);
      RoundStep(t1, u, done, r);
      AddAgree(u, g, r.key, r.acts, r.cookie, r.uuid);
      SecondRound(t1, Add(u, r.key, r.acts, r.cookie, r.uuid), GoalAdd(g, r.key, r.acts, r.uuid), done + [r],
                  reqs[1..]);
      assert done + [r] + reqs[1..] == done + reqs;
    }
  }

  lemma RoundCore(t1: Table, u: Table, done: seq<Request>)
    requires Round(t1, u, done)
    ensures CoreOk(u) && TwoLists(u)
  {
    CoreLists(u);
  }

  // ---------- The flow after the second round ----------

  lemma SlotsLive(f: Flow, g: Flow)
    requires Slotted(f) && Slotted(g) && Live(f) == Live(g)
    ensures LiveOf(f.allow) == LiveOf(g.allow) && LiveOf(f.drop) == LiveOf(g.drop) && LiveOf(f.conj) == LiveOf(g.conj)
  {
    SlotLive(f);
    SlotLive(g);
    hide LiveOf, Slotted;
    assert Live(f).others == LiveOf(f.allow) + LiveOf(f.drop) + LiveOf(f.conj);
    assert Live(g).others == LiveOf(g.allow) + LiveOf(g.drop) + LiveOf(g.conj);
  }

  lemma SlotLive(f: Flow)
    requires Slotted(f)
    ensures forall x :: x in Live(f).others ==>
              && (x in LiveOf(f.allow) <==> IsAllow(x.1)) && (x in LiveOf(f.drop) <==> IsDrop(x.1))
              && (x in LiveOf(f.conj) <==> IsConj(x.1))
  {
    forall x | x in Live(f).others
      ensures (x in LiveOf(f.allow) <==> IsAllow(x.1)) && (x in LiveOf(f.drop) <==> IsDrop(x.1))
      ensures (x in LiveOf(f.conj) <==> IsConj(x.1))
    {
      ClassesExclusive(x.1);
    }
  }

  ghost function Kept(s: seq<Action>): seq<Action> { Filter(s, (a: Action) => !a.stale) }

  lemma KeptNone(s: seq<Action>)
    ensures Kept(s) == [] <==> LiveOf(s) == {}
  {
    SomeMember(Kept(s));
    if Kept(s) != [] {
      var a :| a in Kept(s);
      assert (a.uuid, a.acts) in LiveOf(s);
    }
  }

  /** The front action of the first round is live again, and still in front. */
  lemma KeptFront(s: seq<Action>, r: seq<Action>)
    requires Extends(s, r) && FirstLive(r) && LiveOf(s) == LiveOf(r) && s != [] && !s[0].stale
    ensures Kept(r) != [] && Kept(r)[0].acts == s[0].acts
  {
    assert s[0] in s && (s[0].uuid, s[0].acts) in LiveOf(r);
    var a :| a in r && !a.stale && (a.uuid, a.acts) == (s[0].uuid, s[0].acts);
    var j :| 0 <= j < |r| && r[j] == a;
    assert SameAct(s[0], r[0]) && First(r, 0);
    assert !r[0].stale;
    FilterHead(r, (a: Action) => !a.stale);
  }

  /** Of equal conjunctions, the first. */
  ghost function Firsts(s: seq<Action>): seq<Action> {
    if s == [] then []
    else
      var init, last := s[..|s| - 1], s[|s| - 1];
      Firsts(init) + if FindActs(init, last.acts).None? then [last] else []
  }

  function Joined(reqs: seq<Request>): Ofpacts { if reqs == [] then [] else reqs[0].acts + Joined(reqs[1..]) }

  /** The conjunctions a flow has after the second round: each once, in the order of
      the first round, and then all foreign requests in the order of the second. */
  ghost function ConjAgain(s: seq<Action>, k: Key, reqs: seq<Request>): Ofpacts {
    ConcatActs(Firsts(s)) + Joined(Filter(reqs, Foreign(s, k)))
  }

  lemma TailForeign(s: seq<Action>, r: seq<Action>, tail: seq<Request>, j: int)
    requires Traced(s, r, tail) && |s| <= j < |r|
    ensures FindActs(s, r[j].acts).Some? && FindActs(s, r[j].acts).value.uuid != r[j].uuid
  {
    assert Appended(s, r[|s| + (j - |s|)], tail[j - |s|]);
  }

  /** What was live is live again: at the first of equal conjunctions. */
  lemma TraceLive(s: seq<Action>, r: seq<Action>, tail: seq<Request>, i: int)
    requires Traced(s, r, tail) && LiveOf(s) == LiveOf(r) && 0 <= i < |s| && !s[i].stale && First(s, i)
    ensures r[i] == s[i]
  {
    assert s[i] in s && (s[i].uuid, s[i].acts) in LiveOf(r);
    var a :| a in r && !a.stale && (a.uuid, a.acts) == (s[i].uuid, s[i].acts);
    var j :| 0 <= j < |r| && r[j] == a;
    var f := FindFirst(s, s[i].acts);
    assert f == i;
    forall h | |s| <= h < |r| ensures r[h].acts != s[i].acts || r[h].uuid != s[i].uuid { TailForeign(s, r, tail, h); }
    assert SameAct(s[j], r[j]) && First(s, j);
    assert j == i;
  }

  ghost predicate MarkedFirst(s: seq<Action>, r: seq<Action>, i: int)
    requires 0 <= i < |s| && i < |r|
  {
    if First(s, i) then r[i] == s[i] && !r[i].stale else r[i].stale
  }

  lemma {:induction false} KeptFirsts(s: seq<Action>, r: seq<Action>, n: nat)
    requires n <= |s| && n <= |r| && forall i :: 0 <= i < n ==> MarkedFirst(s, r, i)
    ensures Kept(r[..n]) == Firsts(s[..n])
  {
    hide Kept, Firsts, MarkedFirst;
    if n == 0 {
      assert r[..n] == [] && s[..n] == [];
      KeptEmpty();
    } else {
      KeptFirsts(s, r, n - 1);
      assert r[..n] == r[..n - 1] + [r[n - 1]] && s[..n] == s[..n - 1] + [s[n - 1]];
      assert MarkedFirst(s, r, n - 1);
      KeptStep(s, r, n - 1);
    }
  }

  lemma KeptEmpty()
    ensures Kept([]) == Firsts([])
  {
  }

  lemma KeptStep(s: seq<Action>, r: seq<Action>, i: nat)
    requires i < |s| && i < |r| && MarkedFirst(s, r, i) && Kept(r[..i]) == Firsts(s[..i])
    ensures Kept(r[..i] + [r[i]]) == Firsts(s[..i] + [s[i]])
  {
    hide First, FindActs, Firsts;
    FirstNone(s, i);
    FilterAppend(r[..i], r[i], (a: Action) => !a.stale);
    FirstsSnoc(s[..i], s[i]);
  }

  lemma FirstsSnoc(s: seq<Action>, x: Action)
    ensures Firsts(s + [x]) == Firsts(s) + if FindActs(s, x.acts).None? then [x] else []
  {
    assert (s + [x])[..|s|] == s;
  }

  lemma FirstNone(s: seq<Action>, i: int)
    requires 0 <= i < |s|
    ensures First(s, i) <==> FindActs(s[..i], s[i].acts).None?
  {
    if FindActs(s[..i], s[i].acts).Some? {
      var h := FindFirst(s[..i], s[i].acts);
      assert s[..i][h] == s[h];
    } else {
      forall h | 0 <= h < i ensures s[h].acts != s[i].acts { assert s[..i][h] in s[..i]; }
    }
  }

  lemma {:induction false} ConcatTwo(a: seq<Action>, b: seq<Action>)
    ensures ConcatActs(a + b) == ConcatActs(a) + ConcatActs(b)
  {
    if a == [] {
      assert a + b == b;
    } else {
      ConcatTwo(a[1..], b);
      assert (a + b)[0] == a[0] && (a + b)[1..] == a[1..] + b;
      var x, y, z := a[0].acts, ConcatActs(a[1..]), ConcatActs(b);
      assert x + (y + z) == x + y + z;
    }
  }

  lemma {:induction false} ConcatTail(s: seq<Action>, r: seq<Action>, tail: seq<Request>)
    requires |r| == |tail| && forall i :: 0 <= i < |tail| ==> Appended(s, r[i], tail[i])
    ensures ConcatActs(r) == Joined(tail)
  {
    if tail != [] {
      assert Appended(s, r[0], tail[0]);
      forall i | 0 <= i < |tail| - 1 ensures Appended(s, r[1..][i], tail[1..][i]) {
        assert Appended(s, r[i + 1], tail[i + 1]);
      }
      ConcatTail(s, r[1..], tail[1..]);
    }
  }

  lemma TraceMarked(s: seq<Action>, r: seq<Action>, tail: seq<Request>, i: int)
    requires Traced(s, r, tail) && LiveOf(s) == LiveOf(r) && 0 <= i < |s| && !s[i].stale
    ensures MarkedFirst(s, r, i)
  {
    hide LiveOf, First, FindActs;
    assert SameAct(s[i], r[i]);
    if First(s, i) { TraceLive(s, r, tail, i); }
  }

  lemma KeptTail(s: seq<Action>, r: seq<Action>, tail: seq<Request>)
    requires Traced(s, r, tail)
    ensures Kept(r[|s|..]) == r[|s|..] && ConcatActs(r[|s|..]) == Joined(tail)
  {
    hide ConcatActs, Joined, FindActs;
    var b := r[|s|..];
    forall i | 0 <= i < |tail| ensures Appended(s, b[i], tail[i]) { assert Appended(s, r[|s| + i], tail[i]); }
    ConcatTail(s, b, tail);
    forall a | a in b ensures !a.stale {
      var i :| 0 <= i < |b| && b[i] == a;
      assert Appended(s, b[i], tail[i]);
    }
    FilterAll(b, (a: Action) => !a.stale);
  }

  lemma TraceLength(s: seq<Action>, r: seq<Action>, tail: seq<Request>)
    requires Traced(s, r, tail)
    ensures |r| == |s| + |tail|
  {
  }

  lemma KeptTrace(s: seq<Action>, r: seq<Action>, tail: seq<Request>)
    requires Traced(s, r, tail) && LiveOf(s) == LiveOf(r) && forall a :: a in s ==> !a.stale
    ensures ConcatActs(Kept(r)) == ConcatActs(Firsts(s)) + Joined(tail)
  {
    hide LiveOf, ConcatActs, Joined, Firsts, Traced, MarkedFirst;
    var n := |s|;
    TraceLength(s, r, tail);
    forall i | 0 <= i < n ensures MarkedFirst(s, r, i) {
      assert s[i] in s;
      TraceMarked(s, r, tail, i);
    }
    KeptFirsts(s, r, n);
    KeptTail(s, r, tail);
    assert r == r[..n] + r[n..] && s[..n] == s;
    FilterConcat(r[..n], r[n..], (a: Action) => !a.stale);
    ConcatTwo(Kept(r[..n]), r[n..]);
  }

  lemma SettledSlots(f: Flow)
    requires forall a :: a in ActSet(f) ==> !a.stale
    ensures forall a :: a in f.allow || a in f.drop || a in f.conj ==> !a.stale
    ensures f.normal.Some? ==> !f.normal.value.stale
  {
    assert forall a :: a in f.allow || a in f.drop || a in f.conj ==> a in ActSet(f);
    assert f.normal.Some? ==> f.normal.value in ActSet(f);
  }

  lemma SameNormal(f: Flow, g: Flow)
    requires Live(f) == Live(g) && (f.normal.Some? ==> !f.normal.value.stale)
    ensures var d := DeleteStale(g);
            (d.normal.Some? <==> f.normal.Some?) && (f.normal.Some? ==> d.normal.value.acts == f.normal.value.acts)
  {
    assert LiveNormal(f) == LiveNormal(g);
  }

  lemma SameAllow(f: Flow, g: Flow, tail: seq<Request>)
    requires Following(f, g, tail) && LiveOf(f.allow) == LiveOf(g.allow) && forall a :: a in f.allow ==> !a.stale
    ensures var d := DeleteStale(g);
            (d.allow == [] <==> f.allow == []) && (f.allow != [] ==> d.allow[0].acts == f.allow[0].acts)
  {
    KeptNone(g.allow);
    assert DeleteStale(g).allow == Kept(g.allow);
    if f.allow == [] {
      assert LiveOf(f.allow) == {};
    } else {
      assert f.allow[0] in f.allow;
      KeptFront(f.allow, g.allow);
    }
  }

  lemma SameDrop(f: Flow, g: Flow)
    requires Slotted(f) && Slotted(g) && LiveOf(f.drop) == LiveOf(g.drop) && forall a :: a in f.drop ==> !a.stale
    ensures var d := DeleteStale(g);
            (d.drop == [] <==> f.drop == []) && (f.drop != [] ==> d.drop[0].acts == f.drop[0].acts == [])
  {
    var d := DeleteStale(g);
    KeptNone(g.drop);
    assert d.drop == Kept(g.drop);
    if f.drop == [] {
      assert LiveOf(f.drop) == {};
    } else {
      assert f.drop[0] in f.drop && (f.drop[0].uuid, f.drop[0].acts) in LiveOf(f.drop);
      assert d.drop[0] in d.drop && d.drop[0] in g.drop;
      assert IsDrop(d.drop[0].acts) && IsDrop(f.drop[0].acts);
    }
  }

  lemma ConjAfter(f: Flow, g: Flow, tail: seq<Request>)
    requires Following(f, g, tail) && LiveOf(f.conj) == LiveOf(g.conj) && forall a :: a in f.conj ==> !a.stale
    ensures var d := DeleteStale(g);
            && (d.conj == [] <==> f.conj == [])
            && ConcatActs(d.conj) == ConcatActs(Firsts(f.conj)) + Joined(tail)
  {
    hide Traced, ConcatActs, Firsts, Joined;
    KeptTrace(f.conj, g.conj, tail);
    KeptNone(g.conj);
    assert DeleteStale(g).conj == Kept(g.conj);
    if f.conj == [] {
      assert LiveOf(f.conj) == {};
    } else {
      assert f.conj[0] in f.conj && (f.conj[0].uuid, f.conj[0].acts) in LiveOf(f.conj);
    }
  }

  /** Only conjunctions. */
  predicate ConjOnly(f: Flow) { f.normal.None? && f.allow == [] && f.drop == [] && f.conj != [] }

  lemma EffectiveAfter(f: Flow, g: Flow, tail: seq<Request>)
    requires FlowOk(f) && FlowOk(g) && Following(f, g, tail) && Live(f) == Live(g)
    requires Effective(f).Some? && forall a :: a in ActSet(f) ==> !a.stale
    ensures Effective(DeleteStale(g)).Some?
    ensures Effective(DeleteStale(g)).value.acts ==
            if ConjOnly(f) then ConcatActs(Firsts(f.conj)) + Joined(tail) else Effective(f).value.acts
  {
    hide Following, Live, ActSet, DeleteStale, LiveOf, Slotted, Distinct, Firsts, Joined, ConcatActs;
    SettledSlots(f);
    SlotsLive(f, g);
    SameNormal(f, g);
    SameAllow(f, g, tail);
    SameDrop(f, g);
    ConjAfter(f, g, tail);
  }

  /** A dropping flow last sent with cookie zero, which reads as not installed. */
  ghost predicate ZeroCookieDrop(f: Flow) {
    Effective(f).Some? && Effective(f).value.acts == [] && f.activeCookie == 0
  }

  lemma SameMsgs(sw: Switch, k: Key, f: Flow, g: Flow)
    requires Effective(f).Some? && InSync(sw, k, f) && Mirrors(sw, k, f) && Effective(g).Some?
    requires g.installed == f.installed && g.activeCookie == f.activeCookie
    ensures PrepareMsgs(k, g) == [] <==> Effective(g).value.acts == Effective(f).value.acts && !ZeroCookieDrop(f)
  {
  }

  lemma {:induction false} HandleAllSilent(t: Table, order: seq<Key>)
    requires CoreOk(t) && NoDup(order) && forall k :: k in order ==> k in t.flows
    ensures HandleAllMsgs(t, order) == [] <==> forall k :: k in order ==> PrepareMsgs(k, DeleteStale(t.flows[k])) == []
    decreases |order|
  {
    hide Linked, FlowOk, PrepareMsgs, DeleteStale, HandleModified, Visited, HasActions;
    if order != [] {
      var k := order[0];
      assert k in order;
      HandleModifiedOk(t, k);
      var t1 := HandleModified(t, k);
      assert forall x :: x in order <==> x == k || x in order[1..];
      forall x | x in order[1..] ensures x in t1.flows && t1.flows[x] == t.flows[x] { assert x != k; }
      HandleAllSilent(t1, order[1..]);
    }
  }

  lemma QuietFlow(t: Table, sw: Switch, k: Key)
    requires HalfOk(t, sw) && Quiet(t) && k in t.flows && HasActions(t.flows[k])
    ensures t.flows[k].list == t.active && InSync(sw, k, t.flows[k]) && Mirrors(sw, k, t.flows[k])
  {
    hide Linked, ActSet, Mirrors, InSync;
    assert k !in t.lists[Old(t)];
    assert Resting(sw, k, t.flows[k]);
  }

  lemma StaleRemembers(f: Flow)
    ensures DeleteStale(f).installed == f.installed && DeleteStale(f).activeCookie == f.activeCookie
  {
  }

  /** The flow comes through a recompute with these requests unchanged: it has an
      action, is no drop installed with cookie zero, and if it is made of
      conjunctions they come out the same. */
  ghost predicate FlowSteady(f: Flow, k: Key, reqs: seq<Request>) {
    && HasActions(f) && !ZeroCookieDrop(f)
    && (ConjOnly(f) ==> ConjAgain(f.conj, k, reqs) == ConcatActs(f.conj))
  }

  lemma FlowFollows(t1: Table, t2: Table, sw: Switch, reqs: seq<Request>, k: Key)
    requires HalfOk(t1, sw) && Quiet(t1) && Round(t1, t2, reqs)
    requires Agree(t1, GoalAll(map[], reqs)) && Agree(t2, GoalAll(map[], reqs))
    requires k in t1.flows && HasActions(t1.flows[k])
    ensures k in t2.flows && t2.flows[k].list == t2.active && k in t2.modified
    ensures Live(t1.flows[k]) == Live(t2.flows[k])
    ensures Following(t1.flows[k], t2.flows[k], Filter(reqs, Foreign(t1.flows[k].conj, k)))
    ensures FlowOk(t1.flows[k]) && FlowOk(t2.flows[k])
  {
    hide Live, Linked, Foreign, GoalAll, ActSet, Following, HasActions, Effective, FlowOk, Filter, Mirrors;
    var f1, g := t1.flows[k], GoalAll(map[], reqs);
    EffectiveIff(f1);
    QuietFlow(t1, sw, k);
    EffectiveLive(f1);
    assert Wanted(t1, k) == At(g, k) && Wanted(t2, k) == At(g, k);
    assert RoundAt(t1, t2, reqs, k);
  }

  lemma FlowSilent(t1: Table, t2: Table, sw: Switch, reqs: seq<Request>, k: Key)
    requires HalfOk(t1, sw) && Quiet(t1) && Round(t1, t2, reqs)
    requires Agree(t1, GoalAll(map[], reqs)) && Agree(t2, GoalAll(map[], reqs))
    requires k in t1.flows && HasActions(t1.flows[k])
    ensures k in t2.flows && t2.flows[k].list == t2.active && k in t2.modified
    ensures PrepareMsgs(k, DeleteStale(t2.flows[k])) == [] <==> FlowSteady(t1.flows[k], k, reqs)
  {
    hide PrepareMsgs, DeleteStale, Live, Linked, ZeroCookieDrop, Foreign, Firsts, Joined, ConcatActs, GoalAll;
    hide ActSet, Following, Mirrors, HasActions, Effective, FlowOk, Round, Agree, Filter, HalfOk;
    FlowFollows(t1, t2, sw, reqs, k);
    var f1, f2 := t1.flows[k], t2.flows[k];
    var tail := Filter(reqs, Foreign(f1.conj, k));
    EffectiveIff(f1);
    QuietFlow(t1, sw, k);
    EffectiveAfter(f1, f2, tail);
    StaleRemembers(f2);
    FollowingSent(f1, f2, tail);
    SameMsgs(sw, k, f1, DeleteStale(f2));
    if ConjOnly(f1) { ConjEffective(f1); }
  }

  lemma FollowingSent(f: Flow, g: Flow, tail: seq<Request>)
    requires Following(f, g, tail)
    ensures g.installed == f.installed && g.activeCookie == f.activeCookie
  {
  }

  lemma ConjEffective(f: Flow)
    requires ConjOnly(f)
    ensures Effective(f).Some? && Effective(f).value.acts == ConcatActs(f.conj)
  {
  }

  // ---------- One half ----------

  ghost predicate AllSteady(t: Table, reqs: seq<Request>) {
    forall k :: k in t.flows ==> FlowSteady(t.flows[k], k, reqs)
  }

  /** A flow without an action is not asked for again, and a populate deletes what it
      finds on the old list. */
  lemma IdleLeft(t1: Table, t2: Table, reqs: seq<Request>, k: Key)
    requires Round(t1, t2, reqs) && Agree(t1, GoalAll(map[], reqs)) && k in t1.flows && !HasActions(t1.flows[k])
    ensures t2.lists[Old(t2)] != []
  {
    hide GoalAll, Following, Linked, FlowOk, Filter;
    assert Wanted(t1, k) == At(GoalAll(map[], reqs), k);
    IdleLive(t1.flows[k]);
    if Requested(reqs, k) {
      var r :| r in reqs && r.key == k;
      GoalHas(map[], reqs, r);
      assert false;
    }
    assert RoundAt(t1, t2, reqs, k);
    OldHolds(t2, k);
  }

  lemma IdleLive(f: Flow)
    requires !HasActions(f)
    ensures Live(f) == NOTHING
  {
  }

  lemma OldHolds(t: Table, k: Key)
    requires Listed(t) && k in t.flows && t.flows[k].list != t.active
    ensures k in t.lists[Old(t)]
  {
  }

  lemma OldSends(t: Table)
    requires OldListed(t) && t.lists[Old(t)] != []
    ensures PopulateOldMsgs(t) != []
  {
    var k := t.lists[Old(t)][0];
    assert PrepareMsgs(k, ClearActions(t.flows[k])) == [DeleteStrict(k)];
  }

  /** One half is recomputed with any adds that amount to the requests already live. */
  lemma HalfRedone(t1: Table, sw: Switch, reqs: seq<Request>, order: seq<Key>)
    requires HalfOk(t1, sw) && Quiet(t1) && Agree(t1, GoalAll(map[], reqs))
    ensures var t2 := AddAll(SwitchLists(t1), reqs);
            && CoreOk(t2) && OldListed(t2) && TwoLists(PopulateOld(t2))
            && (Enumerates(order, PopulateOld(t2).modified) ==>
                  (PopulateOldMsgs(t2) == [] && HandleAllMsgs(PopulateOld(t2), order) == [] <==> AllSteady(t1, reqs)))
            && (Unidle(t1) ==> PopulateOld(t2) == t2 && t2.modified == t1.flows.Keys)
  {
    hide Following, PrepareMsgs, DeleteStale, Effective, HandleAllMsgs, Linked, FlowOk, FlowSteady, Mirrors;
    hide AddAll, ActSet, GoalAll, PopulateOld, PopulateOldMsgs, HasActions, Round, Agree, Resting, StaleTracked;
    var u := SwitchLists(t1);
    RoundStart(t1);
    SwitchAgree(t1);
    forall r | r in reqs ensures Repeats(t1, r) { RequestRepeats(t1, reqs, r); }
    SecondRound(t1, u, map[], [], reqs);
    assert [] + reqs == reqs;
    var t2 := AddAll(u, reqs);
    RoundCore(t1, t2, reqs);
    FitPopulates(t2);
    if Unidle(t1) {
      AllAsked(t1, t2, sw, reqs);
      EmptyPopulate(t2);
      if Enumerates(order, t2.modified) { HandleAllSilent(t2, order); }
    } else {
      var k :| k in t1.flows && !HasActions(t1.flows[k]);
      IdleLeft(t1, t2, reqs, k);
      OldSends(t2);
      IdleUnsteady(t1, reqs, k);
    }
  }

  ghost predicate Unidle(t: Table) { forall k :: k in t.flows ==> HasActions(t.flows[k]) }

  lemma IdleUnsteady(t: Table, reqs: seq<Request>, k: Key)
    requires k in t.flows && !HasActions(t.flows[k])
    ensures !AllSteady(t, reqs)
  {
  }

  lemma AllAsked(t1: Table, t2: Table, sw: Switch, reqs: seq<Request>)
    requires HalfOk(t1, sw) && Quiet(t1) && Unidle(t1) && Round(t1, t2, reqs)
    requires Agree(t1, GoalAll(map[], reqs)) && Agree(t2, GoalAll(map[], reqs))
    ensures t2.lists[Old(t2)] == [] && t2.modified == t2.flows.Keys == t1.flows.Keys
    ensures forall k :: k in t1.flows ==>
              (PrepareMsgs(k, DeleteStale(t2.flows[k])) == [] <==> FlowSteady(t1.flows[k], k, reqs))
  {
    hide Following, PrepareMsgs, DeleteStale, Linked, FlowOk, FlowSteady, GoalAll, HasActions, Agree, RoundAt, HalfOk;
    forall k | k in t1.flows
      ensures t2.flows[k].list == t2.active && k in t2.modified
      ensures PrepareMsgs(k, DeleteStale(t2.flows[k])) == [] <==> FlowSteady(t1.flows[k], k, reqs)
    {
      FlowSilent(t1, t2, sw, reqs, k);
    }
    EmptyOld(t2);
  }

  lemma EmptyPopulate(t: Table)
    requires OldListed(t) && t.lists[Old(t)] == []
    ensures PopulateOld(t) == t && PopulateOldMsgs(t) == []
  {
  }

  // ---------- Both halves ----------

  function AddOps(h: bool, reqs: seq<Request>): seq<Op> {
    seq(|reqs|, i requires 0 <= i < |reqs| => AddOflow(h, reqs[i].key, reqs[i].acts, reqs[i].cookie, reqs[i].uuid))
  }

  /** A half is recomputed with these requests, or left alone. */
  function RedoOps(h: bool, redo: Option<seq<Request>>): seq<Op> {
    if redo.Some? then [SwitchTables(h)] + AddOps(h, redo.value) else []
  }

  function Recompute(redoL: Option<seq<Request>>, redoP: Option<seq<Request>>): seq<Op> {
    RedoOps(true, redoL) + RedoOps(false, redoP)
  }

  ghost function Redone(t: Table, redo: Option<seq<Request>>): Table
    requires TwoLists(t)
  {
    if redo.Some? then AddAll(SwitchLists(t), redo.value) else t
  }

  lemma {:induction false} AddOpsRun(s: System, h: bool, reqs: seq<Request>)
    requires SysOk(s) && forall r :: r in reqs ==> r.key !in Half(s, !h).flows
    ensures LegalRun(s, AddOps(h, reqs)) && TwoLists(Half(s, h))
    ensures Run(s, AddOps(h, reqs)) == SetHalf(s, h, AddAll(Half(s, h), reqs)) && SysOk(Run(s, AddOps(h, reqs)))
    decreases |reqs|
  {
    hide HalfOk, CoreOk, Add;
    HalfIsTable(s.l, s.sw);
    HalfIsTable(s.p, s.sw);
    if reqs != [] {
      var r := reqs[0];
      assert r in reqs && AddOps(h, reqs)[1..] == AddOps(h, reqs[1..]);
      AddStep(s, h, r.key, r.acts, r.cookie, r.uuid);
      AddShape(Half(s, h), r.key, r.acts, r.cookie, r.uuid);
      AddOpsRun(SetHalf(s, h, Add(Half(s, h), r.key, r.acts, r.cookie, r.uuid)), h, reqs[1..]);
    }
  }

  /** Keys that the half has already are not in the other one. */
  lemma RedoRun(s: System, h: bool, redo: Option<seq<Request>>)
    requires SysOk(s) && Quiet(Half(s, h))
    requires redo.Some? ==> forall r :: r in redo.value ==> r.key in Half(s, h).flows
    ensures LegalRun(s, RedoOps(h, redo)) && TwoLists(Half(s, h))
    ensures Run(s, RedoOps(h, redo)) == SetHalf(s, h, Redone(Half(s, h), redo)) && SysOk(Run(s, RedoOps(h, redo)))
  {
    hide HalfOk, CoreOk, AddOps, Add;
    HalfIsTable(s.l, s.sw);
    HalfIsTable(s.p, s.sw);
    if redo.Some? {
      var op := SwitchTables(h);
      SysStep(s, op);
      AddOpsRun(Step(s, op), h, redo.value);
      assert RedoOps(h, redo)[1..] == AddOps(h, redo.value);
    }
  }

  /** The recompute asks for what is live. */
  ghost predicate Repeating(g: Goal, redo: Option<seq<Request>>) {
    redo.Some? ==> forall k :: At(g, k) == At(GoalAll(map[], redo.value), k)
  }

  ghost predicate Steady(t: Table, redo: Option<seq<Request>>) {
    redo.Some? ==> AllSteady(t, redo.value)
  }

  ghost function Messages(s: System, ol: seq<Key>, op_: seq<Key>): seq<FlowMod>
    requires Fit(s)
  {
    FitPopulates(s.l);
    FitPopulates(s.p);
    PopulateMsgs(s.l, s.p, ol, op_)
  }

  lemma RedoneSilent(t: Table, sw: Switch, g: Goal, redo: Option<seq<Request>>, order: seq<Key>)
    requires HalfOk(t, sw) && Quiet(t) && Agree(t, g) && Repeating(g, redo)
    ensures var t2 := Redone(t, redo);
            && CoreOk(t2) && OldListed(t2) && TwoLists(PopulateOld(t2))
            && (Enumerates(order, PopulateOld(t2).modified) ==>
                  (PopulateOldMsgs(t2) == [] && HandleAllMsgs(PopulateOld(t2), order) == [] <==> Steady(t, redo)))
    ensures redo.Some? ==> forall r :: r in redo.value ==> r.key in t.flows
  {
    hide AddAll, HandleAllMsgs, Linked, FlowOk, AllSteady, StaleTracked, HasActions, Mirrors, Resting, GoalAll;
    if redo.Some? {
      AgreeSame(t, g, GoalAll(map[], redo.value));
      HalfRedone(t, sw, redo.value, order);
      forall r | r in redo.value ensures r.key in t.flows { RequestRepeats(t, redo.value, r); }
    } else {
      QuietLists(t);
      EmptyPopulate(t);
      if Enumerates(order, t.modified) { QuietSilent(t, order); }
    }
  }

  lemma QuietSilent(t: Table, order: seq<Key>)
    requires CoreOk(t) && Quiet(t) && OldListed(t) && Enumerates(order, t.modified)
    ensures PopulateOldMsgs(t) == [] && HandleAllMsgs(t, order) == []
  {
    SomeMember(order);
  }

  lemma QuietLists(t: Table)
    requires CoreOk(t) && Quiet(t)
    ensures OldListed(t) && t.lists[Old(t)] == []
  {
  }

  lemma AgreeSame(t: Table, g: Goal, g': Goal)
    requires Agree(t, g) && forall k :: At(g, k) == At(g', k)
    ensures Agree(t, g')
  {
    forall k ensures Wanted(t, k) == At(g', k) { assert Wanted(t, k) == At(g, k); }
  }

  lemma {:induction false} RunAppend(s: System, a: seq<Op>, b: seq<Op>)
    requires LegalRun(s, a) && LegalRun(Run(s, a), b)
    ensures LegalRun(s, a + b) && Run(s, a + b) == Run(Run(s, a), b)
    decreases |a|
  {
    hide Legal, Step, CoreOk;
    if a == [] {
      assert a + b == b;
    } else {
      RunAppend(Step(s, a[0]), a[1..], b);
      assert (a + b)[1..] == a[1..] + b;
    }
  }

  lemma RecomputeRun(s: System, redoL: Option<seq<Request>>, redoP: Option<seq<Request>>)
    requires SysOk(s) && Quiet(s.l) && Quiet(s.p)
    requires redoL.Some? ==> forall r :: r in redoL.value ==> r.key in s.l.flows
    requires redoP.Some? ==> forall r :: r in redoP.value ==> r.key in s.p.flows
    ensures TwoLists(s.l) && TwoLists(s.p) && LegalRun(s, Recompute(redoL, redoP))
    ensures var s2 := Run(s, Recompute(redoL, redoP));
            && s2 == System(Redone(s.l, redoL), Redone(s.p, redoP), s.sw)
            && SysOk(s2) && Fit(s2)
  {
    hide Quiet, Redone, CoreOk, HalfOk, RedoOps;
    RedoRun(s, true, redoL);
    var s1 := Run(s, RedoOps(true, redoL));
    RedoRun(s1, false, redoP);
    RunAppend(s, RedoOps(true, redoL), RedoOps(false, redoP));
    var s2 := Run(s, Recompute(redoL, redoP));
    HalfIsTable(s2.l, s2.sw);
    HalfIsTable(s2.p, s2.sw);
  }

  /** MAIN RESULT.  From any state a populate left, a recompute of either half or of
      both, whose adds amount to the requests already live -- in whatever order and
      number -- is legal and leaves the next populate no flow mod at all to send, iff
      every flow of a recomputed half is steady: it has an action, is no drop that was
      installed with cookie zero, and its conjunctions, each once and then those the
      recompute asks for on behalf of others, come out as they are. */
  lemma RecomputeSilent(s: System, gl: Goal, gp: Goal, redoL: Option<seq<Request>>, redoP: Option<seq<Request>>,
                        ol: seq<Key>, op_: seq<Key>)
    requires SysOk(s) && Tracks(s, gl, gp) && Quiet(s.l) && Quiet(s.p)
    requires Repeating(gl, redoL) && Repeating(gp, redoP)
    ensures LegalRun(s, Recompute(redoL, redoP))
    ensures var s2 := Run(s, Recompute(redoL, redoP));
            && SysOk(s2) && Fit(s2)
            && (Legal(s2, Populate(ol, op_)) ==>
                  (Messages(s2, ol, op_) == [] <==> Steady(s.l, redoL) && Steady(s.p, redoP)))
  {
    hide Quiet, Steady, Redone, HandleAllMsgs, CoreOk, HalfOk, Repeating, Agree, PopulateOld, PopulateOldMsgs, RedoOps;
    HalfIsTable(s.l, s.sw);
    HalfIsTable(s.p, s.sw);
    RedoneSilent(s.l, s.sw, gl, redoL, ol);
    RedoneSilent(s.p, s.sw, gp, redoP, op_);
    RecomputeRun(s, redoL, redoP);
  }

  /** MAIN RESULT.  The same over every legal run from the start that ends in a
      populate. */
  lemma QuiescentRun(ops: seq<Op>, redoL: Option<seq<Request>>, redoP: Option<seq<Request>>, ol: seq<Key>,
                     op_: seq<Key>)
    requires LegalRun(INITIAL, ops) && ops != [] && ops[|ops| - 1].Populate?
    requires Repeating(GoalRun(map[], true, ops), redoL) && Repeating(GoalRun(map[], false, ops), redoP)
    ensures LegalRun(INITIAL, ops + Recompute(redoL, redoP))
    ensures var s, s2 := Run(INITIAL, ops), Run(INITIAL, ops + Recompute(redoL, redoP));
            && SysOk(s2) && Fit(s2)
            && (Legal(s2, Populate(ol, op_)) ==>
                  (Messages(s2, ol, op_) == [] <==> Steady(s.l, redoL) && Steady(s.p, redoP)))
  {
    hide Quiet, Steady, CoreOk, HalfOk, Repeating, Agree, Legal, Recompute, Messages;
    InitialOk();
    RunOk(INITIAL, map[], map[], ops);
    RecomputeSilent(Run(INITIAL, ops), GoalRun(map[], true, ops), GoalRun(map[], false, ops), redoL, redoP, ol, op_);
    RunAppend(INITIAL, ops, Recompute(redoL, redoP));
  }
}
