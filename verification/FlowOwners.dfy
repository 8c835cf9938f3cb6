/** Recomputes that send nothing, and recomputes that do.

    If each conjunction under a key has one owner, a recompute that asks for the same
    again is silent unless a drop was installed with cookie zero.  Three short runs
    break each of the conditions in turn. */
module FlowOwners {
  import opened Common
  import opened OpenFlow
  import opened Seqs
  import opened FlowTable
  import opened FlowIndex
  import opened FlowRefinement
  import opened FlowQuiescence

  // ---------- One owner for each conjunction ----------

  /** Each conjunction under a key is only ever asked for by one owner. */
  type Owner = (Key, Ofpacts) -> Uuid

  ghost predicate OwnedConj(f: Flow, k: Key, owner: Owner) {
    DistinctActs(f.conj) && forall a :: a in f.conj ==> a.uuid == owner(k, a.acts)
  }

  /** No flow without an action, unless it is due for a visit or being dropped. */
  ghost predicate Busy(t: Table, k: Key)
    requires k in t.flows
  {
    HasActions(t.flows[k]) || k in t.modified || t.flows[k].list != t.active
  }

  ghost predicate Tidy(t: Table, owner: Owner) {
    forall k :: k in t.flows ==> OwnedConj(t.flows[k], k, owner) && Busy(t, k)
  }

  /** A request keeps to the owners. */
  ghost predicate Keeps(op: Op, owner: Owner) {
    op.AddOflow? && IsConj(op.acts) ==> op.uuid == owner(op.key, op.acts)
  }

  lemma RestaleOwned(f: Flow, p: Action -> bool, k: Key, owner: Owner)
    requires OwnedConj(f, k, owner)
    ensures OwnedConj(Restale(f, p), k, owner)
  {
    var r := RestaleSeq(f.conj, p);
    forall a | a in r ensures a.uuid == owner(k, a.acts) {
      var i :| 0 <= i < |r| && r[i] == a;
      assert f.conj[i] in f.conj;
    }
  }

  lemma {:induction false} FilterDistinct(s: seq<Action>, p: Action -> bool)
    requires DistinctActs(s)
    ensures DistinctActs(Filter(s, p))
  {
    if s != [] {
      FilterDistinct(s[1..], p);
      var r := Filter(s[1..], p);
      forall i | 0 <= i < |r| ensures r[i].acts != s[0].acts {
        assert r[i] in r && r[i] in s[1..];
      }
    }
  }

  lemma KeepOwned(f: Flow, p: Action -> bool, k: Key, owner: Owner)
    requires OwnedConj(f, k, owner)
    ensures OwnedConj(Keep(f, p), k, owner)
  {
    FilterDistinct(f.conj, p);
  }

  lemma UpdateOwned(f: Flow, a: Action, k: Key, owner: Owner)
    requires OwnedConj(f, k, owner) && (IsConj(a.acts) ==> a.uuid == owner(k, a.acts))
    requires MatchingAction(f, a.acts).Some? ==> MatchingAction(f, a.acts).value.uuid != a.uuid
    ensures OwnedConj(UpdateActions(f, a), k, owner) && HasActions(UpdateActions(f, a))
  {
    ClassesExclusive(a.acts);
    if IsConj(a.acts) {
      assert FindActs(f.conj, a.acts).None?;
      assert forall i :: 0 <= i < |f.conj| ==> f.conj[i] in f.conj;
    }
  }

  lemma AddTidy(t: Table, owner: Owner, k: Key, acts: Ofpacts, cookie: nat, uuid: Uuid)
    requires CoreOk(t) && Tidy(t, owner) && (IsConj(acts) ==> uuid == owner(k, acts))
    ensures Tidy(Add(t, k, acts, cookie, uuid), owner)
  {
    var f := Touched(t, k);
    AddShape(t, k, acts, cookie, uuid);
    var t' := Add(t, k, acts, cookie, uuid);
    assert OwnedConj(f, k, owner) by {
      if Moves(t, k) {
        assert OwnedConj(t.flows[k].(list := t.active), k, owner);
        RestaleOwned(t.flows[k].(list := t.active), (a: Action) => true, k, owner);
      }
    }
    assert OwnedConj(t'.flows[k], k, owner) && HasActions(t'.flows[k]) by {
      hide OwnedConj, CoreOk, Tidy;
      if Known(t, k, acts, uuid) {
        var id := MatchingAction(f, acts).value.id;
        RestaleOwned(f, (a: Action) => a.stale && a.id != id, k, owner);
      } else {
        UpdateOwned(f, Action(t.nextId, acts, cookie, uuid, false), k, owner);
      }
    }
    hide OwnedConj, Add, CoreOk, HasActions;
    forall j | j in t'.flows ensures OwnedConj(t'.flows[j], j, owner) && Busy(t', j) {
      if j != k { assert j in t.flows && Busy(t, j); }
    }
  }

  lemma RemoveTidy(t: Table, owner: Owner, uuid: Uuid)
    requires CoreOk(t) && Tidy(t, owner)
    ensures Tidy(Remove(t, uuid), owner)
  {
    hide OwnedConj, Remove, HasActions, Keep, ActSet;
    RemoveExact(t, uuid);
    var t' := Remove(t, uuid);
    forall k | k in t'.flows ensures OwnedConj(t'.flows[k], k, owner) && Busy(t', k) {
      assert Busy(t, k);
      KeepOwned(t.flows[k], NotOf(uuid), k, owner);
      KeepRemembers(t.flows[k], NotOf(uuid));
      if k !in t'.modified { KeepAll(t.flows[k], NotOf(uuid)); }
    }
  }

  lemma SwitchTidy(t: Table, owner: Owner)
    requires CoreOk(t) && Tidy(t, owner) && t.lists[Old(t)] == []
    ensures Tidy(SwitchLists(t), owner)
  {
    forall k | k in t.flows ensures OwnedConj(t.flows[k], k, owner) && t.flows[k].list == t.active {
      assert k !in t.lists[Old(t)];
    }
    hide OwnedConj;
  }

  lemma PopulateTidy(t: Table, owner: Owner, order: seq<Key>)
    requires TableOk(t) && Tidy(t, owner) && OldListed(t) && TwoLists(PopulateOld(t))
    requires Enumerates(order, PopulateOld(t).modified)
    ensures Tidy(PopulateModified(PopulateOld(t), order), owner) && Unidle(PopulateModified(PopulateOld(t), order))
  {
    hide OwnedConj, HasActions, PopulateOld, HandleAll, Linked, FlowOk, Visited;
    PopulateOldEffect(t);
    HandleAllEffect(PopulateOld(t), order);
    var t' := PopulateModified(PopulateOld(t), order);
    forall k | k in t'.flows ensures OwnedConj(t'.flows[k], k, owner) && HasActions(t'.flows[k]) {
      assert k in t.flows && Busy(t, k) && k !in t.lists[Old(t)];
      VisitedOwned(t.flows[k], k, owner);
    }
  }

  lemma VisitedOwned(f: Flow, k: Key, owner: Owner)
    requires OwnedConj(f, k, owner)
    ensures OwnedConj(Visited(f), k, owner)
  {
    KeepOwned(f, (a: Action) => !a.stale, k, owner);
    var g := DeleteStale(f);
    assert Visited(f).conj == g.conj;
  }

  /** A legal step that also keeps to the owners, and switches lists only when a
      populate has emptied the old one. */
  ghost predicate Orderly(s: System, op: Op, owner: Owner)
    requires Fit(s)
  {
    && Legal(s, op) && Keeps(op, owner)
    && (op.SwitchTables? ==> Half(s, op.logical).lists[Old(Half(s, op.logical))] == [])
  }

  ghost predicate OrderlyRun(s: System, ops: seq<Op>, owner: Owner)
    decreases |ops|
  {
    ops == [] || (Fit(s) && Orderly(s, ops[0], owner) && OrderlyRun(Step(s, ops[0]), ops[1..], owner))
  }

  lemma TidyStep(s: System, op: Op, owner: Owner)
    requires SysOk(s) && Tidy(s.l, owner) && Tidy(s.p, owner) && Orderly(s, op, owner)
    ensures Tidy(Step(s, op).l, owner) && Tidy(Step(s, op).p, owner)
    ensures op.Populate? ==> Unidle(Step(s, op).l) && Unidle(Step(s, op).p)
  {
    hide Tidy, Linked, Listed, FlowOk, Mirrors, Resting, StaleTracked, PopulateMsgs, Unidle;
    match op
    case SwitchTables(h) => SwitchTidy(Half(s, h), owner);
    case AddOflow(h, k, acts, cookie, uuid) => AddTidy(Half(s, h), owner, k, acts, cookie, uuid);
    case RemoveOflows(h, uuid) => RemoveTidy(Half(s, h), owner, uuid);
    case Populate(ol, op_) =>
      FitPopulates(s.l);
      FitPopulates(s.p);
      PopulateTidy(s.l, owner, ol);
      PopulateTidy(s.p, owner, op_);
  }

  lemma {:induction false} TidyRun(s: System, gl: Goal, gp: Goal, ops: seq<Op>, owner: Owner)
    requires SysOk(s) && Tracks(s, gl, gp) && Tidy(s.l, owner) && Tidy(s.p, owner) && OrderlyRun(s, ops, owner)
    ensures LegalRun(s, ops) && Tidy(Run(s, ops).l, owner) && Tidy(Run(s, ops).p, owner)
    ensures ops != [] && ops[|ops| - 1].Populate? ==> Unidle(Run(s, ops).l) && Unidle(Run(s, ops).p)
    decreases |ops|
  {
    hide SysOk, Tracks, Legal, Step, Tidy, Keeps, Unidle;
    if ops != [] {
      StepOk(s, gl, gp, ops[0]);
      TidyStep(s, ops[0], owner);
      TidyRun(Step(s, ops[0]), GoalStep(gl, true, ops[0]), GoalStep(gp, false, ops[0]), ops[1..], owner);
      assert |ops| > 1 ==> ops[1..][|ops| - 2] == ops[|ops| - 1];
    }
  }

  lemma TidyDistinct(t: Table, owner: Owner)
    requires Tidy(t, owner)
    ensures forall k :: k in t.flows ==> DistinctActs(t.flows[k].conj)
  {
  }

  ghost predicate NoZeroDrop(t: Table, redo: Option<seq<Request>>) {
    redo.Some? ==> forall k :: k in t.flows ==> !ZeroCookieDrop(t.flows[k])
  }

  lemma {:induction false} DistinctFirsts(s: seq<Action>)
    requires DistinctActs(s)
    ensures Firsts(s) == s
  {
    if s != [] {
      var n := |s| - 1;
      DistinctFirsts(s[..n]);
      assert s == s[..n] + [s[n]];
      FirstNone(s, n);
    }
  }

  lemma OwnNotForeign(s: seq<Action>, k: Key, r: Request)
    requires DistinctActs(s) && (r.uuid, r.acts) in LiveOf(s)
    ensures !Foreign(s, k)(r)
  {
    var a :| a in s && !a.stale && (a.uuid, a.acts) == (r.uuid, r.acts);
    var i :| 0 <= i < |s| && s[i] == a;
    var j := FindFirst(s, r.acts);
    assert i == j;
  }

  lemma DistinctSteady(t: Table, reqs: seq<Request>, k: Key)
    requires CoreOk(t) && Agree(t, GoalAll(map[], reqs)) && k in t.flows && DistinctActs(t.flows[k].conj)
    ensures ConjAgain(t.flows[k].conj, k, reqs) == ConcatActs(t.flows[k].conj)
  {
    hide GoalAll, Agree, Foreign, ConcatActs, Linked, FlowOk, LiveOf;
    var s := t.flows[k].conj;
    DistinctFirsts(s);
    forall r | r in reqs ensures !Foreign(s, k)(r) {
      RequestRepeats(t, reqs, r);
      if r.key == k && IsConj(r.acts) {
        OwnNotForeign(s, k, r);
      } else {
        ElseNotForeign(s, k, r);
      }
    }
    FilterNone(reqs, Foreign(s, k));
    assert ConcatActs(s) + [] == ConcatActs(s);
  }

  lemma ElseNotForeign(s: seq<Action>, k: Key, r: Request)
    requires r.key != k || !IsConj(r.acts)
    ensures !Foreign(s, k)(r)
  {
  }

  lemma OwnedSteady(t: Table, g: Goal, redo: Option<seq<Request>>, owner: Owner)
    requires CoreOk(t) && Agree(t, g) && Repeating(g, redo) && Tidy(t, owner) && Unidle(t)
    ensures Steady(t, redo) <==> NoZeroDrop(t, redo)
  {
    hide CoreOk, Agree, HasActions, ZeroCookieDrop, ConjAgain, GoalAll, Tidy, ConcatActs, DistinctActs;
    TidyDistinct(t, owner);
    if redo.Some? {
      AgreeSame(t, g, GoalAll(map[], redo.value));
      forall k | k in t.flows ensures FlowSteady(t.flows[k], k, redo.value) <==> !ZeroCookieDrop(t.flows[k]) {
        DistinctSteady(t, redo.value, k);
      }
    }
  }

  /** In every run in which each conjunction has one owner and a switch comes only
      after a populate, asking again for what is live sends nothing iff no drop of a
      recomputed half was installed with cookie zero. */
  lemma OwnedQuiescent(ops: seq<Op>, owner: Owner, redoL: Option<seq<Request>>, redoP: Option<seq<Request>>,
                       ol: seq<Key>, op_: seq<Key>)
    requires OrderlyRun(INITIAL, ops, owner) && ops != [] && ops[|ops| - 1].Populate?
    requires Repeating(GoalRun(map[], true, ops), redoL) && Repeating(GoalRun(map[], false, ops), redoP)
    ensures LegalRun(INITIAL, ops) && LegalRun(INITIAL, ops + Recompute(redoL, redoP))
    ensures var s, s2 := Run(INITIAL, ops), Run(INITIAL, ops + Recompute(redoL, redoP));
            && Fit(s2)
            && (Legal(s2, Populate(ol, op_)) ==>
                  (Messages(s2, ol, op_) == [] <==> NoZeroDrop(s.l, redoL) && NoZeroDrop(s.p, redoP)))
  {
    hide Tidy, Quiet, Legal, NoZeroDrop, Steady, Recompute, Messages, Repeating, Agree;
    hide HalfOk, Run, OrderlyRun, CoreOk, Unidle;
    InitialOk();
    var gl, gp := GoalRun(map[], true, ops), GoalRun(map[], false, ops);
    EmptyTidy(owner);
    TidyRun(INITIAL, map[], map[], ops, owner);
    RunOk(INITIAL, map[], map[], ops);
    var s := Run(INITIAL, ops);
    HalfIsTable(s.l, s.sw);
    HalfIsTable(s.p, s.sw);
    OwnedSteady(s.l, gl, redoL, owner);
    OwnedSteady(s.p, gp, redoP, owner);
    QuiescentRun(ops, redoL, redoP, ol, op_);
  }

  lemma EmptyTidy(owner: Owner)
    ensures Tidy(EMPTY_TABLE, owner)
  {
  }

  // ---------- A flow asked for by several ----------

  /** All requests are for one key; a populate puts the flow on the switch. */
  function FlowOps(k: Key, reqs: seq<Request>): seq<Op> { AddOps(true, reqs) + [Populate([k], [])] }

  ghost predicate OneKey(k: Key, reqs: seq<Request>) { reqs != [] && forall r :: r in reqs ==> r.key == k }

  /** A half with one flow, on the active list and due. */
  ghost predicate Lone(t: Table, k: Key) {
    t.flows.Keys == {k} && t.flows[k].list == 0 && t.lists == [[k], []] && t.active == 0 && t.modified == {k}
  }

  lemma LoneFirst(k: Key, acts: Ofpacts, cookie: nat, uuid: Uuid)
    ensures Lone(Add(EMPTY_TABLE, k, acts, cookie, uuid), k)
    ensures Add(EMPTY_TABLE, k, acts, cookie, uuid).flows[k] == OneFlow(acts, cookie, uuid)
  {
    FirstAdded(k, acts, cookie, uuid);
  }

  lemma LoneAdd(t: Table, k: Key, acts: Ofpacts, cookie: nat, uuid: Uuid)
    requires Lone(t, k)
    ensures Lone(Add(t, k, acts, cookie, uuid), k)
  {
    AddShape(t, k, acts, cookie, uuid);
    assert RemoveKey([k], k) == [] by { FilterNone([k], x => x != k); }
    var ls := t.lists[0 := []];
    assert ls[0] + [k] == [k] && ls[0 := [k]] == t.lists;
  }

  lemma {:induction false} LoneAll(t: Table, k: Key, reqs: seq<Request>)
    requires Lone(t, k) && forall r :: r in reqs ==> r.key == k
    ensures TwoLists(t) && Lone(AddAll(t, reqs), k)
    decreases |reqs|
  {
    hide Add;
    if reqs != [] {
      assert reqs[0] in reqs;
      LoneAdd(t, k, reqs[0].acts, reqs[0].cookie, reqs[0].uuid);
      LoneAll(Add(t, k, reqs[0].acts, reqs[0].cookie, reqs[0].uuid), k, reqs[1..]);
    }
  }

  lemma {:induction false} GoalOps(g: Goal, k: Key, reqs: seq<Request>)
    ensures GoalRun(g, true, FlowOps(k, reqs)) == GoalAll(g, reqs)
    decreases |reqs|
  {
    var ops, pop := FlowOps(k, reqs), Populate([k], []);
    if reqs == [] {
      assert ops == [pop] && ops[1..] == [];
    } else {
      assert ops[0] == AddOps(true, reqs)[0] && ops[1..] == FlowOps(k, reqs[1..]);
      GoalOps(GoalAdd(g, reqs[0].key, reqs[0].acts, reqs[0].uuid), k, reqs[1..]);
    }
  }

  /** The flow before the populate. */
  ghost function Flow0(k: Key, reqs: seq<Request>): Flow
    requires OneKey(k, reqs)
  {
    LoneStart(k, reqs);
    AddAll(EMPTY_TABLE, reqs).flows[k]
  }

  lemma LoneStart(k: Key, reqs: seq<Request>)
    requires OneKey(k, reqs)
    ensures Lone(AddAll(EMPTY_TABLE, reqs), k)
  {
    hide Add;
    var r := reqs[0];
    assert r in reqs;
    LoneFirst(k, r.acts, r.cookie, r.uuid);
    LoneAll(Add(EMPTY_TABLE, k, r.acts, r.cookie, r.uuid), k, reqs[1..]);
  }

  lemma FlowRun(k: Key, reqs: seq<Request>)
    requires OneKey(k, reqs) && HasActions(Visited(Flow0(k, reqs)))
    ensures var ops := FlowOps(k, reqs);
            && LegalRun(INITIAL, ops)
            && var s := Run(INITIAL, ops);
            && s.l.flows == map[k := Visited(Flow0(k, reqs))] && s.p == EMPTY_TABLE
            && Repeating(GoalRun(map[], true, ops), Some(reqs))
  {
    hide AddAll, Visited, HasActions, SysOk, Lone, Legal, Step, LegalRun, Run, GoalRun, GoalAll;
    InitialOk();
    AddOpsRun(INITIAL, true, reqs);
    LoneStart(k, reqs);
    var s1 := Run(INITIAL, AddOps(true, reqs));
    LonePopulate(s1, k);
    OneStep(s1, Populate([k], []));
    RunAppend(INITIAL, AddOps(true, reqs), [Populate([k], [])]);
    GoalOps(map[], k, reqs);
  }

  lemma LonePopulate(s: System, k: Key)
    requires SysOk(s) && Lone(s.l, k) && s.p == EMPTY_TABLE && HasActions(Visited(s.l.flows[k]))
    ensures Fit(s) && Legal(s, Populate([k], []))
    ensures var s' := Step(s, Populate([k], [])); s'.l.flows == map[k := Visited(s.l.flows[k])] && s'.p == EMPTY_TABLE
  {
    hide Visited, HasActions, HalfOk, CoreOk, PopulateMsgs, PopulateModified;
    HalfIsTable(s.l, s.sw);
    HalfIsTable(s.p, s.sw);
    EmptyPopulate(s.l);
    EmptyPopulate(EMPTY_TABLE);
    assert s.l.flows == map[k := s.l.flows[k]];
    FirstVisited(s.l, k, s.l.flows[k]);
  }

  lemma OneStep(s: System, op: Op)
    requires Fit(s) && Legal(s, op)
    ensures LegalRun(s, [op]) && Run(s, [op]) == Step(s, op)
  {
    hide Legal, Step, CoreOk;
    assert [op][1..] == [];
    assert LegalRun(Step(s, op), []) && Run(Step(s, op), []) == Step(s, op);
  }

  /** The recompute that asks for the flow again, in the same way, is silent iff the
      flow is steady. */
  lemma FlowAgain(k: Key, reqs: seq<Request>)
    requires OneKey(k, reqs) && HasActions(Visited(Flow0(k, reqs)))
    ensures var ops := FlowOps(k, reqs) + Recompute(Some(reqs), None);
            && LegalRun(INITIAL, ops)
            && var s := Run(INITIAL, ops);
            && Fit(s) && Legal(s, Populate([k], []))
            && (Messages(s, [k], []) == [] <==> FlowSteady(Visited(Flow0(k, reqs)), k, reqs))
  {
    hide AddAll, Visited, HasActions, HalfOk, CoreOk, Messages, Quiet, FlowSteady, Agree, GoalAll, PopulateOld;
    hide LegalRun, Run, GoalRun, Legal, Recompute, FlowOps, Flow0;
    var ops := FlowOps(k, reqs);
    assert ops != [] && ops[|ops| - 1].Populate? by { EndsInPopulate(k, reqs); }
    FlowRun(k, reqs);
    InitialOk();
    RunOk(INITIAL, map[], map[], ops);
    var s := Run(INITIAL, ops);
    QuiescentRun(ops, Some(reqs), None, [k], []);
    AgreeSame(s.l, GoalRun(map[], true, ops), GoalAll(map[], reqs));
    HalfRedone(s.l, s.sw, reqs, [k]);
    RecomputeRun(s, Some(reqs), None);
    RunAppend(INITIAL, ops, Recompute(Some(reqs), None));
    assert s.l.flows.Keys == {k};
    DueAgain(Run(INITIAL, ops + Recompute(Some(reqs), None)), k);
  }

  lemma EndsInPopulate(k: Key, reqs: seq<Request>)
    ensures var ops := FlowOps(k, reqs); ops != [] && ops[|ops| - 1].Populate?
  {
  }

  lemma DueAgain(s: System, k: Key)
    requires Fit(s) && OldListed(s.l) && PopulateOld(s.l) == s.l && s.l.modified == {k} && s.p == EMPTY_TABLE
    ensures Legal(s, Populate([k], []))
  {
    hide CoreOk;
    EmptyPopulate(EMPTY_TABLE);
  }

  lemma AddAllOne(t: Table, r: Request)
    requires TwoLists(t)
    ensures AddAll(t, [r]) == Add(t, r.key, r.acts, r.cookie, r.uuid)
  {
    assert [r][1..] == [];
    AddShape(t, r.key, r.acts, r.cookie, r.uuid);
    var t1 := Add(t, r.key, r.acts, r.cookie, r.uuid);
    assert AddAll(t1, []) == t1;
  }

  // ---------- A drop with cookie zero ----------

  /** A drop asked for with cookie zero and put on the switch is sent again by the
      recompute that repeats it. */
  lemma ZeroDropResent(k: Key, uuid: Uuid)
    ensures var reqs := [Request(k, [], 0, uuid)];
            var ops := FlowOps(k, reqs) + Recompute(Some(reqs), None);
            && LegalRun(INITIAL, ops)
            && var s := Run(INITIAL, ops);
            Fit(s) && Legal(s, Populate([k], [])) && Messages(s, [k], []) != []
  {
    hide Visited, LegalRun, Run, Legal, Messages;
    var r := Request(k, [], 0, uuid);
    LoneFirst(k, [], 0, uuid);
    AddAllOne(EMPTY_TABLE, r);
    assert Flow0(k, [r]) == OneFlow([], 0, uuid);
    OneFlowVisited([], 0, uuid);
    FlowAgain(k, [r]);
  }

  // ---------- A conjunction asked for by two ----------

  lemma {:induction false} AddAllSnoc(t: Table, reqs: seq<Request>, r: Request)
    requires TwoLists(t)
    ensures TwoLists(AddAll(t, reqs))
    ensures AddAll(t, reqs + [r]) == Add(AddAll(t, reqs), r.key, r.acts, r.cookie, r.uuid)
    decreases |reqs|
  {
    hide Add;
    if reqs == [] {
      assert reqs + [r] == [r];
      AddAllOne(t, r);
    } else {
      var q := reqs[0];
      AddShape(t, q.key, q.acts, q.cookie, q.uuid);
      assert TwoLists(Add(t, q.key, q.acts, q.cookie, q.uuid));
      AddAllSnoc(Add(t, q.key, q.acts, q.cookie, q.uuid), reqs[1..], r);
      assert (reqs + [r])[1..] == reqs[1..] + [r];
    }
  }

  /** A conjunction that nobody, or somebody else, asked for first is appended. */
  lemma ConjSnoc(k: Key, reqs: seq<Request>, r: Request)
    requires OneKey(k, reqs) && r.key == k && IsConj(r.acts)
    requires var m := FindActs(Flow0(k, reqs).conj, r.acts); m.None? || m.value.uuid != r.uuid
    ensures OneKey(k, reqs + [r])
    ensures var f, id := Flow0(k, reqs), AddAll(EMPTY_TABLE, reqs).nextId;
            Flow0(k, reqs + [r]) == f.(conj := f.conj + [Action(id, r.acts, r.cookie, r.uuid, false)])
  {
    hide AddAll;
    LoneStart(k, reqs);
    AddAllSnoc(EMPTY_TABLE, reqs, r);
    ClassesExclusive(r.acts);
    var t := AddAll(EMPTY_TABLE, reqs);
    assert Touched(t, k) == t.flows[k];
    assert !Known(t, k, r.acts, r.uuid);
  }

  /** The flow of requests for conjunctions. */
  ghost predicate Holding(f: Flow, conj: seq<Action>) {
    && f.normal.None? && f.allow == [] && f.drop == []
    && f.conj == conj && conj != [] && forall a :: a in conj ==> !a.stale
  }

  lemma HoldingVisited(f: Flow, conj: seq<Action>)
    requires Holding(f, conj) && ConcatActs(conj) != []
    ensures var v := Visited(f); ConjOnly(v) && HasActions(v) && v.conj == conj && !ZeroCookieDrop(v)
  {
    FilterAll(f.conj, (a: Action) => !a.stale);
    assert DeleteStale(f).conj == conj;
  }

  lemma FirstConj(k: Key, r: Request)
    requires r.key == k && IsConj(r.acts)
    ensures OneKey(k, [r]) && Holding(Flow0(k, [r]), [Action(0, r.acts, r.cookie, r.uuid, false)])
  {
    hide Add;
    LoneFirst(k, r.acts, r.cookie, r.uuid);
    AddAllOne(EMPTY_TABLE, r);
    ClassesExclusive(r.acts);
    assert [] + [Action(0, r.acts, r.cookie, r.uuid, false)] == [Action(0, r.acts, r.cookie, r.uuid, false)];
  }

  lemma TwoConj(k: Key, r1: Request, r2: Request)
    requires r1.key == r2.key == k && IsConj(r1.acts) && r1.acts == r2.acts && r1.uuid != r2.uuid
    ensures OneKey(k, [r1, r2])
    ensures var f := Flow0(k, [r1, r2]);
            && |f.conj| == 2 && Holding(f, f.conj)
            && f.conj[0].acts == f.conj[1].acts == r1.acts && f.conj[0].uuid == r1.uuid
  {
    hide Flow0, IsConj;
    FirstConj(k, r1);
    ConjSnoc(k, [r1], r2);
    assert [r1] + [r2] == [r1, r2];
  }

  /** Two owners of one conjunction, and nothing else under the key: silent. */
  lemma SharedSilent(k: Key, c: Ofpacts, u1: Uuid, u2: Uuid)
    requires IsConj(c) && u1 != u2
    ensures var reqs := [Request(k, c, 1, u1), Request(k, c, 1, u2)];
            var ops := FlowOps(k, reqs) + Recompute(Some(reqs), None);
            && LegalRun(INITIAL, ops)
            && var s := Run(INITIAL, ops);
            Fit(s) && Legal(s, Populate([k], [])) && Messages(s, [k], []) == []
  {
    hide Visited, LegalRun, Run, Legal, Messages, Recompute, FlowOps, Flow0;
    var r1, r2 := Request(k, c, 1, u1), Request(k, c, 1, u2);
    TwoConj(k, r1, r2);
    var a := Flow0(k, [r1, r2]).conj;
    HoldingVisited(Flow0(k, [r1, r2]), a);
    SharedAgain(a, k, c, u1, u2);
    FlowAgain(k, [r1, r2]);
  }

  lemma {:induction false} SharedAgain(a: seq<Action>, k: Key, c: Ofpacts, u1: Uuid, u2: Uuid)
    requires IsConj(c) && u1 != u2 && |a| == 2 && a[0].acts == a[1].acts == c && a[0].uuid == u1
    ensures ConjAgain(a, k, [Request(k, c, 1, u1), Request(k, c, 1, u2)]) == ConcatActs(a) && ConcatActs(a) == c + c
  {
    hide Firsts, Foreign, Joined, ConcatActs, Filter, FindActs;
    var r1, r2 := Request(k, c, 1, u1), Request(k, c, 1, u2);
    assert a == [a[0], a[1]];
    TwoFirsts(a);
    SharedForeign(a, k, c, r1, r2);
    ForeignTwo(a, k, r1, r2);
    ConcatThree(a[0], a[1], a[1]);
    JoinedOne(r2);
  }

  lemma TwoFirsts(a: seq<Action>)
    requires |a| == 2 && a[0].acts == a[1].acts
    ensures Firsts(a) == [a[0]]
  {
    assert a == [] + [a[0]] + [a[1]];
    FirstsSnoc([], a[0]);
    FirstsSnoc([a[0]], a[1]);
  }

  lemma SharedForeign(a: seq<Action>, k: Key, c: Ofpacts, r1: Request, r2: Request)
    requires |a| > 0 && a[0].acts == r1.acts == r2.acts == c && IsConj(c) && a[0].uuid == r1.uuid != r2.uuid
    requires r1.key == r2.key == k
    ensures !Foreign(a, k)(r1) && Foreign(a, k)(r2)
  {
    assert FindActs(a, c) == Some(a[0]);
  }

  lemma ForeignTwo(a: seq<Action>, k: Key, r1: Request, r2: Request)
    requires !Foreign(a, k)(r1) && Foreign(a, k)(r2)
    ensures Filter([r1, r2], Foreign(a, k)) == [r2]
  {
    hide Foreign;
    assert [r1, r2][1..] == [r2] && [r2][1..] == [];
  }

  lemma JoinedOne(r: Request)
    ensures Joined([r]) == r.acts
  {
    assert [r][1..] == [] && r.acts + [] == r.acts;
  }

  lemma ConcatThree(x: Action, y: Action, z: Action)
    ensures ConcatActs([x]) == x.acts && ConcatActs([x, y]) == x.acts + y.acts
    ensures ConcatActs([x, y, z]) == x.acts + y.acts + z.acts
  {
    assert [x][1..] == [] && [y][1..] == [] && [z][1..] == [] && [x, y][1..] == [y] && [y, z][1..] == [z];
    assert [x, y, z][1..] == [y, z];
    assert ConcatActs([z]) == z.acts + [] == z.acts && ConcatActs([y]) == y.acts + [] == y.acts;
    assert ConcatActs([x]) == x.acts + [] == x.acts;
    assert ConcatActs([y, z]) == y.acts + z.acts;
    assert x.acts + (y.acts + z.acts) == x.acts + y.acts + z.acts;
  }

  /** A third owner, of another conjunction: silent iff it does not matter in which
      order the two conjunctions are put together, since c c d comes out as c d c. */
  lemma SharedResent(k: Key, c: Ofpacts, d: Ofpacts, u1: Uuid, u2: Uuid, u3: Uuid)
    requires IsConj(c) && IsConj(d) && c != d && u1 != u2
    ensures var reqs := [Request(k, c, 1, u1), Request(k, c, 1, u2), Request(k, d, 1, u3)];
            var ops := FlowOps(k, reqs) + Recompute(Some(reqs), None);
            && LegalRun(INITIAL, ops)
            && var s := Run(INITIAL, ops);
            && Fit(s) && Legal(s, Populate([k], []))
            && (Messages(s, [k], []) == [] <==> c + d == d + c)
  {
    hide Visited, LegalRun, Run, Legal, Messages, Recompute, FlowOps, Flow0, ConjAgain, ConcatActs, IsConj;
    var r1, r2, r3 := Request(k, c, 1, u1), Request(k, c, 1, u2), Request(k, d, 1, u3);
    ThreeConj(k, r1, r2, r3);
    var a := Flow0(k, [r1, r2, r3]).conj;
    ThirdAgain(a, k, c, d, u1, u2, u3);
    HoldingVisited(Flow0(k, [r1, r2, r3]), a);
    FlowAgain(k, [r1, r2, r3]);
    Commutes(c, d);
  }

  lemma ThreeConj(k: Key, r1: Request, r2: Request, r3: Request)
    requires r1.key == r2.key == r3.key == k && IsConj(r1.acts) && IsConj(r3.acts)
    requires r1.acts == r2.acts != r3.acts && r1.uuid != r2.uuid
    ensures OneKey(k, [r1, r2, r3])
    ensures var f := Flow0(k, [r1, r2, r3]);
            && |f.conj| == 3 && Holding(f, f.conj) && f.conj[0].acts == f.conj[1].acts == r1.acts
            && f.conj[2].acts == r3.acts && f.conj[0].uuid == r1.uuid && f.conj[2].uuid == r3.uuid
  {
    hide Flow0, IsConj, FindActs;
    TwoConj(k, r1, r2);
    NotFound(Flow0(k, [r1, r2]).conj, r3.acts);
    ConjSnoc(k, [r1, r2], r3);
    assert [r1, r2] + [r3] == [r1, r2, r3];
  }

  lemma NotFound(s: seq<Action>, acts: Ofpacts)
    requires |s| == 2 && s[0].acts != acts && s[1].acts != acts
    ensures FindActs(s, acts).None?
  {
    forall a | a in s ensures a.acts != acts {
    }
  }

  lemma Commutes(c: Ofpacts, d: Ofpacts)
    ensures c + d + c == c + c + d <==> c + d == d + c
  {
    assert c + d + c == c + (d + c) && c + c + d == c + (c + d);
    assert (c + (d + c))[|c|..] == d + c && (c + (c + d))[|c|..] == c + d;
  }

  lemma {:induction false} ThirdAgain(a: seq<Action>, k: Key, c: Ofpacts, d: Ofpacts, u1: Uuid, u2: Uuid, u3: Uuid)
    requires IsConj(c) && IsConj(d) && c != d && u1 != u2 && |a| == 3
    requires a[0].acts == a[1].acts == c && a[2].acts == d && a[0].uuid == u1 && a[2].uuid == u3
    ensures ConjAgain(a, k, [Request(k, c, 1, u1), Request(k, c, 1, u2), Request(k, d, 1, u3)]) == c + d + c
    ensures ConcatActs(a) == c + c + d && ConcatActs(a) != []
  {
    hide Firsts, Foreign, Joined, ConcatActs, Filter, FindActs;
    var r1, r2, r3 := Request(k, c, 1, u1), Request(k, c, 1, u2), Request(k, d, 1, u3);
    assert a == [a[0], a[1], a[2]];
    ThirdFirsts(a);
    SharedForeign(a, k, c, r1, r2);
    ThirdOwn(a, k, r3);
    ForeignThree(a, k, r1, r2, r3);
    ConcatThree(a[0], a[1], a[2]);
    ConcatThree(a[0], a[2], a[2]);
    JoinedOne(r2);
  }

  lemma ThirdOwn(a: seq<Action>, k: Key, r: Request)
    requires |a| == 3 && a[0].acts == a[1].acts != a[2].acts == r.acts && a[2].uuid == r.uuid
    ensures !Foreign(a, k)(r)
  {
    assert a[1..] == [a[1], a[2]] && a[1..][1..] == [a[2]];
    assert FindActs(a, r.acts) == Some(a[2]);
  }

  lemma ForeignThree(a: seq<Action>, k: Key, r1: Request, r2: Request, r3: Request)
    requires !Foreign(a, k)(r1) && Foreign(a, k)(r2) && !Foreign(a, k)(r3)
    ensures Filter([r1, r2, r3], Foreign(a, k)) == [r2]
  {
    hide Foreign;
    assert [r1, r2, r3] == [r1, r2] + [r3];
    ForeignTwo(a, k, r1, r2);
    FilterAppend([r1, r2], r3, Foreign(a, k));
  }

  lemma ThirdFirsts(a: seq<Action>)
    requires |a| == 3 && a[0].acts == a[1].acts != a[2].acts
    ensures Firsts(a) == [a[0], a[2]]
  {
    assert a == [] + [a[0]] + [a[1]] + [a[2]];
    FirstsSnoc([], a[0]);
    FirstsSnoc([a[0]], a[1]);
    FirstsSnoc([a[0], a[1]], a[2]);
    assert [a[0]] + [a[1]] == [a[0], a[1]];
    assert FindActs([a[0]], a[1].acts).Some?;
    forall x | x in [a[0], a[1]] ensures x.acts != a[2].acts {
    }
    assert FindActs([a[0], a[1]], a[2].acts).None?;
  }

  // ---------- A flow without an action ----------

  /** What is left of the flow once its only action is removed. */
  lemma OneFlowRemoved(acts: Ofpacts, cookie: nat, uuid: Uuid)
    ensures !HasActions(Keep(OneFlow(acts, cookie, uuid), NotOf(uuid)))
    ensures Keep(OneFlow(acts, cookie, uuid), NotOf(uuid)).list == 0
  {
    var a := Action(0, acts, cookie, uuid, false);
    FilterNone([a], NotOf(uuid));
    FilterNone([], NotOf(uuid));
    assert [] + [a] == [a];
  }

  ghost predicate Bare(t: Table, k: Key) {
    t.flows.Keys == {k} && !HasActions(t.flows[k]) && t.flows[k].list == 0 && t.lists == [[k], []]
  }

  /** A flow is asked for and removed. */
  lemma BareRun(k: Key, acts: Ofpacts, cookie: nat, uuid: Uuid)
    ensures var ops := [AddOflow(true, k, acts, cookie, uuid), RemoveOflows(true, uuid)];
            && LegalRun(INITIAL, ops)
            && var s := Run(INITIAL, ops);
            SysOk(s) && Bare(s.l, k) && s.l.active == 0 && s.p == EMPTY_TABLE && s.sw == map[]
  {
    hide HalfOk, Add, Remove, CoreOk, Keep, OneFlow, HasActions;
    var add, rem := AddOflow(true, k, acts, cookie, uuid), RemoveOflows(true, uuid);
    InitialOk();
    HalfIsTable(EMPTY_TABLE, map[]);
    SysStep(INITIAL, add);
    var s1 := Step(INITIAL, add);
    HalfIsTable(s1.l, s1.sw);
    LoneFirst(k, acts, cookie, uuid);
    SysStep(s1, rem);
    RemoveExact(s1.l, uuid);
    OneFlowRemoved(acts, cookie, uuid);
    TwoSteps(INITIAL, add, rem);
  }

  /** Two switches bring it back. */
  lemma BareSwapped(s: System, k: Key)
    requires SysOk(s) && Bare(s.l, k) && s.l.active == 0 && s.sw == map[]
    ensures var ops := [SwitchTables(true), SwitchTables(true)];
            && LegalRun(s, ops)
            && var s' := Run(s, ops);
            SysOk(s') && s'.l == s.l.(modified := {}) && s'.p == s.p && s'.sw == map[]
  {
    hide HalfOk, CoreOk, HasActions;
    var swap := SwitchTables(true);
    HalfIsTable(s.l, s.sw);
    HalfIsTable(s.p, s.sw);
    SysStep(s, swap);
    var s1 := Step(s, swap);
    HalfIsTable(s1.l, s1.sw);
    assert LeftoversIdle(s1.l, s1.sw);
    SysStep(s1, swap);
    TwoSteps(s, swap, swap);
  }

  lemma IdlePopulate(s: System, k: Key)
    requires SysOk(s) && Bare(s.l, k) && s.l.active == 0 && s.l.modified == {} && s.p == EMPTY_TABLE && s.sw == map[]
    ensures var pop := Populate([], []);
            LegalRun(s, [pop]) && Run(s, [pop]).l == s.l && Run(s, [pop]).p == EMPTY_TABLE
  {
    hide HalfOk, CoreOk, HasActions;
    HalfIsTable(s.l, s.sw);
    HalfIsTable(s.p, s.sw);
    EmptyPopulate(s.l);
    EmptyPopulate(s.p);
    OneStep(s, Populate([], []));
  }

  function IdleOps(k: Key, acts: Ofpacts, cookie: nat, uuid: Uuid): seq<Op> {
    [AddOflow(true, k, acts, cookie, uuid), RemoveOflows(true, uuid)] + [SwitchTables(true), SwitchTables(true)]
    + [Populate([], [])]
  }

  lemma IdleRun(k: Key, acts: Ofpacts, cookie: nat, uuid: Uuid)
    ensures var ops := IdleOps(k, acts, cookie, uuid);
            && LegalRun(INITIAL, ops) && Bare(Run(INITIAL, ops).l, k) && Run(INITIAL, ops).p == EMPTY_TABLE
            && GoalRun(map[], true, ops) == map[]
  {
    hide Bare, SysOk, LegalRun, Run, GoalRun;
    var a := [AddOflow(true, k, acts, cookie, uuid), RemoveOflows(true, uuid)];
    var b, c := [SwitchTables(true), SwitchTables(true)], [Populate([], [])];
    BareRun(k, acts, cookie, uuid);
    var s := Run(INITIAL, a);
    BareSwapped(s, k);
    BareSame(s.l, k);
    IdlePopulate(Run(s, b), k);
    RunAppend(INITIAL, a, b);
    RunAppend(INITIAL, a + b, c);
    IdleGoal(k, acts, cookie, uuid);
  }

  lemma BareSame(t: Table, k: Key)
    requires Bare(t, k)
    ensures Bare(t.(modified := {}), k)
  {
  }

  lemma IdleGoal(k: Key, acts: Ofpacts, cookie: nat, uuid: Uuid)
    ensures GoalRun(map[], true, IdleOps(k, acts, cookie, uuid)) == map[]
  {
    var ops := IdleOps(k, acts, cookie, uuid);
    var g := GoalRemove(GoalAdd(map[], k, acts, uuid), uuid);
    assert ops[1..][1..] == [SwitchTables(true), SwitchTables(true), Populate([], [])];
    assert ops[1..][1..][1..] == [SwitchTables(true), Populate([], [])];
    assert ops[1..][1..][1..][1..] == [Populate([], [])] && [Populate([], [])][1..] == [];
    var none: Goal := map[];
    assert GoalRun(none, true, [Populate([], [])]) == none;
    assert GoalRun(none, true, [SwitchTables(true), Populate([], [])]) == none;
    assert GoalRun(g, true, ops[1..][1..]) == none;
    assert GoalRun(GoalAdd(map[], k, acts, uuid), true, ops[1..]) == none;
  }

  /** A flow is asked for and removed, and two switches in a row bring it back without
      an action: the recompute that asks for nothing sends a deletion. */
  lemma IdleDeleted(k: Key, acts: Ofpacts, cookie: nat, uuid: Uuid)
    ensures var ops := IdleOps(k, acts, cookie, uuid) + Recompute(Some([]), None);
            && LegalRun(INITIAL, ops)
            && var s := Run(INITIAL, ops);
            Fit(s) && Legal(s, Populate([], [])) && Messages(s, [], []) != []
  {
    hide LegalRun, Run, Messages, HalfOk, CoreOk, Quiet, GoalRun, IdleOps, PopulateOld;
    var ops := IdleOps(k, acts, cookie, uuid);
    IdleRun(k, acts, cookie, uuid);
    InitialOk();
    IdleEnds(k, acts, cookie, uuid);
    RunOk(INITIAL, map[], map[], ops);
    var s := Run(INITIAL, ops);
    QuiescentRun(ops, Some([]), None, [], []);
    IdleUnsteady(s.l, [], k);
    RecomputeRun(s, Some([]), None);
    RunAppend(INITIAL, ops, Recompute(Some([]), None));
    var s2 := Run(INITIAL, ops + Recompute(Some([]), None));
    assert s2.l.modified == {} && s2.p == EMPTY_TABLE;
    NoneDue(s2.l);
    NoneDue(s2.p);
  }

  lemma IdleEnds(k: Key, acts: Ofpacts, cookie: nat, uuid: Uuid)
    ensures var ops := IdleOps(k, acts, cookie, uuid); ops != [] && ops[|ops| - 1] == Populate([], [])
  {
  }

  lemma NoneDue(t: Table)
    requires CoreOk(t) && t.modified == {}
    ensures OldListed(t) && TwoLists(PopulateOld(t)) && Enumerates([], PopulateOld(t).modified)
  {
    FitPopulates(t);
    PopulateOldEffect(t);
  }
}
