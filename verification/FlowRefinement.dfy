/** Controller and switch stay together over every run, and the live requests are
    those added since the last switch of lists and not removed.

    `Goal` says what has been asked for as sets, with no lists, stale marks,
    modified sets or indexes. */
module FlowRefinement {
  import opened Common
  import opened OpenFlow
  import opened Seqs
  import opened FlowTable
  import opened FlowIndex

  // ---------- The reference ----------

  /** The live requests under one key: the last normal action, unless removed,
      and the set of the other ones. */
  datatype Want = Want(normal: Option<(Uuid, Ofpacts)>, others: set<(Uuid, Ofpacts)>)

  const NOTHING := Want(None, {})

  type Goal = map<Key, Want>

  function At(g: Goal, k: Key): Want { if k in g then g[k] else NOTHING }

  function GoalAdd(g: Goal, k: Key, acts: Ofpacts, uuid: Uuid): Goal {
    g[k := if IsNormal(acts) then At(g, k).(normal := Some((uuid, acts)))
           else At(g, k).(others := At(g, k).others + {(uuid, acts)})]
  }

  function WantWithout(w: Want, uuid: Uuid): Want {
    Want(if w.normal.Some? && w.normal.value.0 == uuid then None else w.normal,
         set x | x in w.others && x.0 != uuid)
  }

  function GoalRemove(g: Goal, uuid: Uuid): Goal { map k | k in g :: WantWithout(g[k], uuid) }

  // ---------- What a table holds live ----------

  ghost function LiveOf(s: seq<Action>): set<(Uuid, Ofpacts)> {
    set a | a in s && !a.stale :: (a.uuid, a.acts)
  }

  ghost function LiveNormal(f: Flow): Option<(Uuid, Ofpacts)> {
    if f.normal.Some? && !f.normal.value.stale then Some((f.normal.value.uuid, f.normal.value.acts)) else None
  }

  ghost function Live(f: Flow): Want {
    Want(LiveNormal(f), LiveOf(f.allow) + LiveOf(f.drop) + LiveOf(f.conj))
  }

  ghost function Wanted(t: Table, k: Key): Want {
    if k in t.flows && t.flows[k].list == t.active then Live(t.flows[k]) else NOTHING
  }

  ghost predicate Agree(t: Table, g: Goal) { forall k :: Wanted(t, k) == At(g, k) }

  // ---------- Each operation moves the table as it moves the reference ----------

  lemma InvalidatedLive(f: Flow)
    ensures Live(InvalidateAll(f)) == NOTHING
  {
    var p := (a: Action) => true;
    assert forall i :: 0 <= i < |f.allow| ==> RestaleSeq(f.allow, p)[i].stale;
    assert forall i :: 0 <= i < |f.drop| ==> RestaleSeq(f.drop, p)[i].stale;
    assert forall i :: 0 <= i < |f.conj| ==> RestaleSeq(f.conj, p)[i].stale;
  }

  lemma TouchedLive(t: Table, k: Key)
    ensures Live(Touched(t, k)) == Wanted(t, k)
  {
    if Moves(t, k) { InvalidatedLive(t.flows[k].(list := t.active)); }
  }

  ghost function WantAdd(w: Want, acts: Ofpacts, uuid: Uuid): Want {
    if IsNormal(acts) then w.(normal := Some((uuid, acts))) else w.(others := w.others + {(uuid, acts)})
  }

  lemma LiveAppend(s: seq<Action>, a: Action)
    requires !a.stale
    ensures LiveOf(s + [a]) == LiveOf(s) + {(a.uuid, a.acts)}
  {
  }

  lemma UpdateLive(f: Flow, a: Action)
    requires !a.stale
    ensures Live(UpdateActions(f, a)) == WantAdd(Live(f), a.acts, a.uuid)
  {
    ClassesExclusive(a.acts);
    if IsNormal(a.acts) {
    } else if IsAllow(a.acts) {
      LiveAppend(f.allow, a);
    } else if IsDrop(a.acts) {
      LiveAppend(f.drop, a);
    } else {
      LiveAppend(f.conj, a);
    }
  }

  ghost function Marked(s: seq<Action>, id: nat): set<(Uuid, Ofpacts)> {
    set a | a in s && a.id == id :: (a.uuid, a.acts)
  }

  lemma MarkedOne(s: seq<Action>, m: Action)
    requires forall a :: a in s && a.id == m.id ==> a == m
    ensures Marked(s, m.id) == if m in s then {(m.uuid, m.acts)} else {}
  {
  }

  /** Clearing the stale mark of one action in a list of distinct actions. */
  lemma RefreshLive(s: seq<Action>, id: nat)
    ensures LiveOf(RestaleSeq(s, (a: Action) => a.stale && a.id != id)) ==
            LiveOf(s) + Marked(s, id)
  {
    RestaleElems(s, (a: Action) => a.stale && a.id != id);
    var r := RestaleSeq(s, (a: Action) => a.stale && a.id != id);
    forall a | a in s && (!a.stale || a.id == id) ensures (a.uuid, a.acts) in LiveOf(r) {
      assert a.(stale := a.stale && a.id != id) in Elems(r);
    }
    forall b | b in r && !b.stale
      ensures (b.uuid, b.acts) in LiveOf(s) + Marked(s, id)
    {
      assert b in Elems(r);
      var a :| a in s && b == a.(stale := a.stale && a.id != id);
    }
  }

  /** Where the action an add matches can be. */
  lemma MatchPlace(f: Flow, acts: Ofpacts)
    requires FlowOk(f) && MatchingAction(f, acts).Some?
    ensures var m := MatchingAction(f, acts).value;
            && m.acts == acts
            && (forall a :: a in f.allow || a in f.drop || a in f.conj ==> a.id == m.id ==> a == m)
            && (IsNormal(acts) ==> f.normal == Some(m) && m !in f.allow && m !in f.drop && m !in f.conj)
            && (!IsNormal(acts) ==> m in f.allow || m in f.drop || m in f.conj)
            && (!IsNormal(acts) && f.normal.Some? ==> f.normal.value.id != m.id)
  {
    ClassesExclusive(acts);
    var m := MatchingAction(f, acts).value;
    assert m in ActSet(f);
    if f.normal.Some? { assert f.normal.value in ActSet(f); }
    assert forall a :: a in f.allow || a in f.drop || a in f.conj ==> a in ActSet(f);
  }

  lemma UnstaleLive(f: Flow, acts: Ofpacts)
    requires FlowOk(f) && MatchingAction(f, acts).Some?
    ensures var m := MatchingAction(f, acts).value; Live(Unstale(f, m.id)) == WantAdd(Live(f), acts, m.uuid)
  {
    hide FlowOk, MatchingAction, RestaleSeq, LiveOf, Marked, IsNormal;
    var m := MatchingAction(f, acts).value;
    MatchPlace(f, acts);
    RefreshLive(f.allow, m.id);
    RefreshLive(f.drop, m.id);
    RefreshLive(f.conj, m.id);
    MarkedOne(f.allow, m);
    MarkedOne(f.drop, m);
    MarkedOne(f.conj, m);
    var extra := Marked(f.allow, m.id) + Marked(f.drop, m.id) + Marked(f.conj, m.id);
    assert extra == if IsNormal(acts) then {} else {(m.uuid, acts)};
    assert Live(Unstale(f, m.id)).others == Live(f).others + extra;
  }

  lemma AddAgree(t: Table, g: Goal, k: Key, acts: Ofpacts, cookie: nat, uuid: Uuid)
    requires CoreOk(t) && Agree(t, g)
    ensures Agree(Add(t, k, acts, cookie, uuid), GoalAdd(g, k, acts, uuid))
  {
    hide Live, ActSet, Unstale, UpdateActions;
    var t' := Add(t, k, acts, cookie, uuid);
    var f := Touched(t, k);
    AddShape(t, k, acts, cookie, uuid);
    TouchedLive(t, k);
    TouchedOk(t, k);
    assert Wanted(t, k) == At(g, k);
    assert Live(t'.flows[k]) == WantAdd(Live(f), acts, uuid) by {
      if Known(t, k, acts, uuid) {
        UnstaleLive(f, acts);
      } else {
        UpdateLive(f, Action(t.nextId, acts, cookie, uuid, false));
      }
    }
    forall j ensures Wanted(t', j) == At(GoalAdd(g, k, acts, uuid), j) {
      assert Wanted(t, j) == At(g, j);
    }
  }

  lemma KeepLive(f: Flow, uuid: Uuid)
    ensures Live(Keep(f, NotOf(uuid))) == WantWithout(Live(f), uuid)
  {
    KeepLiveOf(f.allow, uuid);
    KeepLiveOf(f.drop, uuid);
    KeepLiveOf(f.conj, uuid);
    hide LiveOf, Filter;
  }

  lemma KeepLiveOf(s: seq<Action>, uuid: Uuid)
    ensures LiveOf(Filter(s, NotOf(uuid))) == set x | x in LiveOf(s) && x.0 != uuid
  {
  }

  lemma RemoveAgree(t: Table, g: Goal, uuid: Uuid)
    requires TableOk(t) && Agree(t, g)
    ensures Agree(Remove(t, uuid), GoalRemove(g, uuid))
  {
    hide Live, ActSet, Keep;
    RemoveExact(t, uuid);
    var t' := Remove(t, uuid);
    forall k ensures Wanted(t', k) == At(GoalRemove(g, uuid), k) {
      assert Wanted(t, k) == At(g, k);
      if k in t.flows {
        KeepLive(t.flows[k], uuid);
        assert t'.flows[k].list == t.flows[k].list by { KeepShrinks(t.flows[k], NotOf(uuid)); }
      }
    }
  }

  lemma SwitchAgree(t: Table)
    requires Listed(t) && forall k :: k in t.lists[Old(t)] ==> !HasActions(t.flows[k])
    ensures Agree(SwitchLists(t), map[])
  {
  }

  // ---------- The switch ----------

  /** What the flow remembers of the switch is what the switch holds.  A cookie
      of zero with nothing installed is the only state that leaves it open
      whether the key is there. */
  ghost predicate Mirrors(sw: Switch, k: Key, f: Flow) {
    && (k in sw ==> sw[k] == Entry(f.installed, f.activeCookie))
    && (f.activeCookie != 0 || f.installed != [] ==> k in sw)
  }

  ghost predicate InSync(sw: Switch, k: Key, f: Flow) {
    && (forall a :: a in ActSet(f) ==> !a.stale)
    && Effective(f).Some? && k in sw && sw[k].acts == Effective(f).value.acts
  }

  /** The flow asks for nothing and has nothing on the switch. */
  ghost predicate Idle(sw: Switch, k: Key, f: Flow) { !HasActions(f) && k !in sw }

  ghost predicate Resting(sw: Switch, k: Key, f: Flow) { InSync(sw, k, f) || Idle(sw, k, f) }

  /** A flow on the active list that is not due for a visit is in sync. */
  ghost predicate HalfOk(t: Table, sw: Switch) {
    && TableOk(t)
    && forall k :: k in t.flows ==>
         Mirrors(sw, k, t.flows[k]) && (t.flows[k].list == t.active && k !in t.modified ==> Resting(sw, k, t.flows[k]))
  }

  lemma RestaleSame(f: Flow, p: Action -> bool)
    requires forall a :: a in ActSet(f) ==> p(a) == a.stale
    ensures Restale(f, p) == f
  {
    assert forall i :: 0 <= i < |f.allow| ==> f.allow[i] in ActSet(f);
    assert forall i :: 0 <= i < |f.drop| ==> f.drop[i] in ActSet(f);
    assert forall i :: 0 <= i < |f.conj| ==> f.conj[i] in ActSet(f);
  }

  lemma AddRemembers(t: Table, k: Key, acts: Ofpacts, cookie: nat, uuid: Uuid)
    requires TwoLists(t)
    ensures var f' := Add(t, k, acts, cookie, uuid).flows[k];
            && f'.installed == (if k in t.flows then t.flows[k].installed else [])
            && f'.activeCookie == (if k in t.flows then t.flows[k].activeCookie else 0)
  {
  }

  lemma AddHalf(t: Table, sw: Switch, k: Key, acts: Ofpacts, cookie: nat, uuid: Uuid)
    requires HalfOk(t, sw) && (k in t.flows || k !in sw)
    ensures HalfOk(Add(t, k, acts, cookie, uuid), sw)
  {
    hide ActSet, Linked, StaleTracked, Effective, FlowOk, Add, RequeuedLists;
    var t' := Add(t, k, acts, cookie, uuid);
    AddOk(t, k, acts, cookie, uuid);
    AddShape(t, k, acts, cookie, uuid);
    AddRemembers(t, k, acts, cookie, uuid);
    if k !in t'.modified { AddUnnoticed(t, k, acts, cookie, uuid); }
  }

  /** The one add that queues no visit finds everything as it is. */
  lemma AddUnnoticed(t: Table, k: Key, acts: Ofpacts, cookie: nat, uuid: Uuid)
    requires TwoLists(t) && k !in Add(t, k, acts, cookie, uuid).modified
    ensures k in t.flows && t.flows[k].list == t.active && k !in t.modified && HasActions(t.flows[k])
    ensures (forall a :: a in ActSet(t.flows[k]) ==> !a.stale) ==> Add(t, k, acts, cookie, uuid).flows[k] == t.flows[k]
  {
    assert Known(t, k, acts, uuid) && !Moves(t, k);
    assert k in t.flows && Touched(t, k) == t.flows[k];
    if forall a :: a in ActSet(t.flows[k]) ==> !a.stale {
      SettledUnstale(t.flows[k], MatchingAction(t.flows[k], acts).value.id);
    }
  }

  lemma SettledUnstale(f: Flow, id: nat)
    requires forall a :: a in ActSet(f) ==> !a.stale
    ensures Unstale(f, id) == f
  {
    RestaleSame(f, (a: Action) => a.stale && a.id != id);
  }

  lemma RemoveHalf(t: Table, sw: Switch, uuid: Uuid)
    requires HalfOk(t, sw)
    ensures HalfOk(Remove(t, uuid), sw)
  {
    hide ActSet, Linked, StaleTracked, Effective, FlowOk, Keep;
    var t' := Remove(t, uuid);
    RemoveOk(t, uuid);
    RemoveExact(t, uuid);
    forall k | k in t'.flows
      ensures Mirrors(sw, k, t'.flows[k])
      ensures (t'.flows[k].list == t'.active && k !in t'.modified ==> Resting(sw, k, t'.flows[k]))
    {
      KeepRemembers(t.flows[k], NotOf(uuid));
      if k !in t'.modified { KeepAll(t.flows[k], NotOf(uuid)); }
    }
  }

  lemma KeepRemembers(f: Flow, p: Action -> bool)
    ensures Keep(f, p).installed == f.installed && Keep(f, p).activeCookie == f.activeCookie
    ensures Keep(f, p).list == f.list
  {
  }

  lemma SwitchHalf(t: Table, sw: Switch)
    requires HalfOk(t, sw) && LeftoversIdle(t, sw)
    ensures HalfOk(SwitchLists(t), sw)
  {
    SwitchOk(t);
  }

  /** Nothing that matters was left on the old list.  After a populate there is
      nothing on it at all. */
  ghost predicate LeftoversIdle(t: Table, sw: Switch) {
    TwoLists(t) && forall k :: k in t.lists[Old(t)] ==> k in t.flows && Idle(sw, k, t.flows[k])
  }

  // ---------- Messages for one flow ----------

  /** Whatever was installed before, the messages leave exactly what the flow
      wants; a strict modify is only sent for a key the switch holds. */
  lemma PrepareSwitch(sw: Switch, k: Key, f: Flow)
    requires Mirrors(sw, k, f)
    ensures var sw' := ApplyAll(sw, PrepareMsgs(k, f));
            && Mirrors(sw', k, PrepareFlow(f))
            && Effective(PrepareFlow(f)) == Effective(f)
            && (Effective(f).None? ==> k !in sw')
            && (Effective(f).Some? ==> k in sw' && sw'[k].acts == Effective(f).value.acts)
    ensures forall m :: m in PrepareMsgs(k, f) ==> m.key == k && (m.ModifyStrict? ==> k in sw)
  {
    var ms := PrepareMsgs(k, f);
    if ms != [] {
      assert ms == [ms[0]];
      assert ApplyAll(sw, ms) == Apply(sw, ms[0]);
    }
    assert Effective(PrepareFlow(f)) == Effective(f) by {
      assert PrepareFlow(f) == f.(installed := PrepareFlow(f).installed, activeCookie := PrepareFlow(f).activeCookie);
    }
  }

  // ---------- Populate, one half ----------

  ghost predicate SameAt(sw: Switch, sw': Switch, k: Key) {
    (k in sw <==> k in sw') && (k in sw ==> sw[k] == sw'[k])
  }

  lemma {:induction false} PopulateOldSwitch(t: Table, sw: Switch)
    requires CoreOk(t)
    ensures OldListed(t)
    ensures forall m :: m in PopulateOldMsgs(t) ==> m.key in t.lists[Old(t)]
    ensures var sw' := ApplyAll(sw, PopulateOldMsgs(t));
            forall k :: if k in t.lists[Old(t)] then k !in sw' else SameAt(sw, sw', k)
    decreases |t.lists[Old(t)]|
  {
    hide Linked, FlowOk, ActSet, Unlink;
    if t.lists[Old(t)] != [] {
      PopOldFrontOk(t);
      var left := t.lists[Old(t)];
      var k := left[0];
      assert PrepareMsgs(k, ClearActions(t.flows[k])) == [DeleteStrict(k)];
      PopulateOldSwitch(PopOldFront(t), sw - {k});
      assert forall x :: x in left <==> x == k || x in left[1..];
      var rest := PopulateOldMsgs(PopOldFront(t));
      assert ([DeleteStrict(k)] + rest)[1..] == rest;
      assert ApplyAll(sw, [DeleteStrict(k)] + rest) == ApplyAll(sw - {k}, rest);
    }
  }

  lemma HalfAfterOld(t: Table, sw: Switch, sw': Switch)
    requires HalfOk(t, sw)
    requires forall k :: k in t.flows && k !in t.lists[Old(t)] ==> SameAt(sw, sw', k)
    ensures OldListed(t) && HalfOk(PopulateOld(t), sw') && PopulateOld(t).lists[Old(PopulateOld(t))] == []
    ensures forall k :: Wanted(PopulateOld(t), k) == Wanted(t, k)
  {
    hide Linked, FlowOk, Effective, ActSet, PopulateOld, Live;
    PopulateOldEffect(t);
  }

  /** The state of one visited key. */
  ghost predicate Settled(sw: Switch, k: Key, f: Flow) {
    if HasActions(f) then Mirrors(sw, k, f) && InSync(sw, k, f) else k !in sw
  }

  lemma EffectiveIff(f: Flow)
    ensures Effective(f).Some? <==> HasActions(f)
  {
  }

  lemma VisitSwitch(sw: Switch, k: Key, f: Flow)
    requires Mirrors(sw, k, f) && FlowOk(f)
    ensures Settled(ApplyAll(sw, PrepareMsgs(k, DeleteStale(f))), k, Visited(f))
    ensures forall m :: m in PrepareMsgs(k, DeleteStale(f)) ==> m.key == k
  {
    var g := DeleteStale(f);
    KeepRemembers(f, (a: Action) => !a.stale);
    PrepareSwitch(sw, k, g);
    EffectiveIff(Visited(f));
    VisitedActs(f);
  }

  lemma {:induction false} HandleAllSwitch(t: Table, order: seq<Key>, sw: Switch)
    requires CoreOk(t) && NoDup(order)
    requires forall k :: k in order ==> k in t.flows && Mirrors(sw, k, t.flows[k])
    ensures forall m :: m in HandleAllMsgs(t, order) ==> m.key in order
    ensures var sw' := ApplyAll(sw, HandleAllMsgs(t, order));
            forall k :: if k in order then Settled(sw', k, Visited(t.flows[k])) else SameAt(sw, sw', k)
    decreases |order|
  {
    hide Linked, FlowOk, Visited, PrepareMsgs, HandleModified, DeleteStale, Settled;
    if order != [] {
      var k := order[0];
      assert k in order;
      HandleModifiedOk(t, k);
      VisitSwitch(sw, k, t.flows[k]);
      var ms := PrepareMsgs(k, DeleteStale(t.flows[k]));
      var sw1 := ApplyAll(sw, ms);
      forall j | j != k ensures SameAt(sw, sw1, j) { ApplyAllFrame(sw, ms, j); }
      var t1 := HandleModified(t, k);
      var rest := HandleAllMsgs(t1, order[1..]);
      forall j | j in order[1..]
        ensures j != k && j in t1.flows && t1.flows[j] == t.flows[j] && Mirrors(sw1, j, t1.flows[j])
      {
        assert j in order && SameAt(sw, sw1, j);
      }
      HandleAllSwitch(t1, order[1..], sw1);
      ApplyAllConcat(sw, ms, rest);
      assert forall x :: x in order <==> x == k || x in order[1..];
      var sw2 := ApplyAll(sw1, rest);
      assert HandleAllMsgs(t, order) == ms + rest;
      forall j ensures if j in order then Settled(sw2, j, Visited(t.flows[j])) else SameAt(sw, sw2, j) {
        if j == k {
          assert k !in order[1..] && SameAt(sw1, sw2, k);
          SettledSame(sw1, sw2, k, Visited(t.flows[k]));
        } else if j !in order {
          assert SameAt(sw, sw1, j) && SameAt(sw1, sw2, j);
        }
      }
    }
  }

  lemma SettledSame(sw: Switch, sw': Switch, k: Key, f: Flow)
    requires SameAt(sw, sw', k) && Settled(sw, k, f)
    ensures Settled(sw', k, f)
  {
  }

  lemma VisitedLive(f: Flow)
    ensures Live(Visited(f)) == Live(f) && Visited(f).list == f.list
    ensures !HasActions(Visited(f)) ==> Live(f) == NOTHING
  {
    var g := DeleteStale(f);
    KeepFreshLive(f.allow);
    KeepFreshLive(f.drop);
    KeepFreshLive(f.conj);
    hide LiveOf, Filter, Effective;
    assert Visited(f) == g.(installed := Visited(f).installed, activeCookie := Visited(f).activeCookie);
    assert Live(Visited(f)) == Live(g);
    if !HasActions(Visited(f)) {
      EmptyLive();
    }
  }

  lemma EmptyLive()
    ensures LiveOf([]) == {}
  {
  }

  lemma KeepFreshLive(s: seq<Action>)
    ensures LiveOf(Filter(s, (a: Action) => !a.stale)) == LiveOf(s)
  {
  }

  /** A visited half: nothing pending, nothing stale, every flow in sync. */
  ghost predicate Quiet(t: Table) {
    && TwoLists(t) && t.modified == {} && t.lists[Old(t)] == []
    && forall k, a :: k in t.flows && a in ActSet(t.flows[k]) ==> !a.stale
  }

  lemma HalfAfterVisit(t: Table, order: seq<Key>, sw: Switch, sw': Switch)
    requires HalfOk(t, sw) && t.lists[Old(t)] == [] && Enumerates(order, t.modified)
    requires forall k :: k in t.flows ==>
               if k in order then Settled(sw', k, Visited(t.flows[k])) else SameAt(sw, sw', k)
    ensures HalfOk(PopulateModified(t, order), sw') && Quiet(PopulateModified(t, order))
    ensures forall k :: Wanted(PopulateModified(t, order), k) == Wanted(t, k)
    ensures forall k :: k in t.flows && k !in PopulateModified(t, order).flows ==> k !in sw'
  {
    hide Linked, FlowOk, Effective, ActSet, HandleAll, Visited, Live, HasActions;
    HandleAllEffect(t, order);
    var t' := PopulateModified(t, order);
    assert CoreOk(t') by {
      SameFlowsCore(HandleAll(t, order), t');
    }
    forall k | k in t.flows
      ensures t.flows[k].list == t.active
      ensures k in t'.flows ==>
              t'.flows[k].list == t.active && Mirrors(sw', k, t'.flows[k]) && Resting(sw', k, t'.flows[k])
      ensures k in t'.flows ==> forall a :: a in ActSet(t'.flows[k]) ==> !a.stale
      ensures k !in t'.flows ==> k !in sw'
      ensures Wanted(t', k) == Wanted(t, k)
    {
      assert t.flows[k].list == t.active;
      VisitedLive(t.flows[k]);
    }
    EmptyOld(t');
  }

  lemma SameFlowsCore(t: Table, t': Table)
    requires CoreOk(t) && t' == t.(modified := t'.modified)
    ensures CoreOk(t')
  {
    assert forall k, id: nat, u :: Held(t', k, id, u) <==> Held(t, k, id, u);
  }

  lemma EmptyOld(t: Table)
    requires Listed(t) && forall k :: k in t.flows ==> t.flows[k].list == t.active
    ensures t.lists[Old(t)] == []
  {
    SomeMember(t.lists[Old(t)]);
  }

  // ---------- Both halves and the switch ----------

  /** The controller's two halves for one bridge and the bridge's flow table. */
  datatype System = System(l: Table, p: Table, sw: Switch)

  datatype Op =
    | SwitchTables(logical: bool)
    | AddOflow(logical: bool, key: Key, acts: Ofpacts, cookie: nat, uuid: Uuid)
    | RemoveOflows(logical: bool, uuid: Uuid)
    | Populate(orderL: seq<Key>, orderP: seq<Key>)

  function Half(s: System, logical: bool): Table { if logical then s.l else s.p }

  function SetHalf(s: System, logical: bool, t: Table): System {
    if logical then s.(l := t) else s.(p := t)
  }

  ghost predicate Fit(s: System) { CoreOk(s.l) && CoreOk(s.p) }

  /** Populate's messages: both old lists, then both modified sets. */
  function PopulateMsgs(l: Table, p: Table, orderL: seq<Key>, orderP: seq<Key>): seq<FlowMod>
    requires OldListed(l) && OldListed(p) && TwoLists(PopulateOld(l)) && TwoLists(PopulateOld(p))
  {
    PopulateOldMsgs(l) + PopulateOldMsgs(p)
    + HandleAllMsgs(PopulateOld(l), orderL) + HandleAllMsgs(PopulateOld(p), orderP)
  }

  lemma FitPopulates(t: Table)
    requires CoreOk(t)
    ensures OldListed(t) && TwoLists(PopulateOld(t))
  {
    PopulateOldEffect(t);
  }

  /** What the caller answers for: a switch of lists finds nothing that matters on
      the old list, and no key is both logical and physical. */
  ghost predicate Legal(s: System, op: Op)
    requires Fit(s)
  {
    match op
    case SwitchTables(h) => LeftoversIdle(Half(s, h), s.sw)
    case AddOflow(h, k, _, _, _) => k !in Half(s, !h).flows
    case RemoveOflows(_, _) => true
    case Populate(ol, op_) =>
      FitPopulates(s.l);
      FitPopulates(s.p);
      Enumerates(ol, PopulateOld(s.l).modified) && Enumerates(op_, PopulateOld(s.p).modified)
  }

  ghost function Step(s: System, op: Op): System
    requires Fit(s)
  {
    match op
    case SwitchTables(h) => SetHalf(s, h, SwitchLists(Half(s, h)))
    case AddOflow(h, k, acts, cookie, uuid) => SetHalf(s, h, Add(Half(s, h), k, acts, cookie, uuid))
    case RemoveOflows(h, uuid) => SetHalf(s, h, Remove(Half(s, h), uuid))
    case Populate(ol, op_) =>
      FitPopulates(s.l);
      FitPopulates(s.p);
      System(PopulateModified(PopulateOld(s.l), ol), PopulateModified(PopulateOld(s.p), op_),
             ApplyAll(s.sw, PopulateMsgs(s.l, s.p, ol, op_)))
  }

  ghost function GoalStep(g: Goal, logical: bool, op: Op): Goal {
    match op
    case SwitchTables(h) => if h == logical then map[] else g
    case AddOflow(h, k, acts, _, uuid) => if h == logical then GoalAdd(g, k, acts, uuid) else g
    case RemoveOflows(h, uuid) => if h == logical then GoalRemove(g, uuid) else g
    case Populate(_, _) => g
  }

  ghost predicate SysOk(s: System) {
    && HalfOk(s.l, s.sw) && HalfOk(s.p, s.sw)
    && s.l.flows.Keys !! s.p.flows.Keys
    && s.sw.Keys <= s.l.flows.Keys + s.p.flows.Keys
  }

  ghost predicate Tracks(s: System, gl: Goal, gp: Goal) { Agree(s.l, gl) && Agree(s.p, gp) }

  lemma AddStep(s: System, h: bool, k: Key, acts: Ofpacts, cookie: nat, uuid: Uuid)
    requires SysOk(s) && k !in Half(s, !h).flows
    ensures SysOk(SetHalf(s, h, Add(Half(s, h), k, acts, cookie, uuid)))
  {
    hide HalfOk, Add, CoreOk, TableOk;
    HalfIsTable(Half(s, h), s.sw);
    AddHalf(Half(s, h), s.sw, k, acts, cookie, uuid);
    AddShape(Half(s, h), k, acts, cookie, uuid);
  }

  lemma RemoveStep(s: System, h: bool, uuid: Uuid)
    requires SysOk(s)
    ensures SysOk(SetHalf(s, h, Remove(Half(s, h), uuid)))
  {
    RemoveHalf(Half(s, h), s.sw, uuid);
    RemoveExact(Half(s, h), uuid);
    hide HalfOk, Remove;
  }

  /** One half over a populate, while the other half's messages fly by: `a` and
      `c` are the switch just before this half's two batches, `e` after all. */
  lemma HalfPopulated(t: Table, order: seq<Key>, sw: Switch, a: Switch, c: Switch, e: Switch)
    requires HalfOk(t, sw)
    requires OldListed(t) && TwoLists(PopulateOld(t)) && Enumerates(order, PopulateOld(t).modified)
    requires forall k :: k in t.flows ==> SameAt(sw, a, k)
    requires forall k :: k in t.flows ==> SameAt(ApplyAll(a, PopulateOldMsgs(t)), c, k)
    requires forall k :: k in t.flows ==> SameAt(ApplyAll(c, HandleAllMsgs(PopulateOld(t), order)), e, k)
    ensures var t' := PopulateModified(PopulateOld(t), order);
            && HalfOk(t', e) && Quiet(t') && (forall k :: Wanted(t', k) == Wanted(t, k))
            && t'.flows.Keys <= t.flows.Keys
            && (forall k :: k in t.flows && k !in t'.flows ==> k !in e)
  {
    hide PopulateOldMsgs, HandleAllMsgs, Linked, StaleTracked, FlowOk;
    hide Wanted, PopulateOld, Visited, InSync, Mirrors, Effective;
    var t1 := PopulateOld(t);
    var b := ApplyAll(a, PopulateOldMsgs(t));
    PopulateOldEffect(t);
    PopulateOldSwitch(t, a);
    forall k | k in t.flows && k !in t.lists[Old(t)] ensures SameAt(sw, c, k) {
      assert SameAt(sw, a, k) && SameAt(a, b, k) && SameAt(b, c, k);
    }
    HalfAfterOld(t, sw, c);
    HandleAllSwitch(t1, order, c);
    var d := ApplyAll(c, HandleAllMsgs(t1, order));
    forall k | k in t1.flows
      ensures if k in order then Settled(e, k, Visited(t1.flows[k])) else SameAt(c, e, k)
    {
      assert SameAt(d, e, k);
      if k in order { SettledSame(d, e, k, Visited(t1.flows[k])); }
    }
    HalfAfterVisit(t1, order, c, e);
    HandleAllEffect(t1, order);
    forall k | k in t.flows && k in t.lists[Old(t)] ensures k !in e {
      assert k !in b && SameAt(b, c, k) && SameAt(d, e, k) && k !in order && SameAt(c, d, k);
    }
  }

  lemma BatchKeys(t: Table, order: seq<Key>)
    requires CoreOk(t) && t.modified <= t.flows.Keys && OldListed(t) && TwoLists(PopulateOld(t))
    requires Enumerates(order, PopulateOld(t).modified)
    ensures forall m :: m in PopulateOldMsgs(t) ==> m.key in t.flows
    ensures forall m :: m in HandleAllMsgs(PopulateOld(t), order) ==> m.key in t.flows
  {
    PopulateOldSwitch(t, map[]);
    PopulateOldEffect(t);
    HandledKeys(PopulateOld(t), order);
  }

  lemma {:induction false} HandledKeys(t: Table, order: seq<Key>)
    requires TwoLists(t)
    ensures forall m :: m in HandleAllMsgs(t, order) ==> m.key in order
    decreases |order|
  {
    if order != [] {
      HandledKeys(HandleModified(t, order[0]), order[1..]);
      if order[0] in t.flows { PrepareKey(order[0], DeleteStale(t.flows[order[0]])); }
    }
  }

  lemma PrepareKey(k: Key, f: Flow)
    ensures forall m :: m in PrepareMsgs(k, f) ==> m.key == k
  {
  }

  lemma PopulateStep(s: System, ol: seq<Key>, op_: seq<Key>)
    requires SysOk(s) && Legal(s, Populate(ol, op_))
    ensures var s' := Step(s, Populate(ol, op_));
            && SysOk(s') && Quiet(s'.l) && Quiet(s'.p)
            && (forall k :: Wanted(s'.l, k) == Wanted(s.l, k)) && (forall k :: Wanted(s'.p, k) == Wanted(s.p, k))
  {
    hide PopulateOldMsgs, HandleAllMsgs, CoreOk, Wanted, PopulateOld;
    hide InSync, Mirrors, ApplyAll, Quiet, PopulateModified;
    FitPopulates(s.l);
    FitPopulates(s.p);
    BatchKeys(s.l, ol);
    BatchKeys(s.p, op_);
    var ml, mp := PopulateOldMsgs(s.l), PopulateOldMsgs(s.p);
    var nl, np := HandleAllMsgs(PopulateOld(s.l), ol), HandleAllMsgs(PopulateOld(s.p), op_);
    var sw1 := ApplyAll(s.sw, ml);
    var sw2 := ApplyAll(sw1, mp);
    var sw3 := ApplyAll(sw2, nl);
    var sw4 := ApplyAll(sw3, np);
    ApplyAllConcat(s.sw, ml, mp);
    ApplyAllConcat(s.sw, ml + mp, nl);
    ApplyAllConcat(s.sw, ml + mp + nl, np);
    forall k
      ensures k !in s.l.flows ==> SameAt(s.sw, sw1, k) && SameAt(sw2, sw3, k)
      ensures k !in s.p.flows ==> SameAt(sw1, sw2, k) && SameAt(sw3, sw4, k)
    {
      if k !in s.l.flows { ApplyAllFrame(s.sw, ml, k); ApplyAllFrame(sw2, nl, k); }
      if k !in s.p.flows { ApplyAllFrame(sw1, mp, k); ApplyAllFrame(sw3, np, k); }
    }
    HalfPopulated(s.l, ol, s.sw, s.sw, sw2, sw4);
    HalfPopulated(s.p, op_, s.sw, sw1, sw3, sw4);
    forall k | k in sw4
      ensures k in PopulateModified(PopulateOld(s.l), ol).flows || k in PopulateModified(PopulateOld(s.p), op_).flows
    {
      assert k !in s.l.flows && k !in s.p.flows ==>
        SameAt(s.sw, sw1, k) && SameAt(sw1, sw2, k) && SameAt(sw2, sw3, k) && SameAt(sw3, sw4, k);
    }
  }

  /** Every legal step keeps the controller and the switch together. */
  lemma SysStep(s: System, op: Op)
    requires SysOk(s) && Legal(s, op)
    ensures SysOk(Step(s, op))
    ensures op.Populate? ==> Quiet(Step(s, op).l) && Quiet(Step(s, op).p)
  {
    match op
    case SwitchTables(h) => SwitchHalf(Half(s, h), s.sw);
    case AddOflow(h, k, acts, cookie, uuid) => AddStep(s, h, k, acts, cookie, uuid);
    case RemoveOflows(h, uuid) => RemoveStep(s, h, uuid);
    case Populate(ol, op_) => PopulateStep(s, ol, op_);
  }

  /** Every legal step keeps the controller and the switch together, and moves
      the live requests exactly as it moves the reference. */
  lemma StepOk(s: System, gl: Goal, gp: Goal, op: Op)
    requires SysOk(s) && Tracks(s, gl, gp) && Legal(s, op)
    ensures SysOk(Step(s, op)) && Tracks(Step(s, op), GoalStep(gl, true, op), GoalStep(gp, false, op))
    ensures op.Populate? ==> Quiet(Step(s, op).l) && Quiet(Step(s, op).p)
  {
    match op
    case SwitchTables(h) =>
      SwitchHalf(Half(s, h), s.sw);
      SwitchAgree(Half(s, h));
    case AddOflow(h, k, acts, cookie, uuid) =>
      AddStep(s, h, k, acts, cookie, uuid);
      AddAgree(Half(s, h), if h then gl else gp, k, acts, cookie, uuid);
    case RemoveOflows(h, uuid) =>
      RemoveStep(s, h, uuid);
      RemoveAgree(Half(s, h), if h then gl else gp, uuid);
    case Populate(ol, op_) =>
      PopulateStep(s, ol, op_);
  }

  // ---------- Whole runs ----------

  const INITIAL := System(EMPTY_TABLE, EMPTY_TABLE, map[])

  ghost predicate LegalRun(s: System, ops: seq<Op>)
    decreases |ops|
  {
    ops == [] || (Fit(s) && Legal(s, ops[0]) && LegalRun(Step(s, ops[0]), ops[1..]))
  }

  ghost function Run(s: System, ops: seq<Op>): System
    requires LegalRun(s, ops)
    decreases |ops|
  {
    if ops == [] then s else Run(Step(s, ops[0]), ops[1..])
  }

  ghost function GoalRun(g: Goal, logical: bool, ops: seq<Op>): Goal
    decreases |ops|
  {
    if ops == [] then g else GoalRun(GoalStep(g, logical, ops[0]), logical, ops[1..])
  }

  lemma {:induction false} RunOk(s: System, gl: Goal, gp: Goal, ops: seq<Op>)
    requires SysOk(s) && Tracks(s, gl, gp) && LegalRun(s, ops)
    ensures var s' := Run(s, ops); SysOk(s') && Tracks(s', GoalRun(gl, true, ops), GoalRun(gp, false, ops))
    ensures ops != [] && ops[|ops| - 1].Populate? ==> Quiet(Run(s, ops).l) && Quiet(Run(s, ops).p)
    decreases |ops|
  {
    hide SysOk, Tracks, Legal, Step, Quiet;
    if ops != [] {
      StepOk(s, gl, gp, ops[0]);
      RunOk(Step(s, ops[0]), GoalStep(gl, true, ops[0]), GoalStep(gp, false, ops[0]), ops[1..]);
      assert |ops| > 1 ==> ops[1..][|ops| - 2] == ops[|ops| - 1];
    }
  }

  lemma InitialOk()
    ensures SysOk(INITIAL) && Tracks(INITIAL, map[], map[])
  {
    assert forall k, id: nat, u :: !Held(EMPTY_TABLE, k, id, u) && !Pointed(EMPTY_TABLE.uuidActs, k, id, u);
  }

  lemma EffectiveLive(f: Flow)
    requires Effective(f).Some? && forall a :: a in ActSet(f) ==> !a.stale
    ensures Live(f) != NOTHING
  {
    if f.normal.Some? {
      assert f.normal.value in ActSet(f);
    } else {
      var a := if f.allow != [] then f.allow[0] else if f.drop != [] then f.drop[0] else f.conj[0];
      assert a in f.allow || a in f.drop || a in f.conj;
      assert a in ActSet(f) && (a.uuid, a.acts) in Live(f).others;
    }
  }

  /** In every state of every legal run the two indexes agree, every flow is on
      exactly one generation list, and stale actions are due for a visit. */
  lemma IndexesAgree(ops: seq<Op>)
    requires LegalRun(INITIAL, ops)
    ensures TableOk(Run(INITIAL, ops).l) && TableOk(Run(INITIAL, ops).p)
  {
    InitialOk();
    RunOk(INITIAL, map[], map[], ops);
  }

  /** The part that no caller answers for: the indexes agree, every flow is on exactly
      one list, and what is due for a visit is there. */
  ghost predicate Sound(s: System) {
    Fit(s) && s.l.modified <= s.l.flows.Keys && s.p.modified <= s.p.flows.Keys
  }

  /** Any calls in any order; only a populate has to walk its modified sets. */
  ghost predicate AnyRun(s: System, ops: seq<Op>)
    decreases |ops|
  {
    ops == [] || (Fit(s) ==> (ops[0].Populate? ==> Legal(s, ops[0])) && AnyRun(Step(s, ops[0]), ops[1..]))
  }

  ghost predicate AllSound(s: System, ops: seq<Op>)
    decreases |ops|
  {
    Sound(s) && (ops == [] || AllSound(Step(s, ops[0]), ops[1..]))
  }

  lemma PopulateCore(t: Table, order: seq<Key>)
    requires CoreOk(t) && t.modified <= t.flows.Keys && OldListed(t) && TwoLists(PopulateOld(t))
    requires Enumerates(order, PopulateOld(t).modified)
    ensures CoreOk(PopulateModified(PopulateOld(t), order)) && PopulateModified(PopulateOld(t), order).modified == {}
  {
    hide Linked, FlowOk, Visited;
    PopulateOldEffect(t);
    var t1 := PopulateOld(t);
    HandleAllEffect(t1, order);
    SameFlowsCore(HandleAll(t1, order), PopulateModified(t1, order));
  }

  lemma SoundStep(s: System, op: Op)
    requires Sound(s) && (op.Populate? ==> Legal(s, op))
    ensures Sound(Step(s, op))
  {
    hide Add, Remove, PopulateOld, PopulateModified, PopulateMsgs, Linked, Listed, FlowOk;
    match op
    case SwitchTables(h) => SwitchCore(Half(s, h));
    case AddOflow(h, k, acts, cookie, uuid) =>
      CoreLists(Half(s, h));
      AddCore(Half(s, h), k, acts, cookie, uuid);
      AddShape(Half(s, h), k, acts, cookie, uuid);
    case RemoveOflows(h, uuid) =>
      RemoveCore(Half(s, h), uuid);
      RemoveExact(Half(s, h), uuid);
    case Populate(ol, op_) =>
      FitPopulates(s.l);
      FitPopulates(s.p);
      PopulateCore(s.l, ol);
      PopulateCore(s.p, op_);
  }

  lemma CoreLists(t: Table)
    requires CoreOk(t)
    ensures TwoLists(t)
  {
  }

  lemma {:induction false} AnyRunSound(s: System, ops: seq<Op>)
    requires Sound(s) && AnyRun(s, ops)
    ensures AllSound(s, ops)
    decreases |ops|
  {
    hide Legal, Step, CoreOk;
    if ops != [] {
      SoundStep(s, ops[0]);
      AnyRunSound(Step(s, ops[0]), ops[1..]);
    }
  }

  /** Whatever is called in whatever order, two switches in a row and keys in both
      halves included, the two indexes agree in every state and every flow is on
      exactly one list.  Only the tracking of stale actions needs legal switches. */
  lemma AlwaysLinked(ops: seq<Op>)
    requires AnyRun(INITIAL, ops)
    ensures AllSound(INITIAL, ops)
  {
    InitialOk();
    AnyRunSound(INITIAL, ops);
  }

  lemma HalfIsTable(t: Table, sw: Switch)
    requires HalfOk(t, sw)
    ensures TableOk(t) && TwoLists(t)
  {
  }

  // ---------- The first flow ----------

  /** One logical flow is asked for and a populate puts it on the switch. */
  function FirstOps(k: Key, acts: Ofpacts, cookie: nat, uuid: Uuid): seq<Op> {
    [AddOflow(true, k, acts, cookie, uuid), Populate([k], [])]
  }

  function OneFlow(acts: Ofpacts, cookie: nat, uuid: Uuid): Flow {
    UpdateActions(EmptyFlow(0), Action(0, acts, cookie, uuid, false))
  }

  lemma OneFlowVisited(acts: Ofpacts, cookie: nat, uuid: Uuid)
    ensures var f := OneFlow(acts, cookie, uuid);
            && DeleteStale(f) == f && HasActions(Visited(f)) && Visited(f).list == 0
            && Visited(f) == f.(installed := acts, activeCookie := Effective(f).value.cookie)
            && Effective(f).Some? && Effective(f).value.acts == acts
            && (!IsConj(acts) || IsAllow(acts) || IsDrop(acts) ==> Effective(f).value.cookie == cookie)
  {
    var a := Action(0, acts, cookie, uuid, false);
    ClassesExclusive(acts);
    FilterAll([a], (b: Action) => !b.stale);
    assert [a][1..] == [] && acts + [] == acts;
    assert ConcatActs([a]) == acts + ConcatActs([]);
  }

  lemma FirstFlow(k: Key, acts: Ofpacts, cookie: nat, uuid: Uuid)
    ensures var ops := FirstOps(k, acts, cookie, uuid);
            && LegalRun(INITIAL, ops)
            && var s := Run(INITIAL, ops);
            && s.l.flows == map[k := Visited(OneFlow(acts, cookie, uuid))] && s.l.lists == [[k], []] && s.l.active == 0
            && s.l.modified == {} && s.p == EMPTY_TABLE && k in s.sw
  {
    hide Add, OneFlow, Visited, HalfOk, PopulateMsgs, PopulateModified, CoreOk, Quiet;
    var add, pop := AddOflow(true, k, acts, cookie, uuid), Populate([k], []);
    InitialOk();
    assert Fit(INITIAL) by { HalfIsTable(EMPTY_TABLE, map[]); }
    SysStep(INITIAL, add);
    var s1 := Step(INITIAL, add);
    HalfIsTable(s1.l, s1.sw);
    HalfIsTable(s1.p, s1.sw);
    FirstAdded(k, acts, cookie, uuid);
    assert Legal(s1, pop);
    SysStep(s1, pop);
    OneFlowVisited(acts, cookie, uuid);
    FirstVisited(s1.l, k, OneFlow(acts, cookie, uuid));
    TwoSteps(INITIAL, add, pop);
    var s2 := Step(s1, pop);
    assert s2.l == PopulateModified(s1.l, [k]) && s2.p == PopulateModified(EMPTY_TABLE, []);
    HalfRests(s2.l, s2.sw, k);
  }

  lemma HalfRests(t: Table, sw: Switch, k: Key)
    requires HalfOk(t, sw) && k in t.flows && t.flows[k].list == t.active && k !in t.modified && HasActions(t.flows[k])
    ensures k in sw
  {
  }

  lemma TwoSteps(s: System, a: Op, b: Op)
    requires Fit(s) && Legal(s, a) && Fit(Step(s, a)) && Legal(Step(s, a), b)
    ensures LegalRun(s, [a, b]) && Run(s, [a, b]) == Step(Step(s, a), b)
  {
    hide Legal, Step, CoreOk;
    var s1, ops := Step(s, a), [a, b];
    assert ops[1..] == [b] && [b][1..] == [];
    var s2 := Step(s1, b);
    assert LegalRun(s2, []) && LegalRun(s1, ops[1..]) && LegalRun(s, ops);
    assert Run(s1, ops[1..]) == Run(s2, []) == s2 && Run(s, ops) == s2;
  }

  lemma FirstAdded(k: Key, acts: Ofpacts, cookie: nat, uuid: Uuid)
    ensures var t := Add(EMPTY_TABLE, k, acts, cookie, uuid);
            && t.flows == map[k := OneFlow(acts, cookie, uuid)] && t.lists == [[k], []] && t.active == 0
            && t.modified == {k}
            && OldListed(t) && PopulateOld(t) == t
    ensures OldListed(EMPTY_TABLE) && PopulateOld(EMPTY_TABLE) == EMPTY_TABLE
  {
    assert MatchingAction(EmptyFlow(0), acts).None?;
    assert EMPTY_TABLE.lists[0] + [k] == [k];
  }

  lemma FirstVisited(t: Table, k: Key, f: Flow)
    requires TwoLists(t) && t.flows == map[k := f] && t.lists == [[k], []] && t.active == 0 && HasActions(Visited(f))
    ensures var t' := PopulateModified(t, [k]);
            t'.flows == map[k := Visited(f)] && t'.lists == t.lists && t'.active == 0 && t'.modified == {}
    ensures PopulateModified(EMPTY_TABLE, []) == EMPTY_TABLE
  {
    hide PrepareFlow, DeleteStale, HasActions;
    assert [k][1..] == [];
    var t1 := HandleModified(t, k);
    assert HandleAll(t, [k]) == HandleAll(t1, []) == t1;
    assert map[k := f][k := Visited(f)] == map[k := Visited(f)];
  }
}
