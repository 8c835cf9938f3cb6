/** The bridge flow manager (ovn/br-controller/br-flow-mgr.c) itself: the tables
    changed in place, operation by operation.  Lookups and the walks over a list, a uuid's
    references and the modified flows are loops; what is done to the actions of one
    flow -- marking, deleting and unlinking them -- are the functions of FlowTable. */
module FlowManager {
  import opened Common
  import opened OpenFlow
  import opened Seqs
  import opened FlowTable
  import opened FlowIndex
  import opened FlowRefinement
  import opened Words

  // ---------- Lookup by hash ----------

  /** A lookup compares the hash, the priority and the match, not the table. */
  predicate SameSlot(hash: Key -> Word, a: Key, b: Key) {
    hash(a) == hash(b) && a.priority == b.priority && a.match_ == b.match_
  }

  /** The hash tells apart the tables of a match and priority. */
  ghost predicate Separates(hash: Key -> Word) {
    forall a, b :: SameSlot(hash, a, b) ==> a == b
  }

  method Lookup(flows: map<Key, Flow>, hash: Key -> Word, k: Key) returns (r: Option<Key>)
    ensures r.Some? ==> r.value in flows && SameSlot(hash, r.value, k)
    ensures r.None? ==> forall c :: c in flows ==> !SameSlot(hash, c, k)
  {
    var bucket := flows.Keys;
    while bucket != {}
      invariant bucket <= flows.Keys
      invariant forall c :: c in flows && c !in bucket ==> !SameSlot(hash, c, k)
      decreases |bucket|
    {
      var c :| c in bucket;
      if SameSlot(hash, c, k) { return Some(c); }
      bucket := bucket - {c};
    }
    return None;
  }

  /** What a lookup may answer. */
  ghost predicate LookupAnswer(flows: map<Key, Flow>, hash: Key -> Word, k: Key, r: Option<Key>) {
    if r.Some? then r.value in flows && SameSlot(hash, r.value, k)
    else forall c :: c in flows ==> !SameSlot(hash, c, k)
  }

  /** A lookup finds the flow of the key it is given, and no other, in every table
      iff the hash separates the tables. */
  lemma LookupExact(hash: Key -> Word)
    ensures Separates(hash) <==>
      forall flows: map<Key, Flow>, k, r ::
        LookupAnswer(flows, hash, k, r) ==> r == if k in flows then Some(k) else None
  {
    if !Separates(hash) {
      var a, b :| SameSlot(hash, a, b) && a != b;
      var flows := map[a := EmptyFlow(0)];
      assert LookupAnswer(flows, hash, b, Some(a)) && b !in flows;
    }
  }

  // ---------- Walks over one action list ----------

  method FindMatching(s: seq<Action>, acts: Ofpacts) returns (r: Option<Action>)
    ensures r == FindActs(s, acts)
  {
    var i := 0;
    while i < |s|
      invariant 0 <= i <= |s|
      invariant FindActs(s, acts) == FindActs(s[i..], acts)
    {
      if s[i].acts == acts { return Some(s[i]); }
      i := i + 1;
    }
    return None;
  }

  method ConcatConj(s: seq<Action>) returns (acts: Ofpacts)
    ensures acts == ConcatActs(s)
  {
    acts := [];
    var i := 0;
    while i < |s|
      invariant 0 <= i <= |s|
      invariant acts + ConcatActs(s[i..]) == ConcatActs(s)
    {
      assert s[i..][1..] == s[i + 1..];
      acts := acts + s[i].acts;
      i := i + 1;
    }
  }

  /** Which action the flow would have on the switch, as the program picks it. */
  method PickAction(f: Flow) returns (e: Option<Entry>)
    ensures e == Effective(f)
  {
    if f.normal.Some? {
      e := Some(Entry(f.normal.value.acts, f.normal.value.cookie));
    } else if f.allow != [] {
      e := Some(Entry(f.allow[0].acts, f.allow[0].cookie));
    } else if f.drop != [] {
      e := Some(Entry(f.drop[0].acts, f.drop[0].cookie));
    } else if f.conj != [] {
      var acts := ConcatConj(f.conj);
      e := Some(Entry(acts, CONJ_ACT_COOKIE));
    } else {
      e := None;
    }
  }

  /** Queues the messages that bring the switch from what is installed to what is
      wanted, and remembers what was sent. */
  method PrepareOfmsg(k: Key, f: Flow) returns (f': Flow, msgs: seq<FlowMod>)
    ensures f' == PrepareFlow(f) && msgs == PrepareMsgs(k, f)
  {
    var e := PickAction(f);
    f', msgs := f, [];
    if e.Some? {
      if NeedsFlowMod(f, e.value) {
        if f.activeCookie == 0 {
          msgs := [AddFlow(k, e.value.acts, e.value.cookie)];
        } else if f.activeCookie != e.value.cookie {
          msgs := [AddFlow(k, e.value.acts, e.value.cookie)];
        } else {
          msgs := [ModifyStrict(k, e.value.acts)];
        }
        f' := f.(installed := e.value.acts, activeCookie := e.value.cookie);
      }
    } else {
      msgs := [DeleteStrict(k)];
      f' := f.(installed := [], activeCookie := 0);
    }
  }

  // ---------- One half ----------

  class OvnFlowTable {
    const hash: Key -> Word
    var flows: map<Key, Flow>
    var uuidActs: map<Uuid, seq<Ref>>
    var lists: seq<seq<Key>>
    var active: nat
    var modified: set<Key>
    var nextId: nat

    ghost function State(): Table
      reads this
    {
      Table(flows, uuidActs, lists, active, modified, nextId)
    }

    constructor (hash: Key -> Word)
      ensures State() == EMPTY_TABLE && this.hash == hash
    {
      this.hash := hash;
      flows, uuidActs, lists, active, modified, nextId := map[], map[], [[], []], 0, {}, 0;
    }

    method SwitchTable()
      modifies this
      ensures State() == SwitchLists(old(State()))
    {
      active := if active == 0 then 1 else 0;
      modified := {};
    }

    method MatchAction(f: Flow, acts: Ofpacts) returns (r: Option<Action>)
      ensures r == MatchingAction(f, acts)
    {
      if f.normal.Some? && IsNormal(acts) && f.normal.value.acts == acts {
        return f.normal;
      }
      if IsAllow(acts) {
        r := FindMatching(f.allow, acts);
      } else if IsDrop(acts) {
        r := FindMatching(f.drop, acts);
      } else if IsConj(acts) {
        r := FindMatching(f.conj, acts);
      } else {
        r := None;
      }
    }

    /** Adds one action.  It goes to the flow `used` that the lookup finds, which
        is the flow of `k` when the hash separates the tables. */
    method AddOpenflow(k: Key, acts: Ofpacts, cookie: nat, uuid: Uuid) returns (used: Key)
      requires Listed(State())
      modifies this
      ensures SameSlot(hash, used, k) && (Separates(hash) ==> used == k)
      ensures State() == Add(old(State()), used, acts, cookie, uuid)
    {
      var found := Lookup(flows, hash, k);
      used := if found.Some? then found.value else k;
      var f: Flow;
      var changed := false;
      if found.None? {
        f := EmptyFlow(active);
      } else {
        f := flows[used];
        lists := lists[f.list := RemoveKey(lists[f.list], used)];
        changed := f.list != active;
        f := f.(list := active);
      }
      lists := lists[active := lists[active] + [used]];
      if changed { f := InvalidateAll(f); }
      assert f == Touched(old(State()), used) && lists == RequeuedLists(old(State()), used);
      var existing := MatchAction(f, acts);
      var push := true;
      if existing.Some? && existing.value.uuid == uuid {
        flows := flows[used := Unstale(f, existing.value.id)];
        if !changed { push := false; }
      } else {
        var a := Action(nextId, acts, cookie, uuid, false);
        nextId := nextId + 1;
        uuidActs := Link(Unlink(uuidActs, Superseded(used, f, acts)), uuid, Ref(used, a.id));
        flows := flows[used := UpdateActions(f, a)];
      }
      if push { modified := modified + {used}; }
    }

    method RemoveFlows(uuid: Uuid)
      modifies this
      ensures State() == Remove(old(State()), uuid)
    {
      if uuid !in uuidActs { return; }
      var acts := uuidActs[uuid];
      ghost var before := State();
      while acts != []
        invariant RemoveWalk(State(), acts) == RemoveWalk(before, before.uuidActs[uuid])
        invariant uuidActs == before.uuidActs
        decreases |acts|
      {
        var r := acts[0];
        acts := acts[1..];
        if r.key in flows {
          flows := flows[r.key := UnrefAction(flows[r.key], r.id)];
          modified := modified + {r.key};
        }
      }
      uuidActs := uuidActs - {uuid};
    }

    method PopOldFlow() returns (msgs: seq<FlowMod>)
      requires OldListed(State()) && lists[Old(State())] != []
      modifies this
      ensures State() == PopOldFront(old(State()))
      ensures msgs == (var t := old(State()); var k := t.lists[Old(t)][0]; PrepareMsgs(k, ClearActions(t.flows[k])))
    {
      var o := if active == 0 then 1 else 0;
      var k := lists[o][0];
      lists := lists[o := lists[o][1..]];
      var f := flows[k];
      var _, ms := PrepareOfmsg(k, ClearActions(f));
      msgs := ms;
      uuidActs := Unlink(uuidActs, RefsOf(k, ActSet(f)));
      flows := flows - {k};
      modified := modified - {k};
    }

    method PopulateOldFlows() returns (msgs: seq<FlowMod>)
      requires CoreOk(State())
      modifies this
      ensures OldListed(old(State()))
      ensures State() == PopulateOld(old(State())) && msgs == PopulateOldMsgs(old(State()))
      ensures CoreOk(State())
    {
      hide CoreOk, PopulateOld, PopulateOldMsgs, PopOldFront, PrepareMsgs;
      PopulateOldEffect(State());
      ghost var before := State();
      var o := if active == 0 then 1 else 0;
      msgs := [];
      while lists[o] != []
        invariant OldListed(State()) && o == Old(State())
        invariant PopulateOld(State()) == PopulateOld(before)
        invariant msgs + PopulateOldMsgs(State()) == PopulateOldMsgs(before)
        decreases |lists[o]|
      {
        PopulateOldUnfold(State());
        var ms := PopOldFlow();
        msgs := msgs + ms;
      }
      PopulateOldUnfold(State());
    }

    method HandleModifiedFlow(k: Key) returns (msgs: seq<FlowMod>)
      requires TwoLists(State()) && k in flows && flows[k].list < 2
      modifies this
      ensures State() == HandleModified(old(State()), k) && msgs == HandleModifiedMsgs(old(State()), k)
    {
      var f := flows[k];
      uuidActs := Unlink(uuidActs, RefsOf(k, StaleActs(f)));
      f, msgs := PrepareOfmsg(k, DeleteStale(f));
      if HasActions(f) {
        flows := flows[k := f];
      } else {
        flows := flows - {k};
        lists := lists[f.list := RemoveKey(lists[f.list], k)];
      }
    }

    /** The order in which the modified set is walked is the hash map's own. */
    method PopulateModifiedFlows() returns (msgs: seq<FlowMod>, ghost order: seq<Key>)
      requires CoreOk(State()) && modified <= flows.Keys
      modifies this
      ensures Enumerates(order, old(modified))
      ensures State() == PopulateModified(old(State()), order) && msgs == HandleAllMsgs(old(State()), order)
    {
      hide CoreOk, HandleAll, HandleAllMsgs, HandleModified, HandleModifiedMsgs;
      ghost var before := State();
      var todo := modified;
      order, msgs := [], [];
      NothingHandled(before);
      while todo != {}
        invariant todo <= before.modified && Enumerates(order, before.modified - todo)
        invariant State() == HandleAll(before, order) && msgs == HandleAllMsgs(before, order)
        decreases |todo|
      {
        var k :| k in todo;
        StillThere(before, order, k);
        var ms := HandleModifiedFlow(k);
        HandleAllSnoc(before, order, k);
        NoDupAppend(order, k);
        todo := todo - {k};
        order, msgs := order + [k], msgs + ms;
      }
      modified := {};
    }
  }

  lemma PopulateOldUnfold(t: Table)
    requires OldListed(t)
    ensures t.lists[Old(t)] == [] ==> PopulateOld(t) == t && PopulateOldMsgs(t) == []
    ensures t.lists[Old(t)] != [] ==>
              var k := t.lists[Old(t)][0];
              var t' := PopOldFront(t);
              && OldListed(t') && t'.active == t.active && |t'.lists[Old(t)]| < |t.lists[Old(t)]|
              && PopulateOld(t) == PopulateOld(t')
              && PopulateOldMsgs(t) == PrepareMsgs(k, ClearActions(t.flows[k])) + PopulateOldMsgs(t')
  {
    if t.lists[Old(t)] != [] { PopOldFrontListed(t); }
  }

  lemma StillThere(t: Table, order: seq<Key>, k: Key)
    requires CoreOk(t) && NoDup(order) && (forall x :: x in order ==> x in t.flows) && k in t.flows && k !in order
    ensures TwoLists(t) && TwoLists(HandleAll(t, order))
    ensures k in HandleAll(t, order).flows && HandleAll(t, order).flows[k].list < 2
  {
    HandleAllEffect(t, order);
  }

  lemma NothingHandled(t: Table)
    requires CoreOk(t)
    ensures TwoLists(t)
    ensures HandleAll(t, []) == t && HandleAllMsgs(t, []) == []
  {
  }

  lemma {:induction false} HandleAllSnoc(t: Table, order: seq<Key>, k: Key)
    requires TwoLists(t)
    ensures TwoLists(HandleAll(t, order))
    ensures HandleAll(t, order + [k]) == HandleModified(HandleAll(t, order), k)
    ensures HandleAllMsgs(t, order + [k]) == HandleAllMsgs(t, order) + HandleModifiedMsgs(HandleAll(t, order), k)
    decreases |order|
  {
    hide HandleModified, HandleModifiedMsgs;
    if order == [] {
      assert order + [k] == [k];
      OneHandled(t, k);
    } else {
      HandledTwoLists(t, order[0]);
      assert (order + [k])[0] == order[0] && (order + [k])[1..] == order[1..] + [k];
      HandleAllSnoc(HandleModified(t, order[0]), order[1..], k);
    }
  }

  lemma HandledTwoLists(t: Table, k: Key)
    requires TwoLists(t)
    ensures TwoLists(HandleModified(t, k))
  {
  }

  lemma OneHandled(t: Table, k: Key)
    requires TwoLists(t)
    ensures HandleAll(t, [k]) == HandleModified(t, k) && HandleAllMsgs(t, [k]) == HandleModifiedMsgs(t, k)
  {
    hide HandleModified, HandleModifiedMsgs;
    HandledTwoLists(t, k);
    assert [k][1..] == [];
    assert HandleAll(HandleModified(t, k), []) == HandleModified(t, k);
    assert HandleAllMsgs(HandleModified(t, k), []) == [];
  }

  // ---------- Both halves ----------

  class BrFlowTable {
    const lflows: OvnFlowTable
    const pflows: OvnFlowTable

    constructor (hash: Key -> Word)
      ensures fresh(lflows) && fresh(pflows) && lflows != pflows
      ensures lflows.State() == EMPTY_TABLE && pflows.State() == EMPTY_TABLE
    {
      lflows := new OvnFlowTable(hash);
      pflows := new OvnFlowTable(hash);
    }

    /** Both old lists first, then both modified sets. */
    method PopulateOflowMsgs() returns (msgs: seq<FlowMod>, ghost orderL: seq<Key>, ghost orderP: seq<Key>)
      requires lflows != pflows && TableOk(lflows.State()) && TableOk(pflows.State())
      modifies lflows, pflows
      ensures var s := System(old(lflows.State()), old(pflows.State()), map[]);
              && Fit(s) && Legal(s, Populate(orderL, orderP))
              && lflows.State() == Step(s, Populate(orderL, orderP)).l
              && pflows.State() == Step(s, Populate(orderL, orderP)).p
              && OldListed(s.l) && OldListed(s.p) && TwoLists(PopulateOld(s.l)) && TwoLists(PopulateOld(s.p))
              && msgs == PopulateMsgs(s.l, s.p, orderL, orderP)
    {
      hide CoreOk, PopulateOld, PopulateOldMsgs, HandleAllMsgs;
      ghost var l, p := lflows.State(), pflows.State();
      FitPopulates(l);
      FitPopulates(p);
      ModifiedListed(l);
      ModifiedListed(p);
      var oldL := lflows.PopulateOldFlows();
      var oldP := pflows.PopulateOldFlows();
      var modL, modP;
      modL, orderL := lflows.PopulateModifiedFlows();
      modP, orderP := pflows.PopulateModifiedFlows();
      msgs := oldL + oldP + modL + modP;
    }
  }

  lemma ModifiedListed(t: Table)
    requires TableOk(t)
    ensures OldListed(t) && PopulateOld(t).modified <= PopulateOld(t).flows.Keys
  {
    PopulateOldEffect(t);
  }
}
