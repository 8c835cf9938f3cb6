/** What every operation keeps: the two indexes agree, every flow is on exactly
    one generation list, and stale actions are always due for a visit. */
module FlowIndex {
  import opened Common
  import opened OpenFlow
  import opened Seqs
  import opened FlowTable

  /** Each action sits in the slot of its class. */
  ghost predicate Slotted(f: Flow) {
    && (f.normal.Some? ==> IsNormal(f.normal.value.acts))
    && (forall a :: a in f.allow ==> IsAllow(a.acts))
    && (forall a :: a in f.drop ==> IsDrop(a.acts))
    && (forall a :: a in f.conj ==> IsConj(a.acts))
  }

  ghost predicate NoDupIds(s: seq<Action>) {
    forall i, j :: 0 <= i < j < |s| ==> s[i].id != s[j].id
  }

  /** No action is in two places: not in two slots, not twice in one. */
  ghost predicate Distinct(f: Flow) {
    && (forall a, b :: a in ActSet(f) && b in ActSet(f) && a.id == b.id ==> a == b)
    && NoDupIds(f.allow) && NoDupIds(f.drop) && NoDupIds(f.conj)
  }

  ghost predicate FlowOk(f: Flow) { Slotted(f) && Distinct(f) }

  /** The identity and owner of every action the flow holds. */
  ghost function Tags(f: Flow): set<(nat, Uuid)> { set a | a in ActSet(f) :: (a.id, a.uuid) }

  ghost predicate Held(t: Table, k: Key, id: nat, u: Uuid) {
    k in t.flows && (id, u) in Tags(t.flows[k])
  }

  ghost predicate Pointed(idx: map<Uuid, seq<Ref>>, k: Key, id: nat, u: Uuid) {
    u in idx && Ref(k, id) in idx[u]
  }

  /** An action is on its uuid's list, once, iff its flow holds it. */
  ghost predicate Linked(t: Table) {
    && (forall k, id: nat, u :: Held(t, k, id, u) <==> Pointed(t.uuidActs, k, id, u))
    && (forall u :: u in t.uuidActs ==> NoDup(t.uuidActs[u]))
    && (forall k, id: nat, u :: Held(t, k, id, u) ==> id < t.nextId)
  }

  /** Every flow of the match table is on exactly one list, the one it names. */
  ghost predicate Listed(t: Table) {
    && TwoLists(t) && NoDup(t.lists[0]) && NoDup(t.lists[1])
    && (forall k :: k in t.lists[0] <==> k in t.flows && t.flows[k].list == 0)
    && (forall k :: k in t.lists[1] <==> k in t.flows && t.flows[k].list == 1)
    && (forall k :: k in t.flows ==> t.flows[k].list < 2)
  }

  /** A flow with a stale action is in the modified set or on the old list. */
  ghost predicate StaleTracked(t: Table) {
    forall k, a :: k in t.flows && a in ActSet(t.flows[k]) && a.stale
      ==> k in t.modified || t.flows[k].list == Old(t)
  }

  ghost predicate CoreOk(t: Table) {
    Listed(t) && Linked(t) && forall k :: k in t.flows ==> FlowOk(t.flows[k])
  }

  ghost predicate TableOk(t: Table) {
    CoreOk(t) && StaleTracked(t) && t.modified <= t.flows.Keys
  }

  // ---------- One flow ----------

  lemma ClassesExclusive(acts: Ofpacts)
    ensures IsNormal(acts) || IsAllow(acts) || IsDrop(acts) || IsConj(acts)
    ensures IsAllow(acts) ==> !IsConj(acts) && !IsDrop(acts)
    ensures IsConj(acts) ==> !IsDrop(acts)
  {
  }

  lemma RestaleElems(s: seq<Action>, p: Action -> bool)
    ensures Elems(RestaleSeq(s, p)) == set a | a in s :: a.(stale := p(a))
  {
    var r := RestaleSeq(s, p);
    forall a | a in s ensures a.(stale := p(a)) in r {
      var i :| 0 <= i < |s| && s[i] == a;
      assert r[i] in r;
    }
  }

  lemma RestaleActSet(f: Flow, p: Action -> bool)
    ensures ActSet(Restale(f, p)) == set a | a in ActSet(f) :: a.(stale := p(a))
  {
    RestaleElems(f.allow, p);
    RestaleElems(f.drop, p);
    RestaleElems(f.conj, p);
  }

  lemma RestaleKeeps(f: Flow, p: Action -> bool)
    requires FlowOk(f)
    ensures FlowOk(Restale(f, p)) && Tags(Restale(f, p)) == Tags(f)
  {
    var g := Restale(f, p);
    RestaleActSet(f, p);
    forall x | x in Tags(f) ensures x in Tags(g) {
      var b :| b in ActSet(f) && x == (b.id, b.uuid);
      assert b.(stale := p(b)) in ActSet(g);
    }
  }

  lemma KeepActSet(f: Flow, p: Action -> bool)
    ensures ActSet(Keep(f, p)) == set a | a in ActSet(f) && p(a)
  {
  }

  lemma {:induction false} FilterNoDupIds(s: seq<Action>, p: Action -> bool)
    requires NoDupIds(s)
    ensures NoDupIds(Filter(s, p))
  {
    if s != [] {
      FilterNoDupIds(s[1..], p);
      var r := Filter(s[1..], p);
      forall i | 0 <= i < |r| ensures r[i].id != s[0].id {
        assert r[i] in r && r[i] in s[1..];
      }
    }
  }

  lemma KeepKeeps(f: Flow, p: Action -> bool)
    requires FlowOk(f)
    ensures FlowOk(Keep(f, p))
    ensures Tags(Keep(f, p)) == set a | a in ActSet(f) && p(a) :: (a.id, a.uuid)
  {
    KeepActSet(f, p);
    FilterNoDupIds(f.allow, p);
    FilterNoDupIds(f.drop, p);
    FilterNoDupIds(f.conj, p);
  }

  lemma AppendElems(s: seq<Action>, a: Action)
    ensures Elems(s + [a]) == Elems(s) + {a}
  {
  }

  lemma UpdateActSet(f: Flow, a: Action)
    requires Slotted(f)
    ensures Slotted(UpdateActions(f, a))
    ensures ActSet(UpdateActions(f, a)) ==
            {a} + (if IsNormal(a.acts) && f.normal.Some? then ActSet(f) - {f.normal.value} else ActSet(f))
  {
    ClassesExclusive(a.acts);
    if IsNormal(a.acts) {
      if f.normal.Some? { ClassesExclusive(f.normal.value.acts); }
    } else if IsAllow(a.acts) {
      AppendElems(f.allow, a);
    } else if IsDrop(a.acts) {
      AppendElems(f.drop, a);
    } else {
      AppendElems(f.conj, a);
    }
  }

  lemma SnocIds(s: seq<Action>, a: Action)
    requires NoDupIds(s) && forall b :: b in s ==> b.id != a.id
    ensures NoDupIds(s + [a])
  {
  }

  lemma GrownIds(acts: set<Action>, acts': set<Action>, a: Action)
    requires forall b, c :: b in acts && c in acts && b.id == c.id ==> b == c
    requires acts' <= acts + {a} && forall b :: b in acts ==> b.id != a.id
    ensures forall b, c :: b in acts' && c in acts' && b.id == c.id ==> b == c
  {
  }

  lemma UpdateKeeps(f: Flow, a: Action)
    requires FlowOk(f) && forall b :: b in ActSet(f) ==> b.id != a.id
    ensures FlowOk(UpdateActions(f, a))
  {
    hide IsNormal, IsAllow, IsDrop, IsConj, NoDupIds;
    UpdateActSet(f, a);
    GrownIds(ActSet(f), ActSet(UpdateActions(f, a)), a);
    SnocIds(f.allow, a);
    SnocIds(f.drop, a);
    SnocIds(f.conj, a);
  }

  // ---------- The index under single changes ----------

  lemma UnlinkPointed(idx: map<Uuid, seq<Ref>>, gone: set<Ref>)
    ensures forall k, id: nat, u :: Pointed(Unlink(idx, gone), k, id, u) <==>
            Pointed(idx, k, id, u) && Ref(k, id) !in gone
  {
  }

  lemma UnlinkNoDup(idx: map<Uuid, seq<Ref>>, gone: set<Ref>)
    requires forall u :: u in idx ==> NoDup(idx[u])
    ensures forall u :: u in Unlink(idx, gone) ==> NoDup(Unlink(idx, gone)[u])
  {
    forall u | u in idx ensures NoDup(Unlink(idx, gone)[u]) {
      FilterNoDup(idx[u], r => r !in gone);
    }
  }

  /** Changing one flow without changing whose actions it holds. */
  lemma LinkedSameTags(t: Table, k: Key, f: Flow, t': Table)
    requires Linked(t)
    requires t'.flows == t.flows[k := f] && t'.uuidActs == t.uuidActs && t'.nextId == t.nextId
    requires Tags(f) == (if k in t.flows then Tags(t.flows[k]) else {})
    ensures Linked(t')
  {
    assert forall k', id: nat, u :: Held(t', k', id, u) <==> Held(t, k', id, u);
  }

  /** Taking actions out of one flow and, at the same time, off the index. */
  lemma LinkedShrink(t: Table, k: Key, gone: set<Action>, t': Table)
    requires Linked(t) && k in t.flows && Distinct(t.flows[k]) && gone <= ActSet(t.flows[k])
    requires t'.uuidActs == Unlink(t.uuidActs, RefsOf(k, gone)) && t'.nextId == t.nextId
    requires forall k' :: k' != k ==>
             (k' in t'.flows <==> k' in t.flows) && (k' in t.flows ==> t'.flows[k'] == t.flows[k'])
    requires k in t'.flows ==> ActSet(t'.flows[k]) == ActSet(t.flows[k]) - gone
    requires k !in t'.flows ==> gone == ActSet(t.flows[k])
    ensures Linked(t')
  {
    var f := t.flows[k];
    UnlinkPointed(t.uuidActs, RefsOf(k, gone));
    UnlinkNoDup(t.uuidActs, RefsOf(k, gone));
    forall k', id: nat, u
      ensures Held(t', k', id, u) <==> Held(t, k', id, u) && Ref(k', id) !in RefsOf(k, gone)
    {
      if k' == k {
        if Held(t', k, id, u) {
          var a :| a in ActSet(f) && a !in gone && (id, u) == (a.id, a.uuid);
          assert forall b :: b in gone && b.id == id ==> b == a;
        }
        if Held(t, k, id, u) && Ref(k, id) !in RefsOf(k, gone) {
          var a :| a in ActSet(f) && (id, u) == (a.id, a.uuid);
          assert a !in gone;
        }
      }
    }
  }

  /** Putting a newly allocated action into one flow and onto the index. */
  lemma LinkedGrow(t: Table, k: Key, a: Action, f: Flow, t': Table)
    requires Linked(t) && a.id == t.nextId
    requires t'.flows == t.flows[k := f] && t'.uuidActs == Link(t.uuidActs, a.uuid, Ref(k, a.id))
    requires t'.nextId == t.nextId + 1
    requires Tags(f) == (if k in t.flows then Tags(t.flows[k]) else {}) + {(a.id, a.uuid)}
    ensures Linked(t')
  {
    assert forall k', u :: !Held(t, k', a.id, u);
    assert a.uuid in t.uuidActs ==> Ref(k, a.id) !in t.uuidActs[a.uuid] by {
      assert !Pointed(t.uuidActs, k, a.id, a.uuid);
    }
    forall k', id: nat, u
      ensures Held(t', k', id, u) <==> Held(t, k', id, u) || (k' == k && id == a.id && u == a.uuid)
      ensures Pointed(t'.uuidActs, k', id, u) <==>
              Pointed(t.uuidActs, k', id, u) || (k' == k && id == a.id && u == a.uuid)
    {
    }
  }

  // ---------- Add ----------

  lemma TouchedOk(t: Table, k: Key)
    requires CoreOk(t)
    ensures FlowOk(Touched(t, k)) && Touched(t, k).list == t.active
    ensures Tags(Touched(t, k)) == if k in t.flows then Tags(t.flows[k]) else {}
  {
    if k in t.flows {
      var f := t.flows[k].(list := t.active);
      assert ActSet(f) == ActSet(t.flows[k]);
      RestaleKeeps(f, (a: Action) => true);
    }
  }

  lemma AddListed(t: Table, k: Key, f: Flow, t': Table)
    requires Listed(t) && f.list == t.active
    requires t'.flows == t.flows[k := f] && t'.lists == RequeuedLists(t, k) && t'.active == t.active
    ensures Listed(t')
  {
    var l := if k in t.flows then t.flows[k].list else t.active;
    FilterNoDup(t.lists[l], x => x != k);
    var ls := if k in t.flows then t.lists[l := RemoveKey(t.lists[l], k)] else t.lists;
    assert k !in ls[t.active];
    NoDupAppend(ls[t.active], k);
  }

  /** The parts of an add that do not depend on the kind of action. */
  lemma AddShape(t: Table, k: Key, acts: Ofpacts, cookie: nat, uuid: Uuid)
    requires TwoLists(t)
    ensures var t' := Add(t, k, acts, cookie, uuid);
            && k in t'.flows && t'.flows == t.flows[k := t'.flows[k]] && t'.flows[k].list == t.active
            && t'.lists == RequeuedLists(t, k) && t'.active == t.active
            && t.modified <= t'.modified <= t.modified + {k}
  {
  }

  /** The flow without the actions a new one supersedes, and those actions. */
  ghost function Room(f: Flow, acts: Ofpacts): Flow { if IsNormal(acts) then f.(normal := None) else f }

  ghost function Evicted(f: Flow, acts: Ofpacts): set<Action> {
    if IsNormal(acts) && f.normal.Some? then {f.normal.value} else {}
  }

  lemma RoomActs(f: Flow, acts: Ofpacts)
    requires Slotted(f)
    ensures ActSet(Room(f, acts)) == ActSet(f) - Evicted(f, acts)
  {
    if IsNormal(acts) && f.normal.Some? { ClassesExclusive(f.normal.value.acts); }
  }

  lemma UpdateTags(f: Flow, a: Action)
    requires Slotted(f)
    ensures Tags(UpdateActions(f, a)) == Tags(Room(f, a.acts)) + {(a.id, a.uuid)}
  {
    UpdateActSet(f, a);
    RoomActs(f, a.acts);
  }

  /** An action taken in place of the normal one, or next to the others. */
  lemma UpdateLinked(t: Table, k: Key, a: Action, t': Table)
    requires Linked(t) && k in t.flows && FlowOk(t.flows[k]) && a.id == t.nextId
    requires t'.flows == t.flows[k := UpdateActions(t.flows[k], a)] && t'.nextId == t.nextId + 1
    requires t'.uuidActs == Link(Unlink(t.uuidActs, Superseded(k, t.flows[k], a.acts)), a.uuid, Ref(k, a.id))
    ensures Linked(t')
  {
    var f := t.flows[k];
    var gone := Evicted(f, a.acts);
    var t1 := t.(flows := t.flows[k := Room(f, a.acts)], uuidActs := Unlink(t.uuidActs, RefsOf(k, gone)));
    RoomActs(f, a.acts);
    LinkedShrink(t, k, gone, t1);
    assert RefsOf(k, gone) == Superseded(k, f, a.acts);
    UpdateTags(f, a);
    LinkedGrow(t1, k, a, UpdateActions(f, a), t');
  }

  lemma AddKnownLinked(t: Table, k: Key, acts: Ofpacts)
    requires CoreOk(t) && MatchingAction(Touched(t, k), acts).Some?
    ensures Linked(AddKnown(t, k, acts)) && FlowOk(AddKnown(t, k, acts).flows[k])
  {
    var f := Touched(t, k);
    var id := MatchingAction(f, acts).value.id;
    TouchedOk(t, k);
    RestaleKeeps(f, (a: Action) => a.stale && a.id != id);
    LinkedSameTags(t, k, Unstale(f, id), AddKnown(t, k, acts));
  }

  lemma AddNewLinked(t: Table, k: Key, acts: Ofpacts, cookie: nat, uuid: Uuid)
    requires CoreOk(t)
    ensures Linked(AddNew(t, k, acts, cookie, uuid)) && FlowOk(AddNew(t, k, acts, cookie, uuid).flows[k])
  {
    hide ActSet, StaleTracked;
    var f := Touched(t, k);
    TouchedOk(t, k);
    var a := Action(t.nextId, acts, cookie, uuid, false);
    var t0 := t.(flows := t.flows[k := f]);
    LinkedSameTags(t, k, f, t0);
    forall b | b in ActSet(f) ensures b.id < t.nextId {
      assert Held(t0, k, b.id, b.uuid);
    }
    UpdateKeeps(f, a);
    UpdateLinked(t0, k, a, AddNew(t, k, acts, cookie, uuid));
  }

  lemma AddKnownStale(t: Table, k: Key, acts: Ofpacts)
    requires TableOk(t) && MatchingAction(Touched(t, k), acts).Some? && !Moves(t, k)
    ensures forall a :: a in ActSet(AddKnown(t, k, acts).flows[k]) && a.stale ==> k in t.modified
  {
    var f := Touched(t, k);
    var id := MatchingAction(f, acts).value.id;
    RestaleActSet(f, (a: Action) => a.stale && a.id != id);
    forall a | a in ActSet(Unstale(f, id)) && a.stale ensures k in t.modified {
      var b :| b in ActSet(f) && a == b.(stale := b.stale && b.id != id);
      assert k in t.flows && b in ActSet(t.flows[k]) && b.stale;
    }
  }

  lemma AddStaleTracked(t: Table, k: Key, acts: Ofpacts, cookie: nat, uuid: Uuid)
    requires TableOk(t)
    ensures StaleTracked(Add(t, k, acts, cookie, uuid))
  {
    AddShape(t, k, acts, cookie, uuid);
    if Known(t, k, acts, uuid) && !Moves(t, k) {
      AddKnownStale(t, k, acts);
    } else {
      assert k in Add(t, k, acts, cookie, uuid).modified;
    }
  }

  lemma AddCore(t: Table, k: Key, acts: Ofpacts, cookie: nat, uuid: Uuid)
    requires CoreOk(t)
    ensures CoreOk(Add(t, k, acts, cookie, uuid))
  {
    var t' := Add(t, k, acts, cookie, uuid);
    AddShape(t, k, acts, cookie, uuid);
    if Known(t, k, acts, uuid) { AddKnownLinked(t, k, acts); } else { AddNewLinked(t, k, acts, cookie, uuid); }
    AddListed(t, k, t'.flows[k], t');
  }

  lemma AddOk(t: Table, k: Key, acts: Ofpacts, cookie: nat, uuid: Uuid)
    requires TableOk(t)
    ensures TableOk(Add(t, k, acts, cookie, uuid))
  {
    AddCore(t, k, acts, cookie, uuid);
    AddShape(t, k, acts, cookie, uuid);
    AddStaleTracked(t, k, acts, cookie, uuid);
  }

  // ---------- Remove ----------

  lemma KeepExt(f: Flow, p: Action -> bool, q: Action -> bool)
    requires forall a :: a in ActSet(f) ==> p(a) == q(a)
    ensures Keep(f, p) == Keep(f, q)
  {
    FilterExt(f.allow, p, q);
    FilterExt(f.drop, p, q);
    FilterExt(f.conj, p, q);
  }

  lemma KeepTwice(f: Flow, p: Action -> bool, q: Action -> bool, r: Action -> bool)
    requires forall a :: a in ActSet(f) ==> r(a) == (p(a) && q(a))
    ensures Keep(Keep(f, p), q) == Keep(f, r)
  {
    FilterTwice(f.allow, p, q, r);
    FilterTwice(f.drop, p, q, r);
    FilterTwice(f.conj, p, q, r);
  }

  lemma KeepAll(f: Flow, p: Action -> bool)
    requires forall a :: a in ActSet(f) ==> p(a)
    ensures Keep(f, p) == f
  {
    FilterAll(f.allow, p);
    FilterAll(f.drop, p);
    FilterAll(f.conj, p);
  }

  ghost function NotIn(k: Key, refs: seq<Ref>): Action -> bool { (a: Action) => Ref(k, a.id) !in refs }

  lemma NotInStep(f: Flow, k: Key, refs: seq<Ref>)
    requires refs != []
    ensures k == refs[0].key ==> Keep(UnrefAction(f, refs[0].id), NotIn(k, refs[1..])) == Keep(f, NotIn(k, refs))
    ensures k != refs[0].key ==> Keep(f, NotIn(k, refs[1..])) == Keep(f, NotIn(k, refs))
  {
    if k == refs[0].key {
      KeepTwice(f, (a: Action) => a.id != refs[0].id, NotIn(k, refs[1..]), NotIn(k, refs));
    } else {
      KeepExt(f, NotIn(k, refs[1..]), NotIn(k, refs));
    }
  }

  /** The walk drops exactly the actions pointed to. */
  lemma {:induction false} RemoveWalkFlows(t: Table, refs: seq<Ref>, k: Key)
    requires k in t.flows
    ensures k in RemoveWalk(t, refs).flows && RemoveWalk(t, refs).flows[k] == Keep(t.flows[k], NotIn(k, refs))
    decreases |refs|
  {
    if refs == [] {
      KeepAll(t.flows[k], NotIn(k, refs));
    } else {
      RemoveWalkFlows(RemoveOne(t, refs[0]), refs[1..], k);
      NotInStep(t.flows[k], k, refs);
    }
  }

  lemma {:induction false} RemoveWalkRest(t: Table, refs: seq<Ref>)
    requires forall r :: r in refs ==> r.key in t.flows
    ensures var t' := RemoveWalk(t, refs);
            && t' == t.(flows := t'.flows, modified := t'.modified)
            && t'.flows.Keys == t.flows.Keys
            && t'.modified == t.modified + (set r | r in refs :: r.key)
    decreases |refs|
  {
    if refs != [] {
      assert refs[0] in refs;
      RemoveWalkRest(RemoveOne(t, refs[0]), refs[1..]);
      assert (set r | r in refs :: r.key) == {refs[0].key} + (set r | r in refs[1..] :: r.key);
    }
  }

  ghost function NotOf(u: Uuid): Action -> bool { (a: Action) => a.uuid != u }

  /** Removal by uuid, said without the index: every action of that uuid goes,
      wherever it is, and every flow that had one is due for a visit. */
  lemma RemoveExact(t: Table, u: Uuid)
    requires CoreOk(t)
    ensures var t' := Remove(t, u);
            && t'.flows.Keys == t.flows.Keys
            && (forall k :: k in t.flows ==> t'.flows[k] == Keep(t.flows[k], NotOf(u)))
            && (forall k :: k in t'.modified <==>
                  k in t.modified || (k in t.flows && exists a :: a in ActSet(t.flows[k]) && a.uuid == u))
            && t'.lists == t.lists && t'.active == t.active && t'.nextId == t.nextId
            && t'.uuidActs == t.uuidActs - {u}
  {
    if u in t.uuidActs {
      var refs := t.uuidActs[u];
      forall r | r in refs
        ensures r.key in t.flows && exists a :: a in ActSet(t.flows[r.key]) && a.uuid == u && a.id == r.id
      {
        assert Pointed(t.uuidActs, r.key, r.id, u);
        assert Held(t, r.key, r.id, u);
        var b :| b in ActSet(t.flows[r.key]) && (b.id, b.uuid) == (r.id, u);
      }
      RemoveWalkRest(t, refs);
      forall k | k in t.flows
        ensures Remove(t, u).flows[k] == Keep(t.flows[k], NotOf(u))
      {
        RemoveWalkFlows(t, refs, k);
        forall a | a in ActSet(t.flows[k]) ensures NotIn(k, refs)(a) == NotOf(u)(a) { OwnerOnly(t, k, a, u); }
        KeepExt(t.flows[k], NotIn(k, refs), NotOf(u));
      }
      forall k, a | k in t.flows && a in ActSet(t.flows[k]) && a.uuid == u
        ensures exists r :: r in refs && r.key == k
      {
        OwnerOnly(t, k, a, u);
        assert Ref(k, a.id) in refs;
      }
    } else {
      forall k | k in t.flows ensures t.flows[k] == Keep(t.flows[k], NotOf(u)) {
        forall a | a in ActSet(t.flows[k]) ensures NotOf(u)(a) { OwnerOnly(t, k, a, u); }
        KeepAll(t.flows[k], NotOf(u));
      }
      forall k, a | k in t.flows && a in ActSet(t.flows[k]) ensures a.uuid != u { OwnerOnly(t, k, a, u); }
    }
  }

  /** An action is pointed to from its own uuid's list and from no other. */
  lemma OwnerOnly(t: Table, k: Key, a: Action, u: Uuid)
    requires CoreOk(t) && k in t.flows && a in ActSet(t.flows[k])
    ensures a.uuid == u <==> Pointed(t.uuidActs, k, a.id, u)
  {
    assert Held(t, k, a.id, a.uuid);
    if Pointed(t.uuidActs, k, a.id, u) {
      assert Held(t, k, a.id, u);
      var b :| b in ActSet(t.flows[k]) && (b.id, b.uuid) == (a.id, u);
    }
  }

  /** Dropping every action of one uuid together with its list. */
  lemma LinkedWithout(t: Table, u: Uuid, t': Table)
    requires Linked(t) && t'.flows.Keys == t.flows.Keys && t'.nextId == t.nextId && t'.uuidActs == t.uuidActs - {u}
    requires forall k :: k in t.flows ==> Tags(t'.flows[k]) == set x | x in Tags(t.flows[k]) && x.1 != u
    ensures Linked(t')
  {
    hide Tags, NoDup;
    forall k, id: nat, v ensures Held(t', k, id, v) <==> Held(t, k, id, v) && v != u {
      if k in t.flows { assert (id, v) in Tags(t'.flows[k]) <==> (id, v) in Tags(t.flows[k]) && v != u; }
    }
    forall k, id: nat, v ensures Pointed(t'.uuidActs, k, id, v) <==> Pointed(t.uuidActs, k, id, v) && v != u {
    }
  }

  /** `g` is `f` with some actions gone. */
  ghost predicate Shrunk(f: Flow, g: Flow) {
    FlowOk(g) && ActSet(g) <= ActSet(f) && g.list == f.list
  }

  lemma KeepShrinks(f: Flow, p: Action -> bool)
    requires FlowOk(f)
    ensures Shrunk(f, Keep(f, p))
  {
    KeepKeeps(f, p);
    KeepActSet(f, p);
  }

  lemma ShrunkListed(t: Table, t': Table)
    requires Listed(t) && t'.flows.Keys == t.flows.Keys && t'.lists == t.lists && t'.active == t.active
    requires forall k :: k in t.flows ==> t'.flows[k].list == t.flows[k].list
    ensures Listed(t')
  {
  }

  lemma ShrunkStale(t: Table, t': Table)
    requires StaleTracked(t) && t'.flows.Keys == t.flows.Keys && t'.active == t.active && t.modified <= t'.modified
    requires forall k :: k in t.flows ==>
             ActSet(t'.flows[k]) <= ActSet(t.flows[k]) && t'.flows[k].list == t.flows[k].list
    ensures StaleTracked(t')
  {
  }

  lemma NotOfTags(f: Flow, u: Uuid)
    requires FlowOk(f)
    ensures Tags(Keep(f, NotOf(u))) == set x | x in Tags(f) && x.1 != u
  {
    KeepKeeps(f, NotOf(u));
  }

  lemma RemoveCore(t: Table, u: Uuid)
    requires CoreOk(t)
    ensures CoreOk(Remove(t, u))
    ensures forall k :: k in t.flows ==> k in Remove(t, u).flows && Shrunk(t.flows[k], Remove(t, u).flows[k])
  {
    var t' := Remove(t, u);
    RemoveExact(t, u);
    forall k | k in t.flows ensures Tags(t'.flows[k]) == set x | x in Tags(t.flows[k]) && x.1 != u {
      NotOfTags(t.flows[k], u);
    }
    LinkedWithout(t, u, t');
    forall k | k in t.flows ensures Shrunk(t.flows[k], t'.flows[k]) { KeepShrinks(t.flows[k], NotOf(u)); }
    ShrunkListed(t, t');
  }

  lemma RemoveOk(t: Table, u: Uuid)
    requires TableOk(t)
    ensures TableOk(Remove(t, u))
  {
    hide Linked, Listed, FlowOk, Keep, ActSet;
    RemoveCore(t, u);
    RemoveExact(t, u);
    ShrunkActs(t, Remove(t, u));
    ShrunkStale(t, Remove(t, u));
  }

  lemma ShrunkActs(t: Table, t': Table)
    requires t'.flows.Keys == t.flows.Keys && forall k :: k in t.flows ==> Shrunk(t.flows[k], t'.flows[k])
    ensures forall k :: k in t.flows ==>
              ActSet(t'.flows[k]) <= ActSet(t.flows[k]) && t'.flows[k].list == t.flows[k].list
  {
  }

  // ---------- Switch ----------

  lemma SwitchCore(t: Table)
    requires CoreOk(t)
    ensures CoreOk(SwitchLists(t))
  {
    assert forall k, id: nat, u :: Held(SwitchLists(t), k, id, u) <==> Held(t, k, id, u);
  }

  /** A switch of lists keeps all this when the old list holds no action. */
  lemma SwitchOk(t: Table)
    requires TableOk(t) && forall k :: k in t.lists[Old(t)] ==> ActSet(t.flows[k]) == {}
    ensures TableOk(SwitchLists(t))
  {
    SwitchCore(t);
    hide ActSet, Linked;
    forall k, a | k in t.flows && a in ActSet(t.flows[k]) ensures t.flows[k].list == t.active {
      assert k !in t.lists[Old(t)];
    }
  }

  // ---------- Populate ----------

  lemma DropListed(t: Table, k: Key, l: nat, t': Table)
    requires Listed(t) && k in t.flows && l == t.flows[k].list && t'.active == t.active && |t'.lists| == 2
    requires t'.flows == t.flows - {k}
    requires NoDup(t'.lists[l]) && t'.lists[1 - l] == t.lists[1 - l]
    requires forall x :: x in t'.lists[l] <==> x in t.lists[l] && x != k
    ensures Listed(t')
  {
  }

  lemma PopOldFrontOk(t: Table)
    requires CoreOk(t) && t.lists[Old(t)] != []
    ensures OldListed(t) && CoreOk(PopOldFront(t))
  {
    var k := t.lists[Old(t)][0];
    var t' := PopOldFront(t);
    assert k in t.lists[Old(t)];
    assert forall x :: x in t.lists[Old(t)][1..] <==> x in t.lists[Old(t)] && x != k;
    DropListed(t, k, Old(t), t');
    LinkedShrink(t, k, ActSet(t.flows[k]), t');
  }

  /** Populate's first loop empties the old list: the flows on it go, with their
      actions, and no other flow changes. */
  lemma {:induction false} PopulateOldEffect(t: Table)
    requires CoreOk(t)
    ensures OldListed(t) && CoreOk(PopulateOld(t))
    ensures var t' := PopulateOld(t);
            && t'.active == t.active && t'.lists[Old(t)] == []
            && (forall k :: k in t'.flows <==> k in t.flows && k !in t.lists[Old(t)])
            && (forall k :: k in t'.flows ==> t'.flows[k] == t.flows[k])
            && (forall k :: k in t'.modified <==> k in t.modified && k !in t.lists[Old(t)])
    decreases |t.lists[Old(t)]|
  {
    hide FlowOk, Linked, ActSet, Unlink;
    if t.lists[Old(t)] != [] {
      PopOldFrontOk(t);
      var k := t.lists[Old(t)][0];
      PopulateOldEffect(PopOldFront(t));
      assert forall x :: x in t.lists[Old(t)] <==> x == k || x in t.lists[Old(t)][1..];
    }
  }

  /** The flow a visit leaves behind, if it leaves one. */
  ghost function Visited(f: Flow): Flow { PrepareFlow(DeleteStale(f)) }

  lemma VisitedActs(f: Flow)
    requires FlowOk(f)
    ensures ActSet(Visited(f)) == ActSet(f) - StaleActs(f)
    ensures Shrunk(f, Visited(f))
    ensures !HasActions(Visited(f)) ==> StaleActs(f) == ActSet(f)
  {
    hide ActSet, Slotted, Distinct, HasActions;
    PreparedActs(DeleteStale(f));
    KeepShrinks(f, (a: Action) => !a.stale);
    KeepActSet(f, (a: Action) => !a.stale);
    StaleWithin(f);
    if !HasActions(Visited(f)) { NothingLeft(ActSet(f), StaleActs(f)); }
  }

  lemma StaleWithin(f: Flow)
    ensures StaleActs(f) <= ActSet(f)
  {
  }

  lemma NothingLeft(acts: set<Action>, stale: set<Action>)
    requires stale <= acts && acts - stale == {}
    ensures stale == acts
  {
    forall a | a in acts ensures a in stale { assert a !in acts - stale; }
  }

  lemma PreparedActs(f: Flow)
    ensures ActSet(PrepareFlow(f)) == ActSet(f) && PrepareFlow(f).list == f.list
    ensures FlowOk(f) ==> FlowOk(PrepareFlow(f))
    ensures !HasActions(PrepareFlow(f)) ==> ActSet(f) == {}
  {
    var g := PrepareFlow(f);
    assert g == f.(installed := g.installed, activeCookie := g.activeCookie);
  }

  lemma HandleModifiedOk(t: Table, k: Key)
    requires CoreOk(t) && k in t.flows
    ensures CoreOk(HandleModified(t, k))
    ensures var t' := HandleModified(t, k);
            && t'.active == t.active && t'.modified == t.modified
            && t'.flows == (if HasActions(Visited(t.flows[k])) then t.flows[k := Visited(t.flows[k])]
                            else t.flows - {k})
  {
    hide ActSet, Slotted, Distinct;
    var f := t.flows[k];
    var t' := HandleModified(t, k);
    VisitedActs(f);
    LinkedShrink(t, k, StaleActs(f), t');
    if HasActions(Visited(f)) {
      ShrunkListed(t, t');
    } else {
      FilterNoDup(t.lists[f.list], x => x != k);
      DropListed(t, k, f.list, t');
    }
  }

  /** Populate's second loop: each flow it walks is visited, in whatever order,
      and no other flow changes. */
  lemma {:induction false} HandleAllEffect(t: Table, order: seq<Key>)
    requires CoreOk(t) && NoDup(order) && forall k :: k in order ==> k in t.flows
    ensures CoreOk(HandleAll(t, order))
    ensures var t' := HandleAll(t, order);
            && t'.active == t.active && t'.modified == t.modified
            && (forall k :: k in t'.flows <==> k in t.flows && (k in order ==> HasActions(Visited(t.flows[k]))))
            && (forall k :: k in t'.flows ==> t'.flows[k] == if k in order then Visited(t.flows[k]) else t.flows[k])
    decreases |order|
  {
    hide FlowOk, Linked, ActSet, Visited, HasActions, HandleModified;
    if order != [] {
      assert order[0] in order;
      HandleModifiedOk(t, order[0]);
      assert forall x :: x in order <==> x == order[0] || x in order[1..];
      HandleAllEffect(HandleModified(t, order[0]), order[1..]);
    }
  }
}
