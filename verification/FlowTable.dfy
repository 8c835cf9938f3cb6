/** One half (logical or physical) of a bridge flow table: the match-keyed flow
    table, the uuid-to-action index, the two generation lists, stale marks and
    the modified set, with the effect of every operation on them.

    An action object is a value here, identified by the id it was allocated
    with; a pointer to it is a `Ref` (its flow's key and that id). */
module FlowTable {
  import opened Common
  import opened OpenFlow
  import opened Seqs

  const CONJ_ACT_COOKIE: nat := 0xFFFF_FFFF_FFFF_FFFF

  datatype Action = Action(id: nat, acts: Ofpacts, cookie: nat, uuid: Uuid, stale: bool)

  datatype Ref = Ref(key: Key, id: nat)

  /** `list` is the generation list the flow is on; `installed` and
      `activeCookie` record what was last sent to the switch. */
  datatype Flow = Flow(
    list: nat,
    normal: Option<Action>, allow: seq<Action>, drop: seq<Action>, conj: seq<Action>,
    installed: Ofpacts, activeCookie: nat)

  datatype Table = Table(
    flows: map<Key, Flow>,
    uuidActs: map<Uuid, seq<Ref>>,
    lists: seq<seq<Key>>,
    active: nat,
    modified: set<Key>,
    nextId: nat)

  const EMPTY_TABLE := Table(map[], map[], [[], []], 0, {}, 0)

  // ---------- Action classes ----------

  predicate IsDrop(acts: Ofpacts) { |acts| == 0 }

  predicate IsConj(acts: Ofpacts) { exists i :: 0 <= i < |acts| && acts[i].Conjunction? }

  predicate IsAllow(acts: Ofpacts) { !IsDrop(acts) && acts[0].Resubmit? && |acts| == 1 }

  predicate IsNormal(acts: Ofpacts) { !IsAllow(acts) && !IsDrop(acts) && !IsConj(acts) }

  // ---------- Actions of one flow ----------

  function Elems(s: seq<Action>): set<Action> { set a | a in s }

  /** Every action the flow holds, whichever of the four slots it is in. */
  function ActSet(f: Flow): set<Action> {
    (if f.normal.Some? then {f.normal.value} else {}) + Elems(f.allow) + Elems(f.drop) + Elems(f.conj)
  }

  /** The first action in the list with equal OpenFlow actions. */
  function FindActs(s: seq<Action>, acts: Ofpacts): (r: Option<Action>)
    ensures r.Some? ==> r.value in s && r.value.acts == acts
    ensures r.None? ==> forall a :: a in s ==> a.acts != acts
  {
    if s == [] then None
    else if s[0].acts == acts then Some(s[0])
    else FindActs(s[1..], acts)
  }

  function MatchingAction(f: Flow, acts: Ofpacts): Option<Action> {
    if f.normal.Some? && IsNormal(acts) && f.normal.value.acts == acts then f.normal
    else if IsAllow(acts) then FindActs(f.allow, acts)
    else if IsDrop(acts) then FindActs(f.drop, acts)
    else if IsConj(acts) then FindActs(f.conj, acts)
    else None
  }

  function RestaleSeq(s: seq<Action>, p: Action -> bool): seq<Action> {
    seq(|s|, i requires 0 <= i < |s| => s[i].(stale := p(s[i])))
  }

  /** Sets every stale mark anew; no action changes its place. */
  function Restale(f: Flow, p: Action -> bool): Flow {
    f.(normal := if f.normal.Some? then Some(f.normal.value.(stale := p(f.normal.value))) else None,
       allow := RestaleSeq(f.allow, p), drop := RestaleSeq(f.drop, p), conj := RestaleSeq(f.conj, p))
  }

  function InvalidateAll(f: Flow): Flow { Restale(f, (a: Action) => true) }

  /** Clears the stale mark of the action `id`, which keeps its list position. */
  function Unstale(f: Flow, id: nat): Flow { Restale(f, (a: Action) => a.stale && a.id != id) }

  /** A new normal action supersedes the old one; other actions are appended. */
  function UpdateActions(f: Flow, a: Action): Flow {
    if IsNormal(a.acts) then f.(normal := Some(a))
    else if IsAllow(a.acts) then f.(allow := f.allow + [a])
    else if IsDrop(a.acts) then f.(drop := f.drop + [a])
    else f.(conj := f.conj + [a])
  }

  /** Keeps the actions that satisfy `p`, in order. */
  function Keep(f: Flow, p: Action -> bool): Flow {
    f.(normal := if f.normal.Some? && !p(f.normal.value) then None else f.normal,
       allow := Filter(f.allow, p), drop := Filter(f.drop, p), conj := Filter(f.conj, p))
  }

  function UnrefAction(f: Flow, id: nat): Flow { Keep(f, (a: Action) => a.id != id) }

  function DeleteStale(f: Flow): Flow { Keep(f, (a: Action) => !a.stale) }

  function ClearActions(f: Flow): Flow { f.(normal := None, allow := [], drop := [], conj := []) }

  predicate HasActions(f: Flow) {
    f.normal.Some? || f.allow != [] || f.drop != [] || f.conj != []
  }

  // ---------- What a flow wants on the switch ----------

  function ConcatActs(s: seq<Action>): Ofpacts {
    if s == [] then [] else s[0].acts + ConcatActs(s[1..])
  }

  /** Normal before allow before drop before the conjunctions put together. */
  function Effective(f: Flow): Option<Entry> {
    if f.normal.Some? then Some(Entry(f.normal.value.acts, f.normal.value.cookie))
    else if f.allow != [] then Some(Entry(f.allow[0].acts, f.allow[0].cookie))
    else if f.drop != [] then Some(Entry(f.drop[0].acts, f.drop[0].cookie))
    else if f.conj != [] then Some(Entry(ConcatActs(f.conj), CONJ_ACT_COOKIE))
    else None
  }

  predicate NeedsFlowMod(f: Flow, e: Entry) {
    if |f.installed| != |e.acts| then true
    else if |f.installed| != 0 && |e.acts| != 0 then f.installed != e.acts
    else f.activeCookie == 0
  }

  /** The messages for one flow. */
  function PrepareMsgs(k: Key, f: Flow): seq<FlowMod> {
    match Effective(f)
    case None => [DeleteStrict(k)]
    case Some(e) =>
      if !NeedsFlowMod(f, e) then []
      else if f.activeCookie == 0 then [AddFlow(k, e.acts, e.cookie)]
      else if f.activeCookie != e.cookie then [AddFlow(k, e.acts, e.cookie)]
      else [ModifyStrict(k, e.acts)]
  }

  /** The flow once those messages are queued. */
  function PrepareFlow(f: Flow): Flow {
    match Effective(f)
    case None => f.(installed := [], activeCookie := 0)
    case Some(e) =>
      if NeedsFlowMod(f, e) then f.(installed := e.acts, activeCookie := e.cookie) else f
  }

  // ---------- Table operations ----------

  function Old(t: Table): nat { if t.active == 0 then 1 else 0 }

  ghost predicate TwoLists(t: Table) { |t.lists| == 2 && t.active < 2 }

  function RefsOf(k: Key, acts: set<Action>): set<Ref> { set a | a in acts :: Ref(k, a.id) }

  function Unlink(idx: map<Uuid, seq<Ref>>, gone: set<Ref>): map<Uuid, seq<Ref>> {
    map u | u in idx :: Filter(idx[u], r => r !in gone)
  }

  function Link(idx: map<Uuid, seq<Ref>>, u: Uuid, r: Ref): map<Uuid, seq<Ref>> {
    idx[u := (if u in idx then idx[u] else []) + [r]]
  }

  function RemoveKey(s: seq<Key>, k: Key): seq<Key> { Filter(s, x => x != k) }

  /** Swaps the generation lists; nothing is pending any more. */
  function SwitchLists(t: Table): Table {
    t.(active := Old(t), modified := {})
  }

  function EmptyFlow(list: nat): Flow { Flow(list, None, [], [], [], [], 0) }

  predicate Moves(t: Table, k: Key) { k in t.flows && t.flows[k].list != t.active }

  /** The flow an add works on: moved to the active list, and with every action
      marked stale when it came from the other one. */
  function Touched(t: Table, k: Key): Flow {
    if k !in t.flows then EmptyFlow(t.active)
    else
      var f := t.flows[k].(list := t.active);
      if Moves(t, k) then InvalidateAll(f) else f
  }

  function RequeuedLists(t: Table, k: Key): seq<seq<Key>>
    requires TwoLists(t)
  {
    var ls := if k in t.flows && t.flows[k].list < 2
              then t.lists[t.flows[k].list := RemoveKey(t.lists[t.flows[k].list], k)] else t.lists;
    ls[t.active := ls[t.active] + [k]]
  }

  predicate Known(t: Table, k: Key, acts: Ofpacts, uuid: Uuid) {
    var m := MatchingAction(Touched(t, k), acts);
    m.Some? && m.value.uuid == uuid
  }

  /** Adding an action the flow already has for that uuid: no longer stale, and
      due for a visit only if the flow changed lists. */
  function AddKnown(t: Table, k: Key, acts: Ofpacts): Table
    requires TwoLists(t) && MatchingAction(Touched(t, k), acts).Some?
  {
    var f := Touched(t, k);
    t.(lists := RequeuedLists(t, k),
       flows := t.flows[k := Unstale(f, MatchingAction(f, acts).value.id)],
       modified := if Moves(t, k) then t.modified + {k} else t.modified)
  }

  function Superseded(k: Key, f: Flow, acts: Ofpacts): set<Ref> {
    if IsNormal(acts) && f.normal.Some? then {Ref(k, f.normal.value.id)} else {}
  }

  function AddNew(t: Table, k: Key, acts: Ofpacts, cookie: nat, uuid: Uuid): Table
    requires TwoLists(t)
  {
    var f := Touched(t, k);
    var a := Action(t.nextId, acts, cookie, uuid, false);
    t.(lists := RequeuedLists(t, k),
       flows := t.flows[k := UpdateActions(f, a)],
       uuidActs := Link(Unlink(t.uuidActs, Superseded(k, f, acts)), uuid, Ref(k, a.id)),
       modified := t.modified + {k},
       nextId := t.nextId + 1)
  }

  /** Adds one action under a key. */
  function Add(t: Table, k: Key, acts: Ofpacts, cookie: nat, uuid: Uuid): Table
    requires TwoLists(t)
  {
    if Known(t, k, acts, uuid) then AddKnown(t, k, acts) else AddNew(t, k, acts, cookie, uuid)
  }

  function RemoveOne(t: Table, r: Ref): Table {
    if r.key in t.flows
    then t.(flows := t.flows[r.key := UnrefAction(t.flows[r.key], r.id)],
            modified := t.modified + {r.key})
    else t
  }

  /** Removes the actions a uuid's list points to, one after the other. */
  function RemoveWalk(t: Table, refs: seq<Ref>): Table
    decreases |refs|
  {
    if refs == [] then t else RemoveWalk(RemoveOne(t, refs[0]), refs[1..])
  }

  function Remove(t: Table, uuid: Uuid): Table {
    if uuid !in t.uuidActs then t
    else
      var t' := RemoveWalk(t, t.uuidActs[uuid]);
      t'.(uuidActs := t.uuidActs - {uuid})
  }

  /** Drops the flow `k` together with its actions. */
  function DropFlow(t: Table, k: Key): Table
    requires k in t.flows
  {
    t.(flows := t.flows - {k},
       uuidActs := Unlink(t.uuidActs, RefsOf(k, ActSet(t.flows[k]))),
       modified := t.modified - {k})
  }

  ghost predicate OldListed(t: Table) {
    TwoLists(t) && NoDup(t.lists[Old(t)]) && forall k :: k in t.lists[Old(t)] ==> k in t.flows
  }

  function PopOldFront(t: Table): Table
    requires OldListed(t) && t.lists[Old(t)] != []
  {
    var k := t.lists[Old(t)][0];
    DropFlow(t, k).(lists := t.lists[Old(t) := t.lists[Old(t)][1..]])
  }

  lemma PopOldFrontListed(t: Table)
    requires OldListed(t) && t.lists[Old(t)] != []
    ensures OldListed(PopOldFront(t))
  {
  }

  /** First half of a populate: every flow left on the old list goes. */
  function PopulateOld(t: Table): Table
    requires OldListed(t)
    decreases |t.lists[Old(t)]|
  {
    if t.lists[Old(t)] == [] then t
    else
      PopOldFrontListed(t);
      PopulateOld(PopOldFront(t))
  }

  function PopulateOldMsgs(t: Table): seq<FlowMod>
    requires OldListed(t)
    decreases |t.lists[Old(t)]|
  {
    if t.lists[Old(t)] == [] then []
    else
      var k := t.lists[Old(t)][0];
      PopOldFrontListed(t);
      PrepareMsgs(k, ClearActions(t.flows[k])) + PopulateOldMsgs(PopOldFront(t))
  }

  function StaleActs(f: Flow): set<Action> { set a | a in ActSet(f) && a.stale }

  /** One modified flow: stale actions go, messages are queued, and a flow left
      with no action is dropped from its list and from the table. */
  function HandleModified(t: Table, k: Key): Table
    requires TwoLists(t)
  {
    if k !in t.flows then t
    else
      var f := PrepareFlow(DeleteStale(t.flows[k]));
      var t1 := t.(uuidActs := Unlink(t.uuidActs, RefsOf(k, StaleActs(t.flows[k]))));
      if HasActions(f) then t1.(flows := t.flows[k := f])
      else
        t1.(flows := t.flows - {k},
            lists := if f.list < 2 then t.lists[f.list := RemoveKey(t.lists[f.list], k)] else t.lists)
  }

  function HandleModifiedMsgs(t: Table, k: Key): seq<FlowMod> {
    if k !in t.flows then [] else PrepareMsgs(k, DeleteStale(t.flows[k]))
  }

  function HandleAll(t: Table, order: seq<Key>): Table
    requires TwoLists(t)
    decreases |order|
  {
    if order == [] then t else HandleAll(HandleModified(t, order[0]), order[1..])
  }

  function HandleAllMsgs(t: Table, order: seq<Key>): seq<FlowMod>
    requires TwoLists(t)
    decreases |order|
  {
    if order == [] then []
    else HandleModifiedMsgs(t, order[0]) + HandleAllMsgs(HandleModified(t, order[0]), order[1..])
  }

  /** Second half of a populate.  `order` is the hash order in which the modified
      set happens to be walked. */
  function PopulateModified(t: Table, order: seq<Key>): Table
    requires TwoLists(t)
  {
    HandleAll(t, order).(modified := {})
  }

  ghost predicate Enumerates(order: seq<Key>, s: set<Key>) {
    NoDup(order) && forall k :: k in order <==> k in s
  }
}
