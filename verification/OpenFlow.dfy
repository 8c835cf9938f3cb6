/** The part of OpenFlow the bridge controller relies on: action lists, flow
    mods and the effect of a flow mod on the switch's flow table (section 6.4
    of the OpenFlow Switch Specification 1.5.1). */
module OpenFlow {

  /** Flow matches and flow uuids are only ever compared for equality. */
  type Match = int
  type Uuid = int

  /** One OpenFlow action.  Only resubmit and conjunction are told apart. */
  datatype Ofpact =
    | Resubmit(table: nat)
    | Conjunction(id: nat, clause: nat, nClauses: nat)
    | Other(code: nat)

  type Ofpacts = seq<Ofpact>

  type TableId = x: nat | x < 0x100
  type Priority = x: nat | x < 0x1_0000

  datatype Key = Key(table: TableId, priority: Priority, match_: Match)

  datatype FlowMod =
    | AddFlow(key: Key, acts: Ofpacts, cookie: nat)
    | ModifyStrict(key: Key, acts: Ofpacts)
    | DeleteStrict(key: Key)

  datatype Entry = Entry(acts: Ofpacts, cookie: nat)

  type Switch = map<Key, Entry>

  /** An add replaces whatever the key held; a strict modify rewrites the
      actions and keeps the cookie, and does nothing to an absent key. */
  function Apply(sw: Switch, m: FlowMod): Switch {
    match m
    case AddFlow(k, acts, cookie) => sw[k := Entry(acts, cookie)]
    case ModifyStrict(k, acts) => if k in sw then sw[k := sw[k].(acts := acts)] else sw
    case DeleteStrict(k) => sw - {k}
  }

  function ApplyAll(sw: Switch, ms: seq<FlowMod>): Switch
    decreases |ms|
  {
    if ms == [] then sw else ApplyAll(Apply(sw, ms[0]), ms[1..])
  }

  lemma {:induction false} ApplyAllConcat(sw: Switch, a: seq<FlowMod>, b: seq<FlowMod>)
    ensures ApplyAll(sw, a + b) == ApplyAll(ApplyAll(sw, a), b)
    decreases |a|
  {
    if a == [] {
      assert a + b == b;
    } else {
      assert (a + b)[1..] == a[1..] + b;
      ApplyAllConcat(Apply(sw, a[0]), a[1..], b);
    }
  }

  /** Flow mods touch only the keys they name. */
  lemma {:induction false} ApplyAllFrame(sw: Switch, ms: seq<FlowMod>, k: Key)
    requires forall m :: m in ms ==> m.key != k
    ensures k in ApplyAll(sw, ms) <==> k in sw
    ensures k in sw ==> ApplyAll(sw, ms)[k] == sw[k]
    decreases |ms|
  {
    if ms != [] {
      assert ms[0] in ms;
      ApplyAllFrame(Apply(sw, ms[0]), ms[1..], k);
    }
  }
}
