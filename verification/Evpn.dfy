/** EVPN reconciliation: remote tunnel endpoints become bindings, and bindings are
    gathered in one multicast group per network (ovn/controller/evpn-binding.c).
    A pointer to a binding or a group is the key under which it is stored. */
module Evpn {
  const MIN_EVPN_KEY: nat := 0x8000_0000
  const MAX_EVPN_KEY: nat := 0x8000_ffff
  const OFPP_NONE: nat := 0xffff

  datatype Key = Key(ip: nat, vni: nat)
  datatype Binding = Binding(uuid: nat, key: nat, ofport: nat, dp: nat, age: nat)
  datatype Group = Group(uuid: nat, members: set<Key>)
  datatype Vtep = Vtep(ip: nat, port: nat, vni: nat)
  datatype Datapath = Datapath(key: nat, age: nat)

  /** What a run is given.  Datapath keys start from 1, as the database schema has
      it. */
  datatype Input = Input(tunnels: map<nat, nat>, datapaths: map<nat, Datapath>, vteps: set<Vtep>)

  /** What is kept between runs: bindings, groups, the keys that are taken, and a
      bound that no uuid drawn so far reaches, since random uuids do not repeat. */
  datatype Tables = Tables(bs: map<Key, Binding>, gs: map<nat, Group>, keys: set<nat>, next: nat)

  /** What a run reports: keys of what is new or changed, uuids of what is gone. */
  datatype Delta = Delta(updated: set<Key>, removed: set<nat>, updatedGroups: set<nat>, removedGroups: set<nat>)

  const NO_TABLES := Tables(map[], map[], {}, 0)
  const NO_DELTA := Delta({}, {}, {}, {})

  ghost predicate InputOk(i: Input) {
    forall v :: v in i.datapaths ==> i.datapaths[v].key > 0
  }

  /** The endpoint has a tunnel and a datapath. */
  predicate Resolves(i: Input, v: Vtep) {
    v.port in i.tunnels && v.vni in i.datapaths
  }

  function KeyOf(v: Vtep): Key {
    Key(v.ip, v.vni)
  }

  predicate InRange(x: nat) {
    MIN_EVPN_KEY <= x <= MAX_EVPN_KEY
  }

  // ---- What holds between runs ----

  /** A group for each network that has a binding, and for no other; its members
      are the network's bindings. */
  ghost predicate GroupsExact(bs: map<Key, Binding>, gs: map<nat, Group>) {
    && (forall k :: k in bs ==> k.vni in gs)
    && (forall v :: v in gs ==> exists k :: k in bs && k.vni == v)
    && (forall v, k :: v in gs ==> (k in gs[v].members <==> k in bs && k.vni == v))
  }

  /** Binding keys are taken, and each held by one binding. */
  ghost predicate KeysUnique(bs: map<Key, Binding>, keys: set<nat>) {
    && (forall x :: x in keys ==> InRange(x))
    && (forall k :: k in bs ==> bs[k].key in keys)
    && (forall j, k :: j in bs && k in bs && bs[j].key == bs[k].key ==> j == k)
  }

  ghost predicate UuidsUnique(bs: map<Key, Binding>, gs: map<nat, Group>, next: nat) {
    && (forall k :: k in bs ==> bs[k].uuid < next)
    && (forall v :: v in gs ==> gs[v].uuid < next)
    && (forall j, k :: j in bs && k in bs && bs[j].uuid == bs[k].uuid ==> j == k)
    && (forall u, v :: u in gs && v in gs && gs[u].uuid == gs[v].uuid ==> u == v)
  }

  ghost predicate TablesOk(t: Tables) {
    GroupsExact(t.bs, t.gs) && KeysUnique(t.bs, t.keys) && UuidsUnique(t.bs, t.gs, t.next)
  }

  // ---- What a run promises ----

  /** The binding is as one of these endpoints asks. */
  ghost predicate Fits(i: Input, vteps: set<Vtep>, k: Key, b: Binding) {
    exists v :: v in vteps && v.port in i.tunnels && v.vni in i.datapaths && k == Key(v.ip, v.vni)
      && b.ofport == i.tunnels[v.port] && b.dp == i.datapaths[v.vni].key && b.age == i.datapaths[v.vni].age
  }

  ghost predicate Wanted(i: Input, vteps: set<Vtep>, k: Key) {
    exists v :: v in vteps && v.port in i.tunnels && v.vni in i.datapaths && k == Key(v.ip, v.vni)
  }

  /** Some endpoint asks for the binding otherwise than it is. */
  ghost predicate Differs(i: Input, vteps: set<Vtep>, k: Key, b: Binding) {
    exists v :: v in vteps && v.port in i.tunnels && v.vni in i.datapaths && k == Key(v.ip, v.vni)
      && !(b.ofport == i.tunnels[v.port] && b.dp == i.datapaths[v.vni].key && b.age == i.datapaths[v.vni].age)
  }

  ghost predicate Exhausted(keys: set<nat>) {
    forall x :: InRange(x) ==> x in keys
  }

  /** The keys that are taken are those taken before and, besides, those of the new
      bindings. */
  ghost predicate KeysGrown(t0: Tables, t: Tables) {
    && t0.keys <= t.keys
    && (forall k :: k in t.bs && k !in t0.bs ==> t.bs[k].key !in t0.keys)
    && (forall x :: x in t.keys && x !in t0.keys ==> exists k :: k in t.bs && k !in t0.bs && t.bs[k].key == x)
  }

  /** What is new has a uuid that was not drawn before. */
  ghost predicate NewFrom(t0: Tables, t: Tables) {
    && t0.next <= t.next
    && (forall k :: k in t.bs && k !in t0.bs ==> t.bs[k].uuid >= t0.next)
    && (forall v :: v in t.gs && v !in t0.gs ==> t.gs[v].uuid >= t0.next)
  }

  /** Bindings are those asked for, as asked, but for those that found no key. */
  ghost predicate BindingsRight(i: Input, t0: Tables, t: Tables) {
    && (forall k :: k in t.bs ==> Fits(i, i.vteps, k, t.bs[k]))
    && (forall k :: Wanted(i, i.vteps, k) && k !in t.bs ==> k !in t0.bs && Exhausted(t.keys))
  }

  ghost predicate BindingsKept(t0: Tables, t: Tables) {
    forall k :: k in t.bs && k in t0.bs ==> t.bs[k].key == t0.bs[k].key && t.bs[k].uuid == t0.bs[k].uuid
  }

  /** The deltas name all that is new, changed or gone, and nothing freed; a group
      changes with its members and with their data. */
  ghost predicate DeltaRight(t0: Tables, t: Tables, d: Delta) {
    && d.updated <= t.bs.Keys && d.updatedGroups <= t.gs.Keys
    && (forall k :: k in t.bs && (k !in t0.bs || t.bs[k] != t0.bs[k]) ==> k in d.updated)
    && d.removed == (set k | k in t0.bs && k !in t.bs :: t0.bs[k].uuid)
    && (forall v :: v in t.gs && (v !in t0.gs || t.gs[v] != t0.gs[v]) ==> v in d.updatedGroups)
    && (forall k :: k in d.updated ==> k.vni in d.updatedGroups)
    && (forall v :: v in t.gs && v in t0.gs ==> t.gs[v].uuid == t0.gs[v].uuid)
    && d.removedGroups == (set v | v in t0.gs && v !in t.gs :: t0.gs[v].uuid)
  }

  /** Nothing is reported needlessly: a binding that was there only if some endpoint
      asks for it otherwise, a group only with one of its bindings, reported or gone. */
  ghost predicate Sparing(i: Input, t0: Tables, t: Tables, d: Delta) {
    && (forall k :: k in d.updated && k in t0.bs ==> Differs(i, i.vteps, k, t0.bs[k]))
    && (forall v :: v in d.updatedGroups ==>
          (exists k :: k in d.updated && k.vni == v) || exists k :: k in t0.bs && k !in t.bs && k.vni == v)
  }

  /** One run takes the tables from t0 to t and reports d. */
  ghost predicate Ran(i: Input, t0: Tables, t: Tables, d: Delta) {
    && TablesOk(t) && BindingsRight(i, t0, t) && BindingsKept(t0, t)
    && KeysGrown(t0, t) && NewFrom(t0, t) && DeltaRight(t0, t, d) && Sparing(i, t0, t, d)
  }

  // ---- Midway through a run ----

  /** The tables before and now, the bindings some endpoint asked for, and what has
      been noted.  Nothing has been removed yet. */
  datatype Walk = Walk(t0: Tables, t: Tables, live: set<Key>, updated: set<Key>, updatedGroups: set<nat>)

  ghost predicate Bound(i: Input, vteps: set<Vtep>, w: Walk) {
    && w.t0.bs.Keys <= w.t.bs.Keys && w.live <= w.t.bs.Keys
    && (forall k :: k in w.t.bs && k !in w.live ==> k in w.t0.bs && w.t.bs[k] == w.t0.bs[k])
    && (forall k :: k in w.live ==> Fits(i, vteps, k, w.t.bs[k]))
    && (forall k :: k in w.t.bs && k in w.t0.bs ==>
          w.t.bs[k].key == w.t0.bs[k].key && w.t.bs[k].uuid == w.t0.bs[k].uuid)
    && (forall k :: Wanted(i, vteps, k) && k !in w.live ==> Exhausted(w.t.keys))
    && (forall k :: Wanted(i, vteps, k) && k in w.t.bs ==> k in w.live)
  }

  ghost predicate Told(w: Walk) {
    && w.updated <= w.live
    && (forall k :: k in w.live && k in w.t.bs && (k !in w.t0.bs || w.t.bs[k] != w.t0.bs[k]) ==> k in w.updated)
  }

  ghost predicate Touched(live: set<Key>, v: nat) {
    exists k :: k in live && k.vni == v
  }

  ghost predicate ToldGroups(w: Walk) {
    && (forall v :: v in w.updatedGroups ==> v in w.t.gs && Touched(w.live, v))
    && (forall v :: v in w.t.gs && (v !in w.t0.gs || w.t.gs[v] != w.t0.gs[v]) ==> v in w.updatedGroups)
    && (forall k :: k in w.updated ==> k.vni in w.updatedGroups)
    && (forall v :: v in w.t0.gs ==> v in w.t.gs && w.t.gs[v].uuid == w.t0.gs[v].uuid)
  }

  ghost predicate Spared(i: Input, done: set<Vtep>, w: Walk) {
    && (forall k :: k in w.updated && k in w.t0.bs ==> Differs(i, done, k, w.t0.bs[k]))
    && (forall v :: v in w.updatedGroups ==> exists k :: k in w.updated && k.vni == v)
  }

  ghost predicate Midway(i: Input, done: set<Vtep>, w: Walk) {
    && TablesOk(w.t) && Bound(i, done, w) && Told(w) && ToldGroups(w) && KeysGrown(w.t0, w.t) && NewFrom(w.t0, w.t)
    && Spared(i, done, w)
  }

  lemma MidwayStart(i: Input, t: Tables)
    requires TablesOk(t)
    ensures Midway(i, {}, Walk(t, t, {}, {}, {}))
  {
  }

  // ---- One endpoint ----

  /** The binding as the endpoint asks. */
  function Asked(i: Input, v: Vtep, b: Binding): Binding
    requires Resolves(i, v)
  {
    b.(ofport := i.tunnels[v.port], dp := i.datapaths[v.vni].key, age := i.datapaths[v.vni].age)
  }

  function WithMember(gs: map<nat, Group>, v: nat, uuid: nat, k: Key): map<nat, Group> {
    gs[v := if v in gs then gs[v].(members := gs[v].members + {k}) else Group(uuid, {k})]
  }

  /** The walk after the endpoint's binding has come to be b. */
  ghost function Placing(w: Walk, k: Key, b: Binding, uuid: nat, keys: set<nat>, next: nat): Walk {
    if k in w.t.bs && w.t.bs[k] == b then w.(live := w.live + {k}, t := w.t.(keys := keys, next := next))
    else
      Walk(w.t0, Tables(w.t.bs[k := b], WithMember(w.t.gs, k.vni, uuid, k), keys, next),
           w.live + {k}, w.updated + {k}, w.updatedGroups + {k.vni})
  }

  lemma GroupsStep(bs: map<Key, Binding>, gs: map<nat, Group>, k: Key, b: Binding, uuid: nat)
    requires GroupsExact(bs, gs)
    ensures GroupsExact(bs[k := b], WithMember(gs, k.vni, uuid, k))
  {
    var bs', gs' := bs[k := b], WithMember(gs, k.vni, uuid, k);
    forall v | v in gs' ensures exists j :: j in bs' && j.vni == v {
      if v != k.vni {
        var j :| j in bs && j.vni == v;
        assert j in bs';
      } else {
        assert k in bs';
      }
    }
  }

  lemma KeysStep(bs: map<Key, Binding>, keys: set<nat>, k: Key, b: Binding, keys': set<nat>)
    requires KeysUnique(bs, keys)
    requires if k in bs then b.key == bs[k].key && keys' == keys
             else InRange(b.key) && b.key !in keys && keys' == keys + {b.key}
    ensures KeysUnique(bs[k := b], keys')
  {
  }

  lemma KeysGrownStep(t0: Tables, t: Tables, k: Key, b: Binding, t': Tables)
    requires KeysGrown(t0, t) && t0.bs.Keys <= t.bs.Keys && t'.bs == t.bs[k := b]
    requires if k in t.bs then b.key == t.bs[k].key && t'.keys == t.keys
             else b.key !in t.keys && t'.keys == t.keys + {b.key}
    ensures KeysGrown(t0, t')
  {
    forall x | x in t'.keys && x !in t0.keys ensures exists j :: j in t'.bs && j !in t0.bs && t'.bs[j].key == x {
      if x in t.keys {
        var j :| j in t.bs && j !in t0.bs && t.bs[j].key == x;
        assert j in t'.bs && t'.bs[j].key == x;
      } else {
        assert k in t'.bs && t'.bs[k].key == x;
      }
    }
  }

  lemma UuidsStep(bs: map<Key, Binding>, gs: map<nat, Group>, next: nat, k: Key, b: Binding, uuid: nat, next': nat)
    requires UuidsUnique(bs, gs, next) && next <= next' && (k.vni !in gs ==> next <= uuid < next')
    requires if k in bs then b.uuid == bs[k].uuid else next <= b.uuid < next'
    ensures UuidsUnique(bs[k := b], WithMember(gs, k.vni, uuid, k), next')
  {
  }

  lemma BoundStep(i: Input, done: set<Vtep>, w: Walk, v: Vtep, b: Binding, w': Walk)
    requires Bound(i, done, w) && Resolves(i, v) && b == Asked(i, v, b)
    requires KeyOf(v) in w.t.bs ==> b.key == w.t.bs[KeyOf(v)].key && b.uuid == w.t.bs[KeyOf(v)].uuid
    requires w'.t0 == w.t0 && w'.t.bs == w.t.bs[KeyOf(v) := b]
    requires w.t.keys <= w'.t.keys && w'.live == w.live + {KeyOf(v)}
    ensures Bound(i, done + {v}, w')
  {
    var k := KeyOf(v);
    forall j | j in w'.live ensures Fits(i, done + {v}, j, w'.t.bs[j]) {
      if j == k {
        assert v in done + {v};
      } else {
        var u :| u in done && Resolves(i, u) && j == Key(u.ip, u.vni) && w.t.bs[j].ofport == i.tunnels[u.port]
          && w.t.bs[j].dp == i.datapaths[u.vni].key && w.t.bs[j].age == i.datapaths[u.vni].age;
        assert u in done + {v};
      }
    }
    forall j | Wanted(i, done + {v}, j) && j != k ensures Wanted(i, done, j) {
    }
  }

  /** An endpoint that does not resolve, or for which no key is left. */
  lemma BoundSkip(i: Input, done: set<Vtep>, w: Walk, v: Vtep)
    requires Bound(i, done, w)
    requires !Resolves(i, v) || (Exhausted(w.t.keys) && KeyOf(v) !in w.t.bs)
    ensures Bound(i, done + {v}, w)
  {
    forall j | j in w.live ensures Fits(i, done + {v}, j, w.t.bs[j]) {
      var u :| u in done && Resolves(i, u) && j == Key(u.ip, u.vni) && w.t.bs[j].ofport == i.tunnels[u.port]
        && w.t.bs[j].dp == i.datapaths[u.vni].key && w.t.bs[j].age == i.datapaths[u.vni].age;
      assert u in done + {v};
    }
    forall j | Wanted(i, done + {v}, j) ensures Wanted(i, done, j) || (j == KeyOf(v) && Resolves(i, v)) {
    }
  }

  lemma DiffersMore(i: Input, done: set<Vtep>, v: Vtep)
    ensures forall k, b :: Differs(i, done, k, b) ==> Differs(i, done + {v}, k, b)
  {
    forall k, b | Differs(i, done, k, b) ensures Differs(i, done + {v}, k, b) {
      var u :| u in done && u.port in i.tunnels && u.vni in i.datapaths && k == Key(u.ip, u.vni)
        && !(b.ofport == i.tunnels[u.port] && b.dp == i.datapaths[u.vni].key && b.age == i.datapaths[u.vni].age);
      assert u in done + {v};
    }
  }

  lemma SparedSkip(i: Input, done: set<Vtep>, w: Walk, v: Vtep)
    requires Spared(i, done, w)
    ensures Spared(i, done + {v}, w)
  {
    hide Differs;
    DiffersMore(i, done, v);
  }

  /** Whoever set the binding to what it is, or this endpoint, asks otherwise. */
  lemma SomeDiffers(i: Input, done: set<Vtep>, w: Walk, v: Vtep, b: Binding)
    requires Bound(i, done, w) && Resolves(i, v) && b == Asked(i, v, b)
    requires KeyOf(v) in w.t0.bs && b.key == w.t.bs[KeyOf(v)].key && b.uuid == w.t.bs[KeyOf(v)].uuid
    requires b != w.t.bs[KeyOf(v)]
    ensures Differs(i, done + {v}, KeyOf(v), w.t0.bs[KeyOf(v)])
  {
    var k := KeyOf(v);
    var was, now := w.t0.bs[k], w.t.bs[k];
    if now == was {
      assert v in done + {v};
    } else {
      assert k in w.live && Fits(i, done, k, now);
      var u :| u in done && u.port in i.tunnels && u.vni in i.datapaths && k == Key(u.ip, u.vni)
        && now.ofport == i.tunnels[u.port] && now.dp == i.datapaths[u.vni].key && now.age == i.datapaths[u.vni].age;
      assert u in done + {v};
    }
  }

  lemma SparedStep(i: Input, done: set<Vtep>, w: Walk, v: Vtep, b: Binding, uuid: nat, keys: set<nat>, next: nat)
    requires Spared(i, done, w) && Bound(i, done, w) && Resolves(i, v) && b == Asked(i, v, b)
    requires MayBecome(w, KeyOf(v), b, uuid, keys, next)
    ensures Spared(i, done + {v}, Placing(w, KeyOf(v), b, uuid, keys, next))
  {
    hide Differs, WithMember, Bound;
    var k, w' := KeyOf(v), Placing(w, KeyOf(v), b, uuid, keys, next);
    DiffersMore(i, done, v);
    BoundKeys(i, done, w);
    if k in w.t0.bs && b != w.t.bs[k] { SomeDiffers(i, done, w, v, b); }
    forall n | n in w'.updatedGroups ensures exists j :: j in w'.updated && j.vni == n {
      if n in w.updatedGroups {
        var j :| j in w.updated && j.vni == n;
        assert j in w'.updated;
      } else {
        assert k in w'.updated;
      }
    }
  }

  lemma ToldStep(w: Walk, k: Key, b: Binding, uuid: nat, keys: set<nat>, next: nat)
    requires Told(w) && w.live <= w.t.bs.Keys && w.t0.bs.Keys <= w.t.bs.Keys
    requires k in w.t.bs && k !in w.live ==> k in w.t0.bs && w.t.bs[k] == w.t0.bs[k]
    ensures Told(Placing(w, k, b, uuid, keys, next))
  {
  }

  lemma ToldGroupsStep(w: Walk, k: Key, b: Binding, uuid: nat, keys: set<nat>, next: nat)
    requires ToldGroups(w)
    ensures ToldGroups(Placing(w, k, b, uuid, keys, next))
  {
    forall v | Touched(w.live, v) ensures Touched(w.live + {k}, v) {
      var j :| j in w.live && j.vni == v;
      assert j in w.live + {k};
    }
    assert Touched(w.live + {k}, k.vni) by { assert k in w.live + {k}; }
  }

  lemma NewStep(t0: Tables, t: Tables, k: Key, b: Binding, uuid: nat, keys: set<nat>, next: nat)
    requires NewFrom(t0, t) && t.next <= next && (k.vni !in t.gs ==> t.next <= uuid)
    requires b.uuid >= if k in t.bs then t.bs[k].uuid else t.next
    ensures NewFrom(t0, Tables(t.bs[k := b], WithMember(t.gs, k.vni, uuid, k), keys, next))
  {
  }

  /** What finding or adding a binding, and then setting it, comes to. */
  ghost predicate MayBecome(w: Walk, k: Key, b: Binding, uuid: nat, keys: set<nat>, next: nat) {
    && w.t.next <= next
    && (if k in w.t.bs then b.key == w.t.bs[k].key && b.uuid == w.t.bs[k].uuid && keys == w.t.keys
        else w.t.next <= b.uuid < next && InRange(b.key) && b.key !in w.t.keys && keys == w.t.keys + {b.key})
    && (k.vni !in w.t.gs ==> w.t.next <= uuid < next)
  }

  lemma Placed(i: Input, done: set<Vtep>, w: Walk, v: Vtep, b: Binding, uuid: nat, keys: set<nat>, next: nat)
    requires Midway(i, done, w) && Resolves(i, v) && b == Asked(i, v, b) && MayBecome(w, KeyOf(v), b, uuid, keys, next)
    ensures Midway(i, done + {v}, Placing(w, KeyOf(v), b, uuid, keys, next))
  {
    hide GroupsExact, KeysUnique, UuidsUnique, Bound, Told, ToldGroups, KeysGrown, NewFrom, WithMember, Spared;
    var k := KeyOf(v);
    var w' := Placing(w, k, b, uuid, keys, next);
    SparedStep(i, done, w, v, b, uuid, keys, next);
    BoundKeys(i, done, w);
    ToldStep(w, k, b, uuid, keys, next);
    ToldGroupsStep(w, k, b, uuid, keys, next);
    assert w.t.bs[k := b] == w'.t.bs;
    BoundStep(i, done, w, v, b, w');
    if k in w.t.bs && w.t.bs[k] == b {
      SameTables(w.t0, w.t, next);
    } else {
      GroupsStep(w.t.bs, w.t.gs, k, b, uuid);
      KeysStep(w.t.bs, w.t.keys, k, b, keys);
      KeysGrownStep(w.t0, w.t, k, b, w'.t);
      UuidsStep(w.t.bs, w.t.gs, w.t.next, k, b, uuid, next);
      NewStep(w.t0, w.t, k, b, uuid, keys, next);
    }
  }

  lemma BoundKeys(i: Input, done: set<Vtep>, w: Walk)
    requires Bound(i, done, w)
    ensures w.t0.bs.Keys <= w.t.bs.Keys && w.live <= w.t.bs.Keys
    ensures forall k :: k in w.t.bs && k !in w.live ==> k in w.t0.bs && w.t.bs[k] == w.t0.bs[k]
  {
  }

  lemma SameTables(t0: Tables, t: Tables, next: nat)
    requires t.next <= next
    ensures UuidsUnique(t.bs, t.gs, t.next) ==> UuidsUnique(t.bs, t.gs, next)
    ensures KeysGrown(t0, t) ==> KeysGrown(t0, t.(next := next))
    ensures NewFrom(t0, t) ==> NewFrom(t0, t.(next := next))
  {
  }

  // ---- Removal ----

  ghost predicate Stale(t0: Tables, live: set<Key>, staleB: set<Key>, staleG: set<nat>) {
    && staleB == t0.bs.Keys - live
    && (forall v :: v in staleG <==> v in t0.gs && !Touched(live, v))
  }

  ghost function Networks(ks: set<Key>, vnis: set<nat>): set<nat> {
    set k | k in ks && k.vni in vnis :: k.vni
  }

  ghost function Uuids(ks: set<Key>, bs: map<Key, Binding>): set<nat> {
    set k | k in ks && k in bs :: bs[k].uuid
  }

  ghost function GroupUuids(vs: set<nat>, gs: map<nat, Group>): set<nat> {
    set v | v in vs && v in gs :: gs[v].uuid
  }

  /** A group holds only keys of its own network. */
  ghost predicate OwnMembers(gs: map<nat, Group>) {
    forall v, k :: v in gs && k in gs[v].members ==> k.vni == v
  }

  /** The same groups, without these members. */
  ghost predicate Less(gs1: map<nat, Group>, gs: map<nat, Group>, gone: set<Key>) {
    gs.Keys == gs1.Keys && forall v :: v in gs1 ==> gs[v] == gs1[v].(members := gs1[v].members - gone)
  }

  /** Stale groups go first, then stale bindings, each leaving its group if that is
      still there. */
  ghost predicate Swept(w: Walk, staleB: set<Key>, staleG: set<nat>, t: Tables, d: Delta) {
    && t.keys == w.t.keys && t.next == w.t.next && d.updated == w.updated
    && t.bs == w.t.bs - staleB && Less(w.t.gs - staleG, t.gs, staleB)
    && d.removedGroups == GroupUuids(staleG, w.t.gs) && d.removed == Uuids(staleB, w.t.bs)
    && d.updatedGroups == w.updatedGroups + Networks(staleB, t.gs.Keys)
  }

  /** What is left is what some endpoint asked for. */
  lemma LeftIsLive(i: Input, w: Walk, staleB: set<Key>, staleG: set<nat>, t: Tables, d: Delta)
    requires Bound(i, i.vteps, w) && ToldGroups(w) && GroupsExact(w.t.bs, w.t.gs)
    requires Stale(w.t0, w.live, staleB, staleG) && Swept(w, staleB, staleG, t, d)
    ensures t.bs.Keys == w.live
    ensures forall v :: v in t.gs <==> v in w.t.gs && Touched(w.live, v)
    ensures GroupsExact(t.bs, t.gs)
  {
    hide Fits, Wanted, Exhausted;
    forall k ensures k in t.bs <==> k in w.live {
    }
    forall v ensures v in t.gs <==> v in w.t.gs && Touched(w.live, v) {
      assert v in t.gs <==> v in w.t.gs - staleG;
      if v in w.t.gs && v !in w.t0.gs { assert v in w.updatedGroups; }
    }
    GroupsLeft(w, staleB, t);
  }

  lemma GroupsLeft(w: Walk, staleB: set<Key>, t: Tables)
    requires GroupsExact(w.t.bs, w.t.gs) && t.bs == w.t.bs - staleB && t.bs.Keys == w.live
    requires forall v :: v in t.gs <==> v in w.t.gs && Touched(w.live, v)
    requires forall v :: v in t.gs ==> t.gs[v].members == w.t.gs[v].members - staleB
    ensures GroupsExact(t.bs, t.gs)
  {
    forall k | k in t.bs ensures k.vni in t.gs {
      assert k in w.t.bs && Touched(w.live, k.vni);
    }
    forall v | v in t.gs ensures exists k :: k in t.bs && k.vni == v {
      var k :| k in w.live && k.vni == v;
      assert k in t.bs;
    }
    hide Touched;
    MembersLeft(w.t, staleB, t);
  }

  lemma MembersLeft(t1: Tables, staleB: set<Key>, t: Tables)
    requires GroupsExact(t1.bs, t1.gs) && t.bs == t1.bs - staleB && t.gs.Keys <= t1.gs.Keys
    requires forall v :: v in t.gs ==> t.gs[v].members == t1.gs[v].members - staleB
    ensures forall v, k :: v in t.gs ==> (k in t.gs[v].members <==> k in t.bs && k.vni == v)
  {
    forall v, k | v in t.gs ensures k in t.gs[v].members <==> k in t.bs && k.vni == v {
      assert k in t1.gs[v].members <==> k in t1.bs && k.vni == v;
    }
  }

  lemma BindingsTold(i: Input, w: Walk, staleB: set<Key>, t: Tables, d: Delta)
    requires Bound(i, i.vteps, w) && Told(w) && staleB == w.t0.bs.Keys - w.live
    requires t.bs == w.t.bs - staleB && t.bs.Keys == w.live && t.keys == w.t.keys
    requires d.updated == w.updated && d.removed == Uuids(staleB, w.t.bs)
    ensures BindingsRight(i, w.t0, t) && BindingsKept(w.t0, t)
    ensures d.updated <= t.bs.Keys
    ensures forall k :: k in t.bs && (k !in w.t0.bs || t.bs[k] != w.t0.bs[k]) ==> k in d.updated
    ensures d.removed == set k | k in w.t0.bs && k !in t.bs :: w.t0.bs[k].uuid
  {
    hide Fits, Wanted, Exhausted;
    forall k ensures (k in staleB && k in w.t.bs) <==> (k in w.t0.bs && k !in t.bs) {
    }
  }

  lemma GroupsTold(w: Walk, staleB: set<Key>, staleG: set<nat>, t: Tables, d: Delta)
    requires GroupsExact(w.t.bs, w.t.gs) && ToldGroups(w)
    requires forall v :: v in t.gs <==> v in w.t.gs && Touched(w.live, v)
    requires forall v :: v in t.gs ==> t.gs[v] == w.t.gs[v].(members := w.t.gs[v].members - staleB)
    requires forall v :: v in staleG <==> v in w.t0.gs && !Touched(w.live, v)
    requires d.updated == w.updated && d.updatedGroups == w.updatedGroups + Networks(staleB, t.gs.Keys)
    requires d.removedGroups == GroupUuids(staleG, w.t.gs)
    ensures d.updatedGroups <= t.gs.Keys
    ensures forall v :: v in t.gs && (v !in w.t0.gs || t.gs[v] != w.t0.gs[v]) ==> v in d.updatedGroups
    ensures forall k :: k in d.updated ==> k.vni in d.updatedGroups
    ensures forall v :: v in t.gs && v in w.t0.gs ==> t.gs[v].uuid == w.t0.gs[v].uuid
    ensures d.removedGroups == set v | v in w.t0.gs && v !in t.gs :: w.t0.gs[v].uuid
  {
    hide Touched;
    forall v | v in t.gs && v !in d.updatedGroups ensures v in w.t0.gs && t.gs[v] == w.t0.gs[v] {
      assert w.t.gs[v] == w.t0.gs[v];
      assert forall k :: k in w.t.gs[v].members ==> k.vni == v;
      assert forall k :: k in staleB && k.vni in t.gs ==> k.vni in Networks(staleB, t.gs.Keys);
      assert w.t.gs[v].members - staleB == w.t.gs[v].members;
    }
    forall v ensures (v in staleG && v in w.t.gs) <==> (v in w.t0.gs && v !in t.gs) {
    }
  }

  lemma Finished(i: Input, w: Walk, staleB: set<Key>, staleG: set<nat>, t: Tables, d: Delta)
    requires Midway(i, i.vteps, w) && Stale(w.t0, w.live, staleB, staleG) && Swept(w, staleB, staleG, t, d)
    ensures Ran(i, w.t0, t, d)
  {
    hide Bound, Told, ToldGroups, GroupsExact, KeysUnique, UuidsUnique, KeysGrown, NewFrom, BindingsRight, BindingsKept,
         Spared, Sparing;
    SparedAtLast(i, w, staleB, staleG, t, d);
    LeftIsLive(i, w, staleB, staleG, t, d);
    BindingsTold(i, w, staleB, t, d);
    GroupsTold(w, staleB, staleG, t, d);
    SweptKeeps(i, w, staleB, staleG, t, d);
  }

  lemma SparedAtLast(i: Input, w: Walk, staleB: set<Key>, staleG: set<nat>, t: Tables, d: Delta)
    requires Spared(i, i.vteps, w) && Stale(w.t0, w.live, staleB, staleG) && Swept(w, staleB, staleG, t, d)
    ensures Sparing(i, w.t0, t, d)
  {
    hide Differs, Touched, Less, GroupUuids, Uuids;
    forall v | v in d.updatedGroups && v !in w.updatedGroups
      ensures exists k :: k in w.t0.bs && k !in t.bs && k.vni == v
    {
      var k :| k in staleB && k.vni == v;
      assert k in w.t0.bs && k !in t.bs;
    }
  }

  lemma SweptKeeps(i: Input, w: Walk, staleB: set<Key>, staleG: set<nat>, t: Tables, d: Delta)
    requires Midway(i, i.vteps, w) && Stale(w.t0, w.live, staleB, staleG) && Swept(w, staleB, staleG, t, d)
    requires t.bs.Keys == w.live
    ensures KeysUnique(t.bs, t.keys) && UuidsUnique(t.bs, t.gs, t.next) && KeysGrown(w.t0, t) && NewFrom(w.t0, t)
  {
    hide Fits, Wanted, Exhausted, GroupsExact, Told, ToldGroups, Touched, Networks, Uuids, GroupUuids;
    forall x | x in t.keys && x !in w.t0.keys ensures exists k :: k in t.bs && k !in w.t0.bs && t.bs[k].key == x {
      var k :| k in w.t.bs && k !in w.t0.bs && w.t.bs[k].key == x;
      assert k in w.live && k in t.bs;
    }
  }

  // ---- Allocation of binding keys ----

  function NextKey(x: nat): nat {
    if x + 1 <= MAX_EVPN_KEY then x + 1 else MIN_EVPN_KEY
  }

  /** How many steps of NextKey lead from a to b, both in range. */
  function Distance(a: nat, b: nat): int {
    if a <= b then b - a else b - a + (MAX_EVPN_KEY - MIN_EVPN_KEY + 1)
  }

  class Bindings {
    var bindings: map<Key, Binding>
    var groups: map<nat, Group>
    var keys: set<nat>
    var nextUuid: nat
    var updated: set<Key>
    var removed: set<nat>
    var updatedGroups: set<nat>
    var removedGroups: set<nat>

    ghost function View(): Tables
      reads this
    {
      Tables(bindings, groups, keys, nextUuid)
    }

    ghost function Deltas(): Delta
      reads this
    {
      Delta(updated, removed, updatedGroups, removedGroups)
    }

    ghost function Walking(t0: Tables, live: set<Key>): Walk
      reads this
    {
      Walk(t0, View(), live, updated, updatedGroups)
    }

    constructor ()
      ensures View() == NO_TABLES && Deltas() == NO_DELTA
    {
      bindings, groups, keys, nextUuid := map[], map[], {}, 0;
      updated, removed, updatedGroups, removedGroups := {}, {}, {}, {};
    }

    /** Finds a free key if there is one, wherever the search starts. */
    method Allocate(hint0: nat) returns (key: nat, hint: nat)
      requires InRange(hint0)
      modifies this`keys
      ensures InRange(hint)
      ensures key != 0 ==> InRange(key) && key !in old(keys) && keys == old(keys) + {key}
      ensures key == 0 ==> keys == old(keys) && Exhausted(keys)
    {
      hint := NextKey(hint0);
      var x := hint;
      if x !in keys {
        keys := keys + {x};
        return x, x;
      }
      x := NextKey(x);
      while x != hint
        invariant InRange(x) && keys == old(keys)
        invariant forall y :: InRange(y) && (x == hint || Distance(hint, y) < Distance(hint, x)) ==> y in keys
        decreases x != hint, Distance(x, hint)
      {
        if x !in keys {
          keys := keys + {x};
          return x, x;
        }
        x := NextKey(x);
      }
      return 0, hint;
    }

    method FindOrAdd(k: Key, hint0: nat) returns (found: bool, hint: nat)
      requires InRange(hint0)
      modifies this`keys, this`nextUuid, this`bindings
      ensures InRange(hint) && (found <==> k in bindings)
      ensures k in old(bindings) ==> View() == old(View())
      ensures k !in old(bindings) && found ==>
                && bindings == old(bindings)[k := Binding(old(nextUuid), bindings[k].key, OFPP_NONE, 0, 0)]
                && InRange(bindings[k].key) && bindings[k].key !in old(keys) && keys == old(keys) + {bindings[k].key}
                && nextUuid == old(nextUuid) + 1
      ensures !found ==> View() == old(View()) && Exhausted(keys)
    {
      hide Exhausted;
      hint := hint0;
      if k in bindings {
        return true, hint;
      }
      var key;
      key, hint := Allocate(hint0);
      if key == 0 {
        return false, hint;
      }
      bindings := bindings[k := Binding(nextUuid, key, OFPP_NONE, 0, 0)];
      nextUuid := nextUuid + 1;
      found := true;
    }

    /** Sets what differs in the endpoint's binding, and notes it. */
    method Refresh(i: Input, v: Vtep) returns (ghost noted: bool)
      requires Resolves(i, v) && KeyOf(v) in bindings
      modifies this`bindings, this`groups, this`updated, this`updatedGroups, this`nextUuid
      ensures noted <==> Asked(i, v, old(bindings)[KeyOf(v)]) != old(bindings)[KeyOf(v)]
      ensures bindings == old(bindings)[KeyOf(v) := Asked(i, v, old(bindings)[KeyOf(v)])]
      ensures updated == if noted then old(updated) + {KeyOf(v)} else old(updated)
      ensures updatedGroups == if noted then old(updatedGroups) + {v.vni} else old(updatedGroups)
      ensures nextUuid == if v.vni in old(groups) then old(nextUuid) else old(nextUuid) + 1
      ensures noted ==> groups == WithMember(old(groups), v.vni, old(nextUuid), KeyOf(v))
      ensures !noted && v.vni in old(groups) ==> groups == old(groups)
    {
      var k := KeyOf(v);
      if v.vni !in groups {
        groups := groups[v.vni := Group(nextUuid, {})];
        nextUuid := nextUuid + 1;
      }
      var b := bindings[k];
      var changed := false;
      if b.ofport != i.tunnels[v.port] {
        b := b.(ofport := i.tunnels[v.port]);
        changed := true;
      }
      if b.dp != i.datapaths[v.vni].key {
        b := b.(dp := i.datapaths[v.vni].key);
        changed := true;
      }
      if b.age != i.datapaths[v.vni].age {
        b := b.(age := i.datapaths[v.vni].age);
        changed := true;
      }
      bindings := bindings[k := b];
      if changed {
        updated := updated + {k};
        groups := groups[v.vni := groups[v.vni].(members := groups[v.vni].members + {k})];
        updatedGroups := updatedGroups + {v.vni};
      }
      noted := changed;
      assert {} + {k} == {k};
    }

    /** One endpoint: its binding is found or added, its group likewise, and what
        differs is set and noted. */
    method Process(i: Input, v: Vtep, hint0: nat, ghost done: set<Vtep>, ghost t0: Tables, ghost live: set<Key>)
      returns (placed: bool, hint: nat)
      requires InputOk(i) && InRange(hint0) && Midway(i, done, Walking(t0, live))
      modifies this`keys, this`nextUuid, this`bindings, this`groups, this`updated, this`updatedGroups
      ensures InRange(hint) && Midway(i, done + {v}, Walking(t0, if placed then live + {KeyOf(v)} else live))
    {
      hide GroupsExact, KeysUnique, UuidsUnique, Bound, Told, ToldGroups, KeysGrown, NewFrom, Exhausted, Spared;
      ghost var w := Walking(t0, live);
      SparedSkip(i, done, w, v);
      hint := hint0;
      placed := false;
      if v.port !in i.tunnels {
        BoundSkip(i, done, w, v);
        return;
      }
      if v.vni !in i.datapaths {
        BoundSkip(i, done, w, v);
        return;
      }
      var k := KeyOf(v);
      var found;
      found, hint := FindOrAdd(k, hint0);
      if !found {
        BoundSkip(i, done, w, v);
        return;
      }
      ghost var uuid, b := nextUuid, Asked(i, v, bindings[k]);
      HasGroup(w.t, k);
      ghost var noted := Refresh(i, v);
      placed := true;
      assert bindings == w.t.bs[k := b];
      Placed(i, done, w, v, b, uuid, keys, nextUuid);
      assert Walking(t0, live + {k}) == Placing(w, k, b, uuid, keys, nextUuid);
    }

    method DropGroup(v: nat)
      requires v in groups
      modifies this`groups, this`removedGroups
      ensures groups == old(groups) - {v} && removedGroups == old(removedGroups) + {old(groups)[v].uuid}
    {
      removedGroups := removedGroups + {groups[v].uuid};
      groups := groups - {v};
    }

    method SweepGroups(stale: set<nat>)
      requires stale <= groups.Keys && removedGroups == {}
      modifies this`groups, this`removedGroups
      ensures groups == old(groups) - stale && removedGroups == GroupUuids(stale, old(groups))
    {
      var todo := stale;
      ghost var gs := groups;
      while todo != {}
        invariant todo <= stale && groups == gs - (stale - todo) && removedGroups == GroupUuids(stale - todo, gs)
        decreases |todo|
      {
        var v :| v in todo;
        DropGroup(v);
        assert stale - (todo - {v}) == stale - todo + {v};
        todo := todo - {v};
      }
      assert stale - {} == stale;
    }

    method DropBinding(k: Key, ghost t1: Tables, ghost d1: Delta, ghost gone: set<Key>)
      requires k in bindings && Sweeping(t1, d1, gone, View(), Deltas())
      requires k in t1.bs && k !in gone && OwnMembers(t1.gs)
      modifies this`bindings, this`groups, this`removed, this`updatedGroups
      ensures Sweeping(t1, d1, gone + {k}, View(), Deltas()) && bindings == old(bindings) - {k}
    {
      hide Sweeping, OwnMembers;
      SweepingStep(t1, d1, gone, View(), Deltas(), k);
      ghost var ugs := updatedGroups;
      assert ugs + {} == ugs;
      if k.vni in groups {
        groups := groups[k.vni := groups[k.vni].(members := groups[k.vni].members - {k})];
        updatedGroups := updatedGroups + {k.vni};
      }
      removed := removed + {bindings[k].uuid};
      bindings := bindings - {k};
    }

    method SweepBindings(stale: set<Key>)
      requires stale <= bindings.Keys && removed == {} && OwnMembers(groups)
      modifies this`bindings, this`groups, this`removed, this`updatedGroups
      ensures bindings == old(bindings) - stale && Less(old(groups), groups, stale)
      ensures updatedGroups == old(updatedGroups) + Networks(stale, old(groups).Keys)
      ensures removed == Uuids(stale, old(bindings))
    {
      hide Sweeping, OwnMembers, Networks, Uuids, Less;
      var todo := stale;
      ghost var t1, d1, gone := View(), Deltas(), {};
      SweepingStart(t1, d1);
      while todo != {}
        invariant todo !! gone && todo + gone == stale && todo <= bindings.Keys
        invariant Sweeping(t1, d1, gone, View(), Deltas())
        decreases |todo|
      {
        var k :| k in todo;
        DropBinding(k, t1, d1, gone);
        gone := gone + {k};
        todo := todo - {k};
      }
      assert gone == stale;
      SweepingDone(t1, d1, gone, View(), Deltas());
    }

    /** Every endpoint in turn; what none of them asked for is stale. */
    method ProcessAll(i: Input) returns (staleB: set<Key>, staleG: set<nat>, ghost live: set<Key>)
      requires TablesOk(View()) && InputOk(i) && Deltas() == NO_DELTA
      modifies this`keys, this`nextUuid, this`bindings, this`groups, this`updated, this`updatedGroups
      ensures Midway(i, i.vteps, Walking(old(View()), live)) && Stale(old(View()), live, staleB, staleG)
    {
      hide TablesOk, Midway, Stale;
      var hint := MIN_EVPN_KEY;
      staleB, staleG, live := bindings.Keys, groups.Keys, {};
      ghost var t0, done := View(), {};
      MidwayStart(i, t0);
      StaleStart(t0);
      var todo := i.vteps;
      while todo != {}
        invariant todo !! done && todo + done == i.vteps && InRange(hint)
        invariant Midway(i, done, Walking(t0, live)) && Stale(t0, live, staleB, staleG)
        decreases |todo|
      {
        var v :| v in todo;
        var placed;
        placed, hint := Process(i, v, hint, done, t0, live);
        todo := todo - {v};
        done := done + {v};
        if placed {
          StaleStep(t0, live, staleB, staleG, KeyOf(v));
          staleB := staleB - {KeyOf(v)};
          staleG := staleG - {v.vni};
          live := live + {KeyOf(v)};
        }
      }
      assert done == i.vteps;
    }

    /** One reconciliation: walk the endpoints, then remove the groups and the
        bindings that none of them asked for.  The keys of removed bindings stay
        taken. */
    method RunOnce(i: Input)
      requires TablesOk(View()) && InputOk(i) && Deltas() == NO_DELTA
      modifies this
      ensures Ran(i, old(View()), View(), Deltas())
    {
      hide TablesOk, Midway, Stale, Swept, Ran, OwnMembers, Less, Networks, Uuids, GroupUuids;
      var staleB, staleG;
      ghost var live;
      staleB, staleG, live := ProcessAll(i);
      ghost var w := Walking(old(View()), live);
      StaleThere(i, w, staleB, staleG);
      SweepGroups(staleG);
      SweepBindings(staleB);
      SweptIs(w, staleB, staleG, View(), Deltas());
      Finished(i, w, staleB, staleG, View(), Deltas());
    }
  }

  lemma HasGroup(t: Tables, k: Key)
    requires GroupsExact(t.bs, t.gs)
    ensures k in t.bs ==> k.vni in t.gs
  {
  }

  // ---- The loops that remove ----

  function WithoutMember(gs: map<nat, Group>, k: Key): map<nat, Group> {
    if k.vni in gs then gs[k.vni := gs[k.vni].(members := gs[k.vni].members - {k})] else gs
  }

  lemma StaleStart(t0: Tables)
    ensures Stale(t0, {}, t0.bs.Keys, t0.gs.Keys)
  {
  }

  lemma StaleStep(t0: Tables, live: set<Key>, staleB: set<Key>, staleG: set<nat>, k: Key)
    requires Stale(t0, live, staleB, staleG)
    ensures Stale(t0, live + {k}, staleB - {k}, staleG - {k.vni})
  {
    forall v ensures Touched(live + {k}, v) <==> Touched(live, v) || v == k.vni {
      assert k in live + {k};
      if Touched(live, v) {
        var j :| j in live && j.vni == v;
        assert j in live + {k};
      }
    }
  }

  lemma StaleThere(i: Input, w: Walk, staleB: set<Key>, staleG: set<nat>)
    requires Midway(i, i.vteps, w) && Stale(w.t0, w.live, staleB, staleG)
    ensures staleB <= w.t.bs.Keys && staleG <= w.t.gs.Keys && OwnMembers(w.t.gs - staleG)
  {
    hide Fits, Wanted, Exhausted, Told, KeysUnique, UuidsUnique, KeysGrown, NewFrom, Touched;
    forall v, k | v in w.t.gs - staleG && k in (w.t.gs - staleG)[v].members ensures k.vni == v {
      assert v in w.t.gs && k in w.t.gs[v].members;
    }
  }

  ghost predicate Sweeping(t1: Tables, d1: Delta, gone: set<Key>, t: Tables, d: Delta) {
    && t.bs == t1.bs - gone && Less(t1.gs, t.gs, gone)
    && d.updatedGroups == d1.updatedGroups + Networks(gone, t1.gs.Keys) && d.removed == Uuids(gone, t1.bs)
  }

  lemma SweepingStart(t: Tables, d: Delta)
    requires d.removed == {}
    ensures Sweeping(t, d, {}, t, d)
  {
    assert forall v :: v in t.gs ==> t.gs[v].members - {} == t.gs[v].members;
    assert Networks({}, t.gs.Keys) == {} && Uuids({}, t.bs) == {};
  }

  lemma SweepingStep(t1: Tables, d1: Delta, gone: set<Key>, t: Tables, d: Delta, k: Key)
    requires Sweeping(t1, d1, gone, t, d) && k in t1.bs && k !in gone && OwnMembers(t1.gs)
    ensures k in t.bs
    ensures Sweeping(t1, d1, gone + {k}, t.(bs := t.bs - {k}, gs := WithoutMember(t.gs, k)),
                     d.(removed := d.removed + {t.bs[k].uuid},
                        updatedGroups := d.updatedGroups + if k.vni in t.gs then {k.vni} else {}))
  {
    hide Less, Networks, Uuids, OwnMembers;
    LessStep(t1.gs, t.gs, gone, k);
    NetworksStep(gone, t1.gs.Keys, k);
    UuidsGoneStep(gone, t1.bs, k);
    assert t1.bs - gone - {k} == t1.bs - (gone + {k});
  }

  lemma SweepingDone(t1: Tables, d1: Delta, gone: set<Key>, t: Tables, d: Delta)
    requires Sweeping(t1, d1, gone, t, d)
    ensures t.bs == t1.bs - gone && Less(t1.gs, t.gs, gone)
    ensures d.updatedGroups == d1.updatedGroups + Networks(gone, t1.gs.Keys) && d.removed == Uuids(gone, t1.bs)
  {
    hide Less;
  }

  lemma NetworksStep(ks: set<Key>, vnis: set<nat>, k: Key)
    ensures Networks(ks + {k}, vnis) == Networks(ks, vnis) + if k.vni in vnis then {k.vni} else {}
  {
  }

  lemma UuidsGoneStep(ks: set<Key>, bs: map<Key, Binding>, k: Key)
    requires k in bs
    ensures Uuids(ks + {k}, bs) == Uuids(ks, bs) + {bs[k].uuid}
  {
  }

  lemma LessStep(gs1: map<nat, Group>, gs: map<nat, Group>, gone: set<Key>, k: Key)
    requires Less(gs1, gs, gone) && OwnMembers(gs1)
    ensures k.vni in gs <==> k.vni in gs1
    ensures Less(gs1, WithoutMember(gs, k), gone + {k})
  {
    forall v | v in gs1
      ensures gs1[v].members - (gone + {k})
           == if v == k.vni then gs1[v].members - gone - {k} else gs1[v].members - gone
    {
      assert v != k.vni ==> k !in gs1[v].members;
    }
  }

  lemma SweptIs(w: Walk, staleB: set<Key>, staleG: set<nat>, t: Tables, d: Delta)
    requires t.keys == w.t.keys && t.next == w.t.next && d.updated == w.updated
    requires t.bs == w.t.bs - staleB && Less(w.t.gs - staleG, t.gs, staleB)
    requires d.removedGroups == GroupUuids(staleG, w.t.gs) && d.removed == Uuids(staleB, w.t.bs)
    requires d.updatedGroups == w.updatedGroups + Networks(staleB, (w.t.gs - staleG).Keys)
    ensures Swept(w, staleB, staleG, t, d)
  {
    assert (w.t.gs - staleG).Keys == t.gs.Keys;
  }
}
