/** EVPN over whole histories: passes of the controller's engine, each with a run for
    the bindings, a run for the forwarding entries and an update of the flows, any of
    which may be left out when nothing calls for it (ovn/controller/ovn-controller.c).
    Where a run was left out the change handlers of the engine say why. */
module EvpnRuns {
  import opened Common
  import opened Evpn
  import opened EvpnFdb
  import opened EvpnDelta

  const ALL_KEYS: nat := 65536

  /** The tables, the learned addresses that were last seen, the flows made from each
      table, and how many bindings have ever been added. */
  datatype World = World(b: Tables, statics: set<Static>, f: FdbTable,
                         bFlows: set<(nat, (Key, Binding))>, gFlows: set<(nat, (nat, map<Key, Binding>))>,
                         fFlows: set<(nat, (FdbKey, Fdb))>, added: nat)

  datatype BindingRun = BindingRun(i: Input, t: Tables, d: Delta)
  datatype FdbRun = FdbRun(t: FdbTable, d: FdbDelta)

  /** What happens in a pass; full when the flows are made anew and not patched. */
  datatype Pass = Pass(binding: Option<BindingRun>, statics: set<Static>, fdb: Option<FdbRun>, full: bool)

  const NO_WORLD := World(NO_TABLES, {}, NO_FDBS, {}, {}, {}, 0)

  function TablesAfter(w: World, p: Pass): Tables {
    if p.binding.Some? then p.binding.value.t else w.b
  }

  function DeltaOf(p: Pass): Delta {
    if p.binding.Some? then p.binding.value.d else NO_DELTA
  }

  function FdbAfter(w: World, p: Pass): FdbTable {
    if p.fdb.Some? then p.fdb.value.t else w.f
  }

  function FdbDeltaOf(p: Pass): FdbDelta {
    if p.fdb.Some? then p.fdb.value.d else NO_FDB_DELTA
  }

  /** The run for the entries may be left out when the learned addresses are the same
      and no binding was reported. */
  ghost predicate Possible(w: World, p: Pass) {
    && (p.binding.Some? ==> Ran(p.binding.value.i, w.b, p.binding.value.t, p.binding.value.d))
    && (if p.fdb.Some? then FdbRan(TablesAfter(w, p).bs, p.statics, w.f, p.fdb.value.t, p.fdb.value.d)
        else p.statics == w.statics && DeltaOf(p).updated == {} && DeltaOf(p).removed == {})
  }

  /** The bindings a run adds. */
  function New(t0: Tables, t: Tables): set<Key> {
    t.bs.Keys - t0.bs.Keys
  }

  ghost function After(w: World, p: Pass): World {
    var t, d, f, fd := TablesAfter(w, p), DeltaOf(p), FdbAfter(w, p), FdbDeltaOf(p);
    var bm, gm, fm := BindingFlows(t.bs), GroupFlows(t.bs, t.gs), FdbFlows(f.fs);
    World(t, p.statics, f,
          if p.full then Flows(bm) else Patched(w.bFlows, bm, d.updated, d.removed),
          if p.full then Flows(gm) else Patched(w.gFlows, gm, d.updatedGroups, d.removedGroups),
          if p.full then Flows(fm) else Patched(w.fFlows, fm, fd.updated, fd.removed),
          w.added + |New(w.b, t)|)
  }

  ghost predicate Legal(w: World, ps: seq<Pass>)
    decreases |ps|
  {
    ps == [] || (Possible(w, ps[0]) && Legal(After(w, ps[0]), ps[1..]))
  }

  ghost function Run(w: World, ps: seq<Pass>): World
    decreases |ps|
  {
    if ps == [] then w else Run(After(w, ps[0]), ps[1..])
  }

  // ---- What every pass keeps ----

  /** The flows are those of the tables. */
  ghost predicate FlowsExact(w: World) {
    && w.bFlows == Flows(BindingFlows(w.b.bs)) && w.gFlows == Flows(GroupFlows(w.b.bs, w.b.gs))
    && w.fFlows == Flows(FdbFlows(w.f.fs))
  }

  ghost predicate Sound(w: World) {
    && TablesOk(w.b) && Distinct(w.f) && FdbRight(w.b.bs, w.statics, w.f.fs) && FlowsExact(w)
    && |w.b.keys| == w.added
  }

  lemma InitiallySound()
    ensures Sound(NO_WORLD)
  {
    assert Flows(BindingFlows(map[])) == {} && Flows(GroupFlows(map[], map[])) == {} && Flows(FdbFlows(map[])) == {};
  }

  /** No run is like a run that changes and reports nothing. */
  lemma TablesStep(w: World, p: Pass)
    requires Possible(w, p) && TablesOk(w.b)
    ensures var t, d := TablesAfter(w, p), DeltaOf(p);
            && TablesOk(t) && NewFrom(w.b, t) && BindingsKept(w.b, t) && KeysGrown(w.b, t) && DeltaRight(w.b, t, d)
  {
    hide TablesOk, BindingsRight, FdbRan;
    if p.binding.None? {
      assert DeltaRight(w.b, w.b, NO_DELTA);
    }
  }

  lemma FdbStep(w: World, p: Pass)
    requires Possible(w, p) && Distinct(w.f)
    ensures var f, fd := FdbAfter(w, p), FdbDeltaOf(p);
            Distinct(f) && FdbKept(w.f, f) && FdbDeltaRight(w.f.fs, f.fs, fd)
  {
    hide Ran, FdbRight;
  }

  /** An empty delta means that the bindings are the same. */
  lemma NothingReported(t0: Tables, t: Tables, d: Delta)
    requires DeltaRight(t0, t, d) && d.updated == {} && d.removed == {}
    ensures t.bs == t0.bs
  {
    assert forall k :: k in t0.bs && k !in t.bs ==> t0.bs[k].uuid in d.removed;
  }

  /** The entries are right after the pass, also where their run was left out. */
  lemma EntriesStep(w: World, p: Pass)
    requires Possible(w, p) && Sound(w)
    ensures FdbRight(TablesAfter(w, p).bs, p.statics, FdbAfter(w, p).fs)
  {
    hide Ran, TablesOk, Distinct, FdbRight, FlowsExact, DeltaRight;
    if p.fdb.None? {
      TablesStep(w, p);
      NothingReported(w.b, TablesAfter(w, p), DeltaOf(p));
    }
  }

  lemma FlowsStep(w: World, p: Pass)
    requires Possible(w, p) && Sound(w)
    ensures FlowsExact(After(w, p))
  {
    hide Possible, TablesOk, Distinct, FdbRight, NewFrom, BindingsKept, DeltaRight, FdbKept, FdbDeltaRight;
    hide Flows, Patched, BindingFlows, GroupFlows, FdbFlows;
    TablesStep(w, p);
    FdbStep(w, p);
    BindingDeltasComplete(w.b, TablesAfter(w, p), DeltaOf(p));
    FdbDeltaComplete(w.f, FdbAfter(w, p), FdbDeltaOf(p));
  }

  lemma StepSound(w: World, p: Pass)
    requires Possible(w, p) && Sound(w)
    ensures Sound(After(w, p))
  {
    hide Possible, TablesOk, Distinct, FdbRight, FlowsExact, KeysGrown;
    TablesStep(w, p);
    FdbStep(w, p);
    EntriesStep(w, p);
    FlowsStep(w, p);
    KeysCounted(w.b, TablesAfter(w, p));
  }

  /** The entry carries the key and datapath of one binding of its own network, and
      of no other binding. */
  ghost predicate NamesOne(bs: map<Key, Binding>, f: FdbKey, e: Fdb) {
    exists k :: k in bs && k.vni == f.vni && bs[k].key == e.bindingKey && bs[k].dp == e.dp
      && forall j :: j in bs && bs[j].key == e.bindingKey ==> j == k
  }

  lemma NamesLiveBinding(bs: map<Key, Binding>, keys: set<nat>, statics: set<Static>, f: FdbKey, e: Fdb)
    requires KeysUnique(bs, keys) && Leads(bs, statics, f, e)
    ensures NamesOne(bs, f, e)
  {
    var s :| s in statics && FdbKeyOf(s) == f && Via(s) in bs
      && e.bindingKey == bs[Via(s)].key && e.dp == bs[Via(s)].dp;
    var k := Via(s);
    assert k in bs && k.vni == f.vni && bs[k].key == e.bindingKey;
  }

  lemma {:induction false} RunSound(w: World, ps: seq<Pass>)
    requires Sound(w) && Legal(w, ps)
    ensures Sound(Run(w, ps))
    decreases |ps|
  {
    hide Sound, Possible, After;
    if ps != [] {
      StepSound(w, ps[0]);
      RunSound(After(w, ps[0]), ps[1..]);
    }
  }

  /** MAIN RESULT.  After any passes, with any inputs: each network that has a binding
      has one group, of just its bindings; each learned address over a bound endpoint
      has an entry, and each entry names one live binding; the flows are exactly those
      of the tables, though they were only patched. */
  lemma HistoryExact(ps: seq<Pass>)
    requires Legal(NO_WORLD, ps)
    ensures var w := Run(NO_WORLD, ps);
            && GroupsExact(w.b.bs, w.b.gs) && KeysUnique(w.b.bs, w.b.keys)
            && (forall f :: f in w.f.fs <==> Learned(w.b.bs, w.statics, f))
            && (forall f :: f in w.f.fs ==> NamesOne(w.b.bs, f, w.f.fs[f]))
            && FlowsExact(w)
  {
    hide GroupsExact, KeysUnique, UuidsUnique, FlowsExact, Distinct, NamesOne;
    InitiallySound();
    RunSound(NO_WORLD, ps);
    var w := Run(NO_WORLD, ps);
    forall f | f in w.f.fs ensures NamesOne(w.b.bs, f, w.f.fs[f]) && Learned(w.b.bs, w.statics, f) {
      NamesLiveBinding(w.b.bs, w.b.keys, w.statics, f, w.f.fs[f]);
      assert Leads(w.b.bs, w.statics, f, w.f.fs[f]);
    }
  }

  // ---- Keys are never given back ----

  ghost function KeysOf(t: Tables, ks: set<Key>): set<nat> {
    set k | k in ks && k in t.bs :: t.bs[k].key
  }

  lemma {:induction false} KeysOfCount(t: Tables, ks: set<Key>)
    requires KeysUnique(t.bs, t.keys) && ks <= t.bs.Keys
    ensures |KeysOf(t, ks)| == |ks|
    decreases ks
  {
    if ks == {} {
      assert KeysOf(t, ks) == {};
    } else {
      var k :| k in ks;
      KeysOfCount(t, ks - {k});
      assert KeysOf(t, ks) == KeysOf(t, ks - {k}) + {t.bs[k].key};
      assert t.bs[k].key !in KeysOf(t, ks - {k});
    }
  }

  /** The keys taken are those taken before and those of the new bindings. */
  lemma KeysSplit(t0: Tables, t: Tables)
    requires KeysUnique(t.bs, t.keys) && KeysGrown(t0, t)
    ensures t.keys == t0.keys + KeysOf(t, New(t0, t)) && t0.keys !! KeysOf(t, New(t0, t))
  {
    var ks := KeysOf(t, New(t0, t));
    forall x | x in t.keys && x !in t0.keys ensures x in ks {
      var k :| k in t.bs && k !in t0.bs && t.bs[k].key == x;
      assert k in New(t0, t);
    }
    forall x | x in ks ensures x in t.keys && x !in t0.keys {
      var k :| k in New(t0, t) && k in t.bs && t.bs[k].key == x;
    }
  }

  /** A run takes as many keys as it adds bindings. */
  lemma KeysCounted(t0: Tables, t: Tables)
    requires TablesOk(t) && KeysGrown(t0, t)
    ensures |t.keys| == |t0.keys| + |New(t0, t)|
  {
    hide GroupsExact, UuidsUnique;
    KeysOfCount(t, New(t0, t));
    KeysSplit(t0, t);
  }

  /** The lowest n keys. */
  ghost function Lowest(n: nat): (s: set<nat>)
    ensures forall x :: x in s <==> MIN_EVPN_KEY <= x < MIN_EVPN_KEY + n
    ensures |s| == n
  {
    if n == 0 then {} else Lowest(n - 1) + {MIN_EVPN_KEY + (n - 1)}
  }

  lemma {:induction false} SmallerSet<T>(s: set<T>, u: set<T>)
    requires s <= u
    ensures |s| <= |u| && (|s| == |u| ==> s == u)
  {
    assert u == s + (u - s);
  }

  /** All keys are taken exactly when there are as many as there can be. */
  lemma ExhaustedCount(keys: set<nat>)
    requires forall x :: x in keys ==> InRange(x)
    ensures |keys| <= ALL_KEYS && (Exhausted(keys) <==> |keys| == ALL_KEYS)
  {
    var all := Lowest(ALL_KEYS);
    assert forall x :: x in all <==> InRange(x);
    SmallerSet(keys, all);
    if Exhausted(keys) { assert keys == all; }
  }

  /** Endpoints that resolve and have no binding yet. */
  function Newcomers(i: Input, t0: Tables): set<Key> {
    set v | v in i.vteps && Resolves(i, v) && KeyOf(v) !in t0.bs :: KeyOf(v)
  }

  lemma NewAreNewcomers(i: Input, t0: Tables, t: Tables)
    requires BindingsRight(i, t0, t)
    ensures New(t0, t) <= Newcomers(i, t0)
    ensures (forall k :: Wanted(i, i.vteps, k) ==> k in t.bs) <==> New(t0, t) == Newcomers(i, t0)
    ensures New(t0, t) != Newcomers(i, t0) ==> Exhausted(t.keys)
  {
    forall k | k in New(t0, t) ensures k in Newcomers(i, t0) {
      assert Fits(i, i.vteps, k, t.bs[k]);
    }
    if New(t0, t) == Newcomers(i, t0) {
      forall k | Wanted(i, i.vteps, k) ensures k in t.bs {
        assert k !in t0.bs ==> k in Newcomers(i, t0);
      }
    } else {
      var k :| k in Newcomers(i, t0) && k !in New(t0, t);
      assert Wanted(i, i.vteps, k);
    }
  }

  /** MAIN RESULT.  Over any history: a run binds every endpoint that resolves if and
      only if its newcomers and the bindings ever added come to no more than 65536.
      One left unbound had no binding, and then 65536 have been added. */
  lemma BoundIffKeysLast(ps: seq<Pass>, i: Input, t: Tables, d: Delta)
    requires Legal(NO_WORLD, ps) && Ran(i, Run(NO_WORLD, ps).b, t, d)
    ensures var w := Run(NO_WORLD, ps);
            && w.added <= ALL_KEYS
            && ((forall k :: Wanted(i, i.vteps, k) ==> k in t.bs) <==> w.added + |Newcomers(i, w.b)| <= ALL_KEYS)
            && (forall k :: Wanted(i, i.vteps, k) && k !in t.bs ==>
                  k !in w.b.bs && w.added + |New(w.b, t)| == ALL_KEYS)
  {
    hide Wanted, Exhausted, Newcomers, GroupsExact, UuidsUnique, KeysGrown, FlowsExact, FdbRight, Distinct, DeltaRight;
    InitiallySound();
    RunSound(NO_WORLD, ps);
    var w := Run(NO_WORLD, ps);
    KeysCounted(w.b, t);
    ExhaustedCount(w.b.keys);
    ExhaustedCount(t.keys);
    NewAreNewcomers(i, w.b, t);
    SmallerSet(New(w.b, t), Newcomers(i, w.b));
  }

  /** Once 65536 bindings have been added, no pass adds another, whatever has become
      of those. */
  lemma {:induction false} ExhaustedForever(w: World, ps: seq<Pass>)
    requires Sound(w) && w.added == ALL_KEYS && Legal(w, ps)
    ensures Run(w, ps).b.bs.Keys <= w.b.bs.Keys && Run(w, ps).added == ALL_KEYS
    decreases |ps|
  {
    hide Sound, Possible;
    if ps != [] {
      StepSound(w, ps[0]);
      NoneAdded(w, ps[0]);
      ExhaustedForever(After(w, ps[0]), ps[1..]);
    }
  }

  lemma NoneAdded(w: World, p: Pass)
    requires Sound(w) && Possible(w, p) && w.added == ALL_KEYS
    ensures After(w, p).b.bs.Keys <= w.b.bs.Keys && After(w, p).added == ALL_KEYS
  {
    hide TablesOk, Possible, FlowsExact, KeysGrown;
    TablesStep(w, p);
    NoKeyLeft(w.b, TablesAfter(w, p));
  }

  lemma NoKeyLeft(t0: Tables, t: Tables)
    requires |t0.keys| == ALL_KEYS && TablesOk(t) && KeysGrown(t0, t)
    ensures t.bs.Keys <= t0.bs.Keys && New(t0, t) == {}
  {
    hide GroupsExact, UuidsUnique, KeysGrown;
    KeysCounted(t0, t);
    ExhaustedCount(t.keys);
    assert New(t0, t) == {};
    forall k | k in t.bs ensures k in t0.bs {
      assert k !in New(t0, t);
    }
  }

  // ---- One endpoint is enough ----

  const HERE := Vtep(1, 4789, 7)
  const PRESENT := Input(map[4789 := 1], map[7 := Datapath(1, 0)], {HERE})
  const ABSENT := Input(map[], map[], {})

  /** The key found for the next binding when n have been added: the search begins
      after the lowest key. */
  function NthKey(n: nat): nat {
    if n + 1 < ALL_KEYS then MIN_EVPN_KEY + n + 1 else MIN_EVPN_KEY
  }

  ghost function Taken(n: nat): (s: set<nat>)
    requires n <= ALL_KEYS
    ensures forall x :: x in s ==> InRange(x)
    ensures n < ALL_KEYS ==> forall x :: x in s <==> MIN_EVPN_KEY < x <= MIN_EVPN_KEY + n
  {
    if n == 0 then {} else Taken(n - 1) + {NthKey(n - 1)}
  }

  /** The endpoint comes when n bindings have been added. */
  ghost function Come(n: nat, next: nat): BindingRun
    requires n < ALL_KEYS
  {
    var k := KeyOf(HERE);
    BindingRun(PRESENT,
               Tables(map[k := Binding(next, NthKey(n), 1, 1, 0)], map[7 := Group(next + 1, {k})],
                      Taken(n + 1), next + 2),
               Delta({k}, {}, {7}, {}))
  }

  /** It goes, and nothing is left but the key. */
  ghost function Go(n: nat, next: nat): BindingRun
    requires n < ALL_KEYS
  {
    BindingRun(ABSENT, Tables(map[], map[], Taken(n + 1), next + 2), Delta({}, {next}, {}, {next + 1}))
  }

  lemma ComeRan(n: nat, next: nat)
    requires n < ALL_KEYS
    ensures var r := Come(n, next); Ran(r.i, Tables(map[], map[], Taken(n), next), r.t, r.d)
  {
    hide TablesOk, BindingsRight, BindingsKept, KeysGrown, NewFrom, DeltaRight;
    var r, t0 := Come(n, next), Tables(map[], map[], Taken(n), next);
    ComeTables(n, next);
    ComeBindings(n, next);
    assert BindingsKept(t0, r.t) by { NothingKept(t0, r.t); }
  }

  lemma NothingKept(t0: Tables, t: Tables)
    requires t0.bs == map[]
    ensures BindingsKept(t0, t)
  {
  }

  lemma ComeTables(n: nat, next: nat)
    requires n < ALL_KEYS
    ensures var r, t0 := Come(n, next), Tables(map[], map[], Taken(n), next);
            TablesOk(r.t) && KeysGrown(t0, r.t) && NewFrom(t0, r.t)
  {
    hide GroupsExact, Taken;
    ComeGroups(n, next);
    TakenMore(n);
    var r, k := Come(n, next), KeyOf(HERE);
    assert k in r.t.bs && r.t.bs[k].key == NthKey(n);
  }

  lemma ComeGroups(n: nat, next: nat)
    requires n < ALL_KEYS
    ensures var t := Come(n, next).t; GroupsExact(t.bs, t.gs)
  {
    hide Taken;
    var t, k := Come(n, next).t, KeyOf(HERE);
    assert k in t.bs && k.vni == 7;
  }

  lemma TakenMore(n: nat)
    requires n < ALL_KEYS
    ensures Taken(n + 1) == Taken(n) + {NthKey(n)} && NthKey(n) !in Taken(n)
    ensures forall x :: x in Taken(n + 1) ==> InRange(x)
  {
  }

  lemma ComeBindings(n: nat, next: nat)
    requires n < ALL_KEYS
    ensures var r, t0 := Come(n, next), Tables(map[], map[], Taken(n), next);
            BindingsRight(r.i, t0, r.t) && DeltaRight(t0, r.t, r.d)
  {
    hide Taken;
    var r, k := Come(n, next), KeyOf(HERE);
    assert HERE in PRESENT.vteps && Resolves(PRESENT, HERE);
    assert Fits(r.i, r.i.vteps, k, r.t.bs[k]);
    assert forall j :: Wanted(r.i, r.i.vteps, j) ==> j == k;
  }

  lemma GoRan(n: nat, next: nat)
    requires n < ALL_KEYS
    ensures var r := Go(n, next); Ran(r.i, Come(n, next).t, r.t, r.d)
  {
    var r, t0, k := Go(n, next), Come(n, next).t, KeyOf(HERE);
    assert forall j :: !Wanted(r.i, r.i.vteps, j);
    assert k in t0.bs && k !in r.t.bs && t0.bs[k].uuid == next;
    assert 7 in t0.gs && 7 !in r.t.gs && t0.gs[7].uuid == next + 1;
    assert DeltaRight(t0, r.t, r.d);
  }

  function Alone(r: BindingRun): Pass {
    Pass(Some(r), {}, Some(FdbRun(NO_FDBS, NO_FDB_DELTA)), false)
  }

  ghost predicate Vacant(w: World, n: nat)
    requires n <= ALL_KEYS
  {
    w.b.bs == map[] && w.b.gs == map[] && w.b.keys == Taken(n) && w.added == n && w.f == NO_FDBS && w.statics == {}
  }

  lemma Visit(w: World, n: nat)
    requires n < ALL_KEYS && Vacant(w, n)
    ensures var p, q := Alone(Come(n, w.b.next)), Alone(Go(n, w.b.next));
            Possible(w, p) && Possible(After(w, p), q) && Vacant(After(After(w, p), q), n + 1)
  {
    hide Ran, Patched, Flows, BindingFlows, GroupFlows, FdbFlows, Taken;
    ComeRan(n, w.b.next);
    GoRan(n, w.b.next);
    assert w.b == Tables(map[], map[], Taken(n), w.b.next);
    assert New(w.b, Come(n, w.b.next).t) == {KeyOf(HERE)};
    assert New(Come(n, w.b.next).t, Go(n, w.b.next).t) == {};
  }

  lemma {:induction false} RunAppend(w: World, ps: seq<Pass>, qs: seq<Pass>)
    requires Legal(w, ps) && Legal(Run(w, ps), qs)
    ensures Legal(w, ps + qs) && Run(w, ps + qs) == Run(Run(w, ps), qs)
    decreases |ps|
  {
    hide Possible, After;
    if ps == [] {
      assert ps + qs == qs;
    } else {
      RunAppend(After(w, ps[0]), ps[1..], qs);
      assert (ps + qs)[1..] == ps[1..] + qs;
    }
  }

  lemma TwoPasses(w: World, p: Pass, q: Pass)
    requires Possible(w, p) && Possible(After(w, p), q)
    ensures Legal(w, [p, q]) && Run(w, [p, q]) == After(After(w, p), q)
  {
    hide Possible, After;
    assert [p, q][1..] == [q] && [q][1..] == [];
    assert Legal(After(After(w, p), q), []);
    assert Legal(After(w, p), [q]) && Run(After(w, p), [q]) == After(After(w, p), q);
  }

  lemma VacantAtFirst()
    ensures Vacant(NO_WORLD, 0)
  {
  }

  lemma {:induction false} Visits(n: nat) returns (ps: seq<Pass>)
    requires n <= ALL_KEYS
    ensures Legal(NO_WORLD, ps) && Vacant(Run(NO_WORLD, ps), n)
  {
    hide Possible, After, Come, Go, Vacant;
    if n == 0 {
      ps := [];
      VacantAtFirst();
    } else {
      var qs := Visits(n - 1);
      var w := Run(NO_WORLD, qs);
      Visit(w, n - 1);
      var p, q := Alone(Come(n - 1, w.b.next)), Alone(Go(n - 1, w.b.next));
      TwoPasses(w, p, q);
      RunAppend(NO_WORLD, qs, [p, q]);
      ps := qs + [p, q];
    }
  }

  /** Keys do run out with next to nothing bound: one endpoint that came and went
      65536 times is not bound when it comes again, nor is any other. */
  lemma OneEndpointSuffices() returns (ps: seq<Pass>)
    ensures Legal(NO_WORLD, ps) && Run(NO_WORLD, ps).b.bs == map[]
    ensures forall i, t, d :: Ran(i, Run(NO_WORLD, ps).b, t, d) ==> t.bs == map[]
  {
    hide TablesOk, BindingsRight, BindingsKept, KeysGrown, NewFrom, DeltaRight, FlowsExact;
    ps := Visits(ALL_KEYS);
    InitiallySound();
    RunSound(NO_WORLD, ps);
    var w := Run(NO_WORLD, ps);
    forall i, t, d | Ran(i, w.b, t, d) ensures t.bs == map[] {
      NoKeyLeft(w.b, t);
    }
  }
}
