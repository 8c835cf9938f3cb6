/** EVPN forwarding entries (ovn/controller/evpn-fdb.c): learned addresses lead over
    the bindings of their network. */
module EvpnFdb {
  import opened Evpn

  datatype FdbKey = FdbKey(mac: nat, vni: nat)
  datatype Fdb = Fdb(uuid: nat, bindingKey: nat, dp: nat)
  datatype Static = Static(mac: nat, ip: nat, vni: nat)

  /** What is kept between runs, with a bound on the uuids drawn so far. */
  datatype FdbTable = FdbTable(fs: map<FdbKey, Fdb>, next: nat)
  datatype FdbDelta = FdbDelta(updated: set<FdbKey>, removed: set<nat>)

  const NO_FDBS := FdbTable(map[], 0)
  const NO_FDB_DELTA := FdbDelta({}, {})

  function FdbKeyOf(s: Static): FdbKey {
    FdbKey(s.mac, s.vni)
  }

  function Via(s: Static): Key {
    Key(s.ip, s.vni)
  }

  /** The entry leads where one of these learned addresses says, over a binding of
      its own network. */
  ghost predicate Leads(bs: map<Key, Binding>, statics: set<Static>, f: FdbKey, e: Fdb) {
    exists s :: s in statics && f == FdbKey(s.mac, s.vni) && Key(s.ip, s.vni) in bs
      && e.bindingKey == bs[Key(s.ip, s.vni)].key && e.dp == bs[Key(s.ip, s.vni)].dp
  }

  ghost predicate Learned(bs: map<Key, Binding>, statics: set<Static>, f: FdbKey) {
    exists s :: s in statics && f == FdbKey(s.mac, s.vni) && Key(s.ip, s.vni) in bs
  }

  /** One of these addresses would have the entry lead elsewhere. */
  ghost predicate Strays(bs: map<Key, Binding>, statics: set<Static>, f: FdbKey, e: Fdb) {
    exists s :: s in statics && f == FdbKey(s.mac, s.vni) && Key(s.ip, s.vni) in bs
      && !(e.bindingKey == bs[Key(s.ip, s.vni)].key && e.dp == bs[Key(s.ip, s.vni)].dp)
  }

  ghost predicate Distinct(t: FdbTable) {
    && (forall f :: f in t.fs ==> t.fs[f].uuid < t.next)
    && (forall f, g :: f in t.fs && g in t.fs && t.fs[f].uuid == t.fs[g].uuid ==> f == g)
  }

  // ---- What a run promises ----

  /** An entry for each address learned over a binding, and no other. */
  ghost predicate FdbRight(bs: map<Key, Binding>, statics: set<Static>, fs: map<FdbKey, Fdb>) {
    && (forall f :: f in fs ==> Leads(bs, statics, f, fs[f]))
    && (forall f :: Learned(bs, statics, f) ==> f in fs)
  }

  ghost predicate FdbKept(t0: FdbTable, t: FdbTable) {
    && t0.next <= t.next
    && (forall f :: f in t.fs && f in t0.fs ==> t.fs[f].uuid == t0.fs[f].uuid)
    && (forall f :: f in t.fs && f !in t0.fs ==> t.fs[f].uuid >= t0.next)
  }

  ghost predicate FdbDeltaRight(fs0: map<FdbKey, Fdb>, fs: map<FdbKey, Fdb>, d: FdbDelta) {
    && d.updated <= fs.Keys
    && (forall f :: f in fs && (f !in fs0 || fs[f] != fs0[f]) ==> f in d.updated)
    && d.removed == (set f | f in fs0 && f !in fs :: fs0[f].uuid)
  }

  /** One run takes the entries from t0 to t and reports d, an entry that was there only
      if some address would have it lead elsewhere. */
  ghost predicate FdbRan(bs: map<Key, Binding>, statics: set<Static>, t0: FdbTable, t: FdbTable, d: FdbDelta) {
    && Distinct(t) && FdbRight(bs, statics, t.fs) && FdbKept(t0, t) && FdbDeltaRight(t0.fs, t.fs, d)
    && forall f :: f in d.updated && f in t0.fs ==> Strays(bs, statics, f, t0.fs[f])
  }

  // ---- Midway through a run ----

  /** The entries before and now, those some address asked for, and what has been
      noted.  Nothing has been removed yet. */
  datatype FdbWalk = FdbWalk(t0: FdbTable, t: FdbTable, live: set<FdbKey>, updated: set<FdbKey>)

  ghost predicate Walked(bs: map<Key, Binding>, done: set<Static>, w: FdbWalk) {
    && w.t0.fs.Keys <= w.t.fs.Keys && w.updated <= w.live <= w.t.fs.Keys && FdbKept(w.t0, w.t) && Distinct(w.t)
    && (forall f :: f in w.t.fs && f !in w.live ==> f in w.t0.fs && w.t.fs[f] == w.t0.fs[f])
    && (forall f :: f in w.live ==> Leads(bs, done, f, w.t.fs[f]))
    && (forall f :: Learned(bs, done, f) ==> f in w.live)
    && (forall f :: f in w.live && (f !in w.t0.fs || w.t.fs[f] != w.t0.fs[f]) ==> f in w.updated)
  }

  ghost predicate FdbSpared(bs: map<Key, Binding>, done: set<Static>, w: FdbWalk) {
    forall f :: f in w.updated && f in w.t0.fs ==> Strays(bs, done, f, w.t0.fs[f])
  }

  lemma WalkedStart(bs: map<Key, Binding>, t: FdbTable)
    requires Distinct(t)
    ensures Walked(bs, {}, FdbWalk(t, t, {}, {})) && FdbSpared(bs, {}, FdbWalk(t, t, {}, {}))
  {
  }

  /** The entry of a learned address comes to be e. */
  ghost function Placing(w: FdbWalk, f: FdbKey, e: Fdb, next: nat): FdbWalk {
    FdbWalk(w.t0, FdbTable(w.t.fs[f := e], next), w.live + {f},
            if f !in w.t.fs || e != w.t.fs[f] then w.updated + {f} else w.updated)
  }

  lemma WalkedStep(bs: map<Key, Binding>, done: set<Static>, w: FdbWalk, s: Static, e: Fdb, next: nat)
    requires Walked(bs, done, w) && Via(s) in bs && w.t.next <= next
    requires e.bindingKey == bs[Via(s)].key && e.dp == bs[Via(s)].dp
    requires if FdbKeyOf(s) in w.t.fs then e.uuid == w.t.fs[FdbKeyOf(s)].uuid else w.t.next <= e.uuid < next
    ensures Walked(bs, done + {s}, Placing(w, FdbKeyOf(s), e, next))
  {
    var f, w' := FdbKeyOf(s), Placing(w, FdbKeyOf(s), e, next);
    LeadsMore(bs, done, s);
    forall g | g in w'.live ensures Leads(bs, done + {s}, g, w'.t.fs[g]) {
      assert g == f ==> s in done + {s};
    }
    forall g | Learned(bs, done + {s}, g) && g != f ensures Learned(bs, done, g) {
    }
  }

  lemma FdbSparedStep(bs: map<Key, Binding>, done: set<Static>, w: FdbWalk, s: Static, e: Fdb, next: nat)
    requires Walked(bs, done, w) && FdbSpared(bs, done, w) && Via(s) in bs
    requires e.bindingKey == bs[Via(s)].key && e.dp == bs[Via(s)].dp
    requires FdbKeyOf(s) in w.t.fs ==> e.uuid == w.t.fs[FdbKeyOf(s)].uuid
    ensures FdbSpared(bs, done + {s}, Placing(w, FdbKeyOf(s), e, next))
  {
    hide Strays, Walked;
    var f := FdbKeyOf(s);
    StraysMore(bs, done, s);
    WalkedKeys(bs, done, w);
    if f in w.t0.fs && e != w.t.fs[f] { SomeStrays(bs, done, w, s, e); }
  }

  lemma WalkedKeys(bs: map<Key, Binding>, done: set<Static>, w: FdbWalk)
    requires Walked(bs, done, w)
    ensures w.t0.fs.Keys <= w.t.fs.Keys
  {
  }

  lemma StraysMore(bs: map<Key, Binding>, done: set<Static>, s: Static)
    ensures forall g, e :: Strays(bs, done, g, e) ==> Strays(bs, done + {s}, g, e)
  {
    forall g, e | Strays(bs, done, g, e) ensures Strays(bs, done + {s}, g, e) {
      var t :| t in done && g == FdbKey(t.mac, t.vni) && Key(t.ip, t.vni) in bs
        && !(e.bindingKey == bs[Key(t.ip, t.vni)].key && e.dp == bs[Key(t.ip, t.vni)].dp);
      assert t in done + {s};
    }
  }

  /** Whichever address set the entry to what it is, or this one, leads elsewhere. */
  lemma SomeStrays(bs: map<Key, Binding>, done: set<Static>, w: FdbWalk, s: Static, e: Fdb)
    requires Walked(bs, done, w) && Via(s) in bs && FdbKeyOf(s) in w.t0.fs
    requires e.bindingKey == bs[Via(s)].key && e.dp == bs[Via(s)].dp && e.uuid == w.t.fs[FdbKeyOf(s)].uuid
    requires e != w.t.fs[FdbKeyOf(s)]
    ensures Strays(bs, done + {s}, FdbKeyOf(s), w.t0.fs[FdbKeyOf(s)])
  {
    var f := FdbKeyOf(s);
    var was, now := w.t0.fs[f], w.t.fs[f];
    if now == was {
      assert s in done + {s};
    } else {
      assert f in w.live && Leads(bs, done, f, now);
      var u :| u in done && f == FdbKey(u.mac, u.vni) && Key(u.ip, u.vni) in bs
        && now.bindingKey == bs[Key(u.ip, u.vni)].key && now.dp == bs[Key(u.ip, u.vni)].dp;
      assert u in done + {s};
    }
  }

  lemma LeadsMore(bs: map<Key, Binding>, done: set<Static>, s: Static)
    ensures forall g, e :: Leads(bs, done, g, e) ==> Leads(bs, done + {s}, g, e)
  {
    forall g, e | Leads(bs, done, g, e) ensures Leads(bs, done + {s}, g, e) {
      var t :| t in done && g == FdbKey(t.mac, t.vni) && Key(t.ip, t.vni) in bs
        && e.bindingKey == bs[Key(t.ip, t.vni)].key && e.dp == bs[Key(t.ip, t.vni)].dp;
      assert t in done + {s};
    }
  }

  lemma WalkedSkip(bs: map<Key, Binding>, done: set<Static>, w: FdbWalk, s: Static)
    requires Walked(bs, done, w) && Via(s) !in bs
    ensures Walked(bs, done + {s}, w)
  {
    LeadsMore(bs, done, s);
    forall g | Learned(bs, done + {s}, g) ensures Learned(bs, done, g) {
    }
  }

  lemma FdbSparedSkip(bs: map<Key, Binding>, done: set<Static>, w: FdbWalk, s: Static)
    requires FdbSpared(bs, done, w)
    ensures FdbSpared(bs, done + {s}, w)
  {
    hide Strays;
    StraysMore(bs, done, s);
  }

  ghost function FdbUuids(ks: set<FdbKey>, fs: map<FdbKey, Fdb>): set<nat> {
    set f | f in ks && f in fs :: fs[f].uuid
  }

  lemma WalkedDone(bs: map<Key, Binding>, statics: set<Static>, w: FdbWalk, stale: set<FdbKey>, t: FdbTable,
                   d: FdbDelta)
    requires Walked(bs, statics, w) && FdbSpared(bs, statics, w) && stale == w.t0.fs.Keys - w.live
    requires t == FdbTable(w.t.fs - stale, w.t.next) && d == FdbDelta(w.updated, FdbUuids(stale, w.t.fs))
    ensures FdbRan(bs, statics, w.t0, t, d)
  {
    hide Leads, Learned, Strays;
    forall f ensures (f in stale && f in w.t.fs) <==> (f in w.t0.fs && f !in t.fs) {
    }
  }

  class Fdbs {
    var fdbs: map<FdbKey, Fdb>
    var nextUuid: nat
    var updated: set<FdbKey>
    var removed: set<nat>

    ghost function View(): FdbTable
      reads this
    {
      FdbTable(fdbs, nextUuid)
    }

    ghost function Deltas(): FdbDelta
      reads this
    {
      FdbDelta(updated, removed)
    }

    ghost function Walking(t0: FdbTable, live: set<FdbKey>): FdbWalk
      reads this
    {
      FdbWalk(t0, View(), live, updated)
    }

    constructor ()
      ensures View() == NO_FDBS && Deltas() == NO_FDB_DELTA
    {
      fdbs, updated, removed, nextUuid := map[], {}, {}, 0;
    }

    method Learn(f: FdbKey, b: Binding)
      requires b.key > 0
      modifies this`fdbs, this`updated, this`nextUuid
      ensures f in fdbs && fdbs == old(fdbs)[f := fdbs[f]]
      ensures fdbs[f].bindingKey == b.key && fdbs[f].dp == b.dp
      ensures fdbs[f].uuid == if f in old(fdbs) then old(fdbs)[f].uuid else old(nextUuid)
      ensures nextUuid == if f in old(fdbs) then old(nextUuid) else old(nextUuid) + 1
      ensures updated == if f !in old(fdbs) || fdbs[f] != old(fdbs)[f] then old(updated) + {f} else old(updated)
    {
      if f !in fdbs {
        fdbs := fdbs[f := Fdb(nextUuid, 0, 0)];
        nextUuid := nextUuid + 1;
      }
      var e := fdbs[f];
      var changed := false;
      if e.bindingKey != b.key {
        e := e.(bindingKey := b.key);
        changed := true;
      }
      if e.dp != b.dp {
        e := e.(dp := b.dp);
        changed := true;
      }
      fdbs := fdbs[f := e];
      if changed {
        updated := updated + {f};
      }
    }

    method Sweep(stale: set<FdbKey>)
      requires stale <= fdbs.Keys && removed == {}
      modifies this`fdbs, this`removed
      ensures fdbs == old(fdbs) - stale && removed == FdbUuids(stale, old(fdbs))
    {
      ghost var fs := fdbs;
      var todo := stale;
      while todo != {}
        invariant todo <= stale && fdbs == fs - (stale - todo) && removed == FdbUuids(stale - todo, fs)
        decreases |todo|
      {
        var f :| f in todo;
        removed := removed + {fdbs[f].uuid};
        fdbs := fdbs - {f};
        assert stale - (todo - {f}) == stale - todo + {f};
        todo := todo - {f};
      }
      assert stale - {} == stale;
    }

    /** One reconciliation.  A binding's key is not zero. */
    method RunOnce(bindings: map<Key, Binding>, statics: set<Static>)
      requires Distinct(View()) && Deltas() == NO_FDB_DELTA && forall k :: k in bindings ==> bindings[k].key > 0
      modifies this
      ensures FdbRan(bindings, statics, old(View()), View(), Deltas())
    {
      hide Walked, FdbRan, FdbUuids, Distinct, FdbSpared;
      ghost var t0, live, done := View(), {}, {};
      var stale := fdbs.Keys;
      var todo := statics;
      WalkedStart(bindings, t0);
      while todo != {}
        invariant todo !! done && todo + done == statics && stale == t0.fs.Keys - live && removed == {}
        invariant Walked(bindings, done, Walking(t0, live)) && FdbSpared(bindings, done, Walking(t0, live))
        decreases |todo|
      {
        var s :| s in todo;
        todo := todo - {s};
        ghost var w := Walking(t0, live);
        if Via(s) !in bindings {
          WalkedSkip(bindings, done, w, s);
          FdbSparedSkip(bindings, done, w, s);
          done := done + {s};
          continue;
        }
        var f := FdbKeyOf(s);
        Learn(f, bindings[Via(s)]);
        WalkedStep(bindings, done, w, s, fdbs[f], nextUuid);
        FdbSparedStep(bindings, done, w, s, fdbs[f], nextUuid);
        done := done + {s};
        stale := stale - {f};
        live := live + {f};
      }
      assert done == statics;
      ghost var w := Walking(t0, live);
      StillThere(bindings, statics, w, stale);
      Sweep(stale);
      WalkedDone(bindings, statics, w, stale, View(), Deltas());
    }
  }

  lemma StillThere(bs: map<Key, Binding>, statics: set<Static>, w: FdbWalk, stale: set<FdbKey>)
    requires Walked(bs, statics, w) && stale == w.t0.fs.Keys - w.live
    ensures stale <= w.t.fs.Keys
  {
  }
}
