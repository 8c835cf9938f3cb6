/** What the deltas of the EVPN reconciliations are good for: whoever holds the flows
    of the old state and applies the delta, as physical_handle_evpn_binding_changes()
    and physical_handle_evpn_fdb_changes() do, holds those of the new one. */
module EvpnDelta {
  import opened Evpn
  import opened EvpnFdb

  /** Entries by key: their uuid, and what their flows are made from. */
  ghost function Flows<K(!new), T(!new)>(m: map<K, (nat, T)>): set<(nat, T)> {
    set k | k in m :: m[k]
  }

  /** Flows whose uuid is removed or updated go; those of the updated come anew. */
  ghost function Patched<K(!new), T(!new)>(fl: set<(nat, T)>, m: map<K, (nat, T)>, updated: set<K>, removed: set<nat>)
    : set<(nat, T)>
  {
    (set f | f in fl && f.0 !in removed && !(exists k :: k in updated && k in m && m[k].0 == f.0))
    + (set k | k in updated && k in m :: m[k])
  }

  ghost predicate DeltaOk<K(!new), T(!new)>(m0: map<K, (nat, T)>, m: map<K, (nat, T)>, updated: set<K>,
                                            removed: set<nat>) {
    && (forall j, k :: j in m0 && k in m0 && m0[j].0 == m0[k].0 ==> j == k)
    && (forall k :: k in m && k in m0 ==> m[k].0 == m0[k].0)
    && (forall j, k :: j in m && j !in m0 && k in m0 ==> m[j].0 != m0[k].0)
    && (forall k :: k in m && (k !in m0 || m[k] != m0[k]) ==> k in updated)
    && (forall k :: k in m0 && k !in m ==> m0[k].0 in removed)
    && (forall u :: u in removed ==> exists k :: k in m0 && k !in m && m0[k].0 == u)
  }

  /** A complete delta turns the flows of the old state into those of the new one. */
  lemma DeltaComplete<K(!new), T(!new)>(m0: map<K, (nat, T)>, m: map<K, (nat, T)>, updated: set<K>, removed: set<nat>)
    requires DeltaOk(m0, m, updated, removed)
    ensures Patched(Flows(m0), m, updated, removed) == Flows(m)
  {
    forall f | f in Flows(m) ensures f in Patched(Flows(m0), m, updated, removed) {
      var k :| k in m && m[k] == f;
      if k !in updated {
        assert k in m0 && m0[k] == f;
        forall j | j in updated && j in m ensures m[j].0 != f.0 {
          assert j in m0 ==> m0[j].0 == m[j].0;
        }
      }
    }
    forall f | f in Patched(Flows(m0), m, updated, removed) ensures f in Flows(m) {
      if !(exists k :: k in updated && k in m && m[k] == f) {
        var k :| k in m0 && m0[k] == f;
        assert k in m;
      }
    }
  }

  // ---- Bindings and groups ----

  ghost function BindingFlows(bs: map<Key, Binding>): map<Key, (nat, (Key, Binding))> {
    map k | k in bs :: (bs[k].uuid, (k, bs[k]))
  }

  /** A group's flows are made from its members and from their bindings. */
  ghost function GroupFlows(bs: map<Key, Binding>, gs: map<nat, Group>): map<nat, (nat, (nat, map<Key, Binding>))> {
    map v | v in gs :: (gs[v].uuid, (v, map k | k in bs && k in gs[v].members :: bs[k]))
  }

  /** The deltas of a reconciliation of bindings are complete, for the bindings and
      for the groups. */
  lemma BindingDeltasComplete(t0: Tables, t: Tables, d: Delta)
    requires TablesOk(t0) && TablesOk(t) && NewFrom(t0, t) && BindingsKept(t0, t) && DeltaRight(t0, t, d)
    ensures Patched(Flows(BindingFlows(t0.bs)), BindingFlows(t.bs), d.updated, d.removed) == Flows(BindingFlows(t.bs))
    ensures Patched(Flows(GroupFlows(t0.bs, t0.gs)), GroupFlows(t.bs, t.gs), d.updatedGroups, d.removedGroups)
         == Flows(GroupFlows(t.bs, t.gs))
  {
    hide Patched, Flows, TablesOk, NewFrom, BindingsKept, DeltaRight;
    BindingDelta(t0, t, d);
    DeltaComplete(BindingFlows(t0.bs), BindingFlows(t.bs), d.updated, d.removed);
    GroupDelta(t0, t, d);
    DeltaComplete(GroupFlows(t0.bs, t0.gs), GroupFlows(t.bs, t.gs), d.updatedGroups, d.removedGroups);
  }

  lemma BindingDelta(t0: Tables, t: Tables, d: Delta)
    requires TablesOk(t0) && NewFrom(t0, t) && BindingsKept(t0, t) && DeltaRight(t0, t, d)
    ensures DeltaOk(BindingFlows(t0.bs), BindingFlows(t.bs), d.updated, d.removed)
  {
    hide GroupsExact, KeysUnique;
    var m0 := BindingFlows(t0.bs);
    forall u | u in d.removed ensures exists k :: k in m0 && k !in BindingFlows(t.bs) && m0[k].0 == u {
      var k :| k in t0.bs && k !in t.bs && t0.bs[k].uuid == u;
      assert k in m0;
    }
  }

  lemma GroupDelta(t0: Tables, t: Tables, d: Delta)
    requires TablesOk(t0) && TablesOk(t) && NewFrom(t0, t) && DeltaRight(t0, t, d)
    ensures DeltaOk(GroupFlows(t0.bs, t0.gs), GroupFlows(t.bs, t.gs), d.updatedGroups, d.removedGroups)
  {
    hide GroupsExact, KeysUnique;
    var m0, m := GroupFlows(t0.bs, t0.gs), GroupFlows(t.bs, t.gs);
    forall v | v in t.gs && v !in d.updatedGroups ensures v in t0.gs && m[v] == m0[v] {
      SameMembers(t0, t, d, v);
    }
    forall u | u in d.removedGroups ensures exists v :: v in m0 && v !in m && m0[v].0 == u {
      var v :| v in t0.gs && v !in t.gs && t0.gs[v].uuid == u;
      assert v in m0;
    }
  }

  lemma SameMembers(t0: Tables, t: Tables, d: Delta, v: nat)
    requires GroupsExact(t0.bs, t0.gs) && GroupsExact(t.bs, t.gs)
    requires v in t.gs && v in t0.gs && t.gs[v] == t0.gs[v] && v !in d.updatedGroups
    requires forall k :: k in t.bs && (k !in t0.bs || t.bs[k] != t0.bs[k]) ==> k in d.updated
    requires forall k :: k in d.updated ==> k.vni in d.updatedGroups
    ensures GroupFlows(t.bs, t.gs)[v] == GroupFlows(t0.bs, t0.gs)[v]
  {
    forall k | k in t.gs[v].members ensures k in t.bs && k in t0.bs && t.bs[k] == t0.bs[k] {
      assert k.vni == v;
    }
    assert (map k | k in t.bs && k in t.gs[v].members :: t.bs[k])
        == (map k | k in t0.bs && k in t0.gs[v].members :: t0.bs[k]);
  }

  // ---- Forwarding entries ----

  ghost function FdbFlows(fs: map<FdbKey, Fdb>): map<FdbKey, (nat, (FdbKey, Fdb))> {
    map f | f in fs :: (fs[f].uuid, (f, fs[f]))
  }

  /** So is that of a reconciliation of forwarding entries. */
  lemma FdbDeltaComplete(t0: FdbTable, t: FdbTable, d: FdbDelta)
    requires Distinct(t0) && FdbKept(t0, t) && FdbDeltaRight(t0.fs, t.fs, d)
    ensures Patched(Flows(FdbFlows(t0.fs)), FdbFlows(t.fs), d.updated, d.removed) == Flows(FdbFlows(t.fs))
  {
    hide Patched, Flows;
    var m0, m := FdbFlows(t0.fs), FdbFlows(t.fs);
    forall u | u in d.removed ensures exists f :: f in m0 && f !in m && m0[f].0 == u {
      var f :| f in t0.fs && f !in t.fs && t0.fs[f].uuid == u;
      assert f in m0;
    }
    DeltaComplete(m0, m, d.updated, d.removed);
  }
}
