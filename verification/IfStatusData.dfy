/** What the manager remembers, traced back to the events it comes from, over every
    run: the data of an interface, the chassis claims, the records to be taken back and
    the sequence number. */
module IfStatusData {
  import opened Common
  import opened IfStatus
  import opened IfStatusRuns

  // ---- The data of an interface ----

  /** Event i is the last claim of the interface before moment n. */
  ghost predicate LastClaim(es: seq<Event>, id: string, i: nat, n: nat)
    requires n <= |es|
  {
    && i < n && es[i].Claiming? && es[i].id == id
    && forall k :: i < k < n ==> !(es[k].Claiming? && es[k].id == id)
  }

  lemma DataStep(m: Mgr, e: Event, id: string)
    requires id in Step(m, e).ifaces
    ensures var i := Step(m, e).ifaces[id];
            if e.Claiming? && e.id == id then i.pb == e.pb && i.bindType == e.bind && i.isVif == e.vif
            else id in m.ifaces && var j := m.ifaces[id]; i.pb == j.pb && i.bindType == j.bindType && i.isVif == j.isVif
  {
  }

  /** The port binding, how it is bound and whether it is a VIF are as the last claim
      of the interface said. */
  lemma {:induction false} DataFromLastClaim(es: seq<Event>, id: string, n: nat)
    requires n <= |es| && id in After(es, n).ifaces
    ensures exists i: nat :: LastClaim(es, id, i, n)
              && var f := After(es, n).ifaces[id];
              f.pb == es[i].pb && f.bindType == es[i].bind && f.isVif == es[i].vif
  {
    hide Step;
    var m, e := After(es, n - 1), es[n - 1];
    DataStep(m, e, id);
    if e.Claiming? && e.id == id {
      assert LastClaim(es, id, n - 1, n);
    } else {
      DataFromLastClaim(es, id, n - 1);
      var i: nat :| LastClaim(es, id, i, n - 1)
        && var f := m.ifaces[id]; f.pb == es[i].pb && f.bindType == es[i].bind && f.isVif == es[i].vif;
      assert LastClaim(es, id, i, n);
    }
  }

  /** Event i says the MTU: it measures the interface anew, or creates it, when one
      without a record counts as 0. */
  ghost predicate Says(es: seq<Event>, id: string, i: nat, mtu: nat)
    requires i < |es|
  {
    match es[i]
    case Remeasuring(rid, x) => rid == Some(id) && x == mtu
    case Claiming(j, _, name, x, _, _, _) =>
      j == id && id !in After(es, i).ifaces && mtu == if name.None? then 0 else x
    case _ => false
  }

  ghost predicate SaysAny(es: seq<Event>, id: string, i: nat)
    requires i < |es|
  {
    exists x :: Says(es, id, i, x)
  }

  lemma MtuStep(es: seq<Event>, id: string, n: nat)
    requires n < |es| && id in After(es, n + 1).ifaces
    ensures Says(es, id, n, After(es, n + 1).ifaces[id].mtu)
            || (id in After(es, n).ifaces && After(es, n + 1).ifaces[id].mtu == After(es, n).ifaces[id].mtu
                && !SaysAny(es, id, n))
  {
    assert After(es, n + 1) == Step(After(es, n), es[n]);
  }

  /** The MTU is what the last event said that says one. */
  lemma {:induction false} MtuFromLast(es: seq<Event>, id: string, n: nat)
    requires n <= |es| && id in After(es, n).ifaces
    ensures exists i: nat :: i < n && Says(es, id, i, After(es, n).ifaces[id].mtu)
              && forall k :: i < k < n ==> !SaysAny(es, id, k)
  {
    hide Step, Says, SaysAny;
    MtuStep(es, id, n - 1);
    if !Says(es, id, n - 1, After(es, n).ifaces[id].mtu) {
      MtuFromLast(es, id, n - 1);
      var i: nat :| i < n - 1 && Says(es, id, i, After(es, n - 1).ifaces[id].mtu)
        && forall k :: i < k < n - 1 ==> !SaysAny(es, id, k);
      assert Says(es, id, i, After(es, n).ifaces[id].mtu);
    }
  }

  // ---- Claims from another chassis ----

  /** Noted by event i and not forgotten before moment n. */
  ghost predicate TakenOver(es: seq<Event>, id: string, i: nat, n: nat)
    requires n <= |es|
  {
    && i < n && es[i].Claiming? && es[i].id == id && es[i].otherChassis
    && forall k :: i < k < n ==> !es[k].Running? && !es[k].Clearing?
  }

  lemma TakenOverStep(m: Mgr, e: Event, id: string)
    ensures id in Step(m, e).claimedCr <==>
            (e.Claiming? && e.id == id && e.otherChassis) || (id in m.claimedCr && !e.Running? && !e.Clearing?)
  {
  }

  lemma TakenOverBefore(es: seq<Event>, id: string, i: nat, n: nat)
    requires n < |es|
    ensures TakenOver(es, id, i, n + 1) <==>
            if i == n then es[n].Claiming? && es[n].id == id && es[n].otherChassis
            else TakenOver(es, id, i, n) && !es[n].Running? && !es[n].Clearing?
    ensures !TakenOver(es, id, n, n)
  {
  }

  /** An interface counts as taken over from another chassis iff some claim since the
      last run or clear said so. */
  lemma {:induction false} TakenOverIff(es: seq<Event>, id: string, n: nat)
    requires n <= |es|
    ensures id in After(es, n).claimedCr <==> exists i: nat :: TakenOver(es, id, i, n)
  {
    hide Step, TakenOver;
    if n == 0 {
      forall i: nat ensures !TakenOver(es, id, i, 0) { NoneTakenOver(es, id, i); }
    } else {
      var e := es[n - 1];
      TakenOverIff(es, id, n - 1);
      TakenOverStep(After(es, n - 1), e, id);
      TakenOverBefore(es, id, n - 1, n - 1);
      var k := n - 1;
      if i: nat :| TakenOver(es, id, i, k) { TakenOverBefore(es, id, i, k); }
      forall i: nat
        ensures TakenOver(es, id, i, n) <==>
                if i == n - 1 then e.Claiming? && e.id == id && e.otherChassis
                else TakenOver(es, id, i, n - 1) && !e.Running? && !e.Clearing?
      {
        TakenOverBefore(es, id, i, n - 1);
      }
    }
  }

  lemma NoneTakenOver(es: seq<Event>, id: string, i: nat)
    ensures !TakenOver(es, id, i, 0)
  {
  }

  // ---- Records to be taken back ----

  ghost predicate Drains(e: Event) { (e.Updating? && !e.a.ovsReadonly) || e.Clearing? }

  /** Event i puts the record on the list, and nothing empties the list before n. */
  ghost predicate PutDown(es: seq<Event>, name: string, uuid: nat, i: nat, n: nat)
    requires n <= |es|
  {
    && i < n && es[i].Removing? && es[i].record == name && es[i].uuid == uuid && name !in After(es, i).uninstall
    && forall k :: i < k < n ==> !Drains(es[k])
  }

  lemma PutDownStep(m: Mgr, e: Event, name: string, uuid: nat)
    ensures name in Step(m, e).uninstall && Step(m, e).uninstall[name] == uuid <==>
            || (e.Removing? && e.record == name && e.uuid == uuid && name !in m.uninstall)
            || (name in m.uninstall && m.uninstall[name] == uuid && !Drains(e))
  {
  }

  lemma PutDownBefore(es: seq<Event>, name: string, uuid: nat, i: nat, n: nat)
    requires n < |es|
    ensures PutDown(es, name, uuid, i, n + 1) <==>
            if i == n
            then es[n].Removing? && es[n].record == name && es[n].uuid == uuid && name !in After(es, n).uninstall
            else PutDown(es, name, uuid, i, n) && !Drains(es[n])
    ensures !PutDown(es, name, uuid, n, n)
  {
    hide After, Drains;
  }

  /** A record is on the list, under a uuid, iff the first removal since the list was
      last emptied gave that uuid; an update that can write to the switch empties it. */
  lemma {:induction false} PutDownIff(es: seq<Event>, name: string, uuid: nat, n: nat)
    requires n <= |es|
    ensures name in After(es, n).uninstall && After(es, n).uninstall[name] == uuid <==>
            exists i: nat :: PutDown(es, name, uuid, i, n)
  {
    hide Step, PutDown, Drains;
    if n == 0 {
      forall i: nat ensures !PutDown(es, name, uuid, i, 0) { NonePutDown(es, name, uuid, i); }
    } else {
      var m, e := After(es, n - 1), es[n - 1];
      PutDownIff(es, name, uuid, n - 1);
      PutDownStep(m, e, name, uuid);
      PutDownBefore(es, name, uuid, n - 1, n - 1);
      var k := n - 1;
      if i: nat :| PutDown(es, name, uuid, i, k) { PutDownBefore(es, name, uuid, i, k); }
      forall i: nat
        ensures PutDown(es, name, uuid, i, n) <==>
                if i == n - 1 then e.Removing? && e.record == name && e.uuid == uuid && name !in m.uninstall
                else PutDown(es, name, uuid, i, n - 1) && !Drains(e)
      {
        PutDownBefore(es, name, uuid, i, n - 1);
      }
    }
  }

  lemma NonePutDown(es: seq<Event>, name: string, uuid: nat, i: nat)
    ensures !PutDown(es, name, uuid, i, 0)
  {
  }

  // ---- Sequence numbers ----

  /** The event lets a claimed VIF through. */
  ghost predicate LetsThrough(m: Mgr, e: Event) {
    && e.Updating? && e.a.bindings && !e.a.sbReadonly
    && exists id :: Is(m, id, Claimed) && m.ifaces[id].isVif
  }

  ghost function Requested(es: seq<Event>, n: nat): nat
    requires n <= |es|
  {
    if n == 0 then 0 else Requested(es, n - 1) + if LetsThrough(After(es, n - 1), es[n - 1]) then 1 else 0
  }

  lemma SeqnoStep(m: Mgr, e: Event)
    ensures Step(m, e).seqno == m.seqno + if LetsThrough(m, e) then 1 else 0
  {
    if e.Updating? && e.a.bindings && !e.a.sbReadonly {
      if id :| id in m.ifaces && m.ifaces[id].state == Claimed && m.ifaces[id].isVif { assert Is(m, id, Claimed); }
    }
  }

  /** The sequence number counts the updates that let a claimed VIF through. */
  lemma {:induction false} SeqnoCounts(es: seq<Event>, n: nat)
    requires n <= |es|
    ensures After(es, n).seqno == Requested(es, n)
  {
    hide LetsThrough, Step;
    if n > 0 {
      SeqnoCounts(es, n - 1);
      SeqnoStep(After(es, n - 1), es[n - 1]);
    }
  }
}
