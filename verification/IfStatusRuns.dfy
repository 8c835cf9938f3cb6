/** What holds of every interface over every interleaving of the calls of the
    interface status manager. */
module IfStatusRuns {
  import opened Common
  import opened IfStatus

  datatype Event =
    | Claiming(id: string, pb: nat, name: Option<string>, mtu: nat, bind: BindType, vif: bool, otherChassis: bool)
    | Releasing(id: string)
    | Deleting(id: string, recName: Option<string>)
    | Updating(a: Answers)
    | Removing(record: string, uuid: nat, rid: Option<string>)
    | Running(acked: set<nat>, a: Answers)
    | Clearing
    | Remeasuring(rid: Option<string>, mtu: nat)

  ghost function Step(m: Mgr, e: Event): Mgr {
    match e
    case Claiming(id, pb, name, mtu, b, vif, other) => Claim(m, id, pb, name, mtu, b, vif, other)
    case Releasing(id) => Release(m, id)
    case Deleting(id, n) => Delete(m, id, n)
    case Updating(a) => Update(m, a)
    case Removing(n, u, id) => RemoveOvnInstalled(m, n, u, id)
    case Running(acked, a) => Run(m, acked, a)
    case Clearing => Empty().(seqno := m.seqno)
    case Remeasuring(id, mtu) =>
      if id.Some? && id.value in m.ifaces then m.(ifaces := m.ifaces[id.value := m.ifaces[id.value].(mtu := mtu)])
      else m
  }

  /** The manager after the first n events of a run. */
  ghost function After(es: seq<Event>, n: nat): Mgr
    requires n <= |es|
  {
    if n == 0 then Empty() else Step(After(es, n - 1), es[n - 1])
  }

  ghost predicate Is(m: Mgr, id: string, s: State) {
    id in m.ifaces && m.ifaces[id].state == s
  }

  /** Event i is an update that takes the interface out of the claimed state, and
      it has not been claimed anew by moment n. */
  ghost predicate LeftClaimed(es: seq<Event>, id: string, i: nat, n: nat)
    requires n <= |es|
  {
    && i < n && es[i].Updating? && Is(After(es, i), id, Claimed)
    && forall k :: i < k <= n ==> id in After(es, k).ifaces && After(es, k).ifaces[id].state != Claimed
  }

  /** Event i asks for an acknowledgement, of the next sequence number. */
  ghost predicate AsksAt(es: seq<Event>, i: nat)
    requires i < |es|
  {
    es[i].Updating? && Requests(After(es, i), es[i].a)
  }

  /** After the request made by event i and before moment n, a run sees the
      requested sequence number acknowledged. */
  ghost predicate AckedBetween(es: seq<Event>, i: nat, n: nat)
    requires i < n <= |es|
  {
    AsksAt(es, i) && exists j: nat :: i < j < n && es[j].Running? && After(es, i).seqno + 1 in es[j].acked
  }

  predicate FlowsIn(s: State) {
    s in {RemOldOvnInst, MarkUp, Uninstalled, Installed}
  }

  /** How an interface came to be where it is. */
  ghost predicate Explained(es: seq<Event>, n: nat, id: string)
    requires n <= |es|
  {
    id in After(es, n).ifaces ==>
      var f := After(es, n).ifaces[id];
      && (f.state != InstallFlows ==> f.installSeqno == 0)
      && (f.state == InstallFlows ==> WasInstalling(es, n, id))
      && (FlowsIn(f.state) ==> WasBroughtUp(es, n, id))
  }

  ghost predicate Installing(es: seq<Event>, n: nat, id: string, i: nat)
    requires n <= |es| && id in After(es, n).ifaces
  {
    LeftClaimed(es, id, i, n) && AsksAt(es, i) && After(es, n).ifaces[id].installSeqno == After(es, i).seqno + 1
  }

  ghost predicate BroughtUp(es: seq<Event>, n: nat, id: string, i: nat)
    requires n <= |es|
  {
    LeftClaimed(es, id, i, n) && (After(es, i).ifaces[id].isVif ==> AckedBetween(es, i, n))
  }

  ghost predicate WasInstalling(es: seq<Event>, n: nat, id: string)
    requires n <= |es| && id in After(es, n).ifaces
  {
    exists i: nat :: Installing(es, n, id, i)
  }

  ghost predicate WasBroughtUp(es: seq<Event>, n: nat, id: string)
    requires n <= |es|
  {
    exists i: nat :: BroughtUp(es, n, id, i)
  }

  // ---- One step ----

  /** Where each kind of event can take an interface: only an update takes it out
      of the claimed state other than down, and only a run out of InstallFlows
      other than down. */
  lemma Transitions(m: Mgr, e: Event, id: string)
    requires id in Step(m, e).ifaces
    ensures var now := Step(m, e).ifaces[id];
            && (id !in m.ifaces ==> now.state == Claimed && now.installSeqno == 0)
            && (id in m.ifaces ==>
                  var was := m.ifaces[id];
                  && (now.state == InstallFlows ==>
                        || (was.state == InstallFlows && now.installSeqno == was.installSeqno)
                        || (was.state == Claimed && e.Updating? && Requests(m, e.a) && now.installSeqno == m.seqno + 1))
                  && ((was.state != InstallFlows ==> was.installSeqno == 0) && now.state != InstallFlows ==>
                        now.installSeqno == 0)
                  && (FlowsIn(now.state) ==>
                        || FlowsIn(was.state)
                        || (was.state == InstallFlows && e.Running? && was.installSeqno in e.acked)
                        || (was.state == Claimed && e.Updating? && !was.isVif)))
  {
  }

  lemma ExplainedStep(es: seq<Event>, n: nat, id: string)
    requires n < |es| && Explained(es, n, id)
    ensures Explained(es, n + 1, id)
  {
    hide Step;
    var m, m' := After(es, n), After(es, n + 1);
    assert m' == Step(m, es[n]);
    if id in m'.ifaces {
      Transitions(m, es[n], id);
      if m'.ifaces[id].state == InstallFlows {
        InstallingStep(es, n, id);
      }
      if FlowsIn(m'.ifaces[id].state) {
        BroughtUpStep(es, n, id);
      }
    }
  }

  lemma LeftClaimedStep(es: seq<Event>, id: string, i: nat, n: nat)
    requires n < |es| && LeftClaimed(es, id, i, n) && id in After(es, n + 1).ifaces
    requires After(es, n + 1).ifaces[id].state != Claimed
    ensures LeftClaimed(es, id, i, n + 1)
  {
    hide After;
    forall k | i < k <= n + 1 ensures id in After(es, k).ifaces && After(es, k).ifaces[id].state != Claimed {
      if k <= n {
      } else {
        assert k == n + 1;
      }
    }
  }

  lemma InstallingStep(es: seq<Event>, n: nat, id: string)
    requires n < |es| && Explained(es, n, id) && Is(After(es, n + 1), id, InstallFlows)
    ensures WasInstalling(es, n + 1, id)
  {
    hide Step, LeftClaimed;
    var m, m' := After(es, n), After(es, n + 1);
    assert m' == Step(m, es[n]);
    Transitions(m, es[n], id);
    if m.ifaces[id].state == InstallFlows {
      var i: nat :| Installing(es, n, id, i);
      LeftClaimedStep(es, id, i, n);
      assert Installing(es, n + 1, id, i);
    } else {
      LeavesNow(es, id, n);
      assert Installing(es, n + 1, id, n);
    }
  }

  lemma LeavesNow(es: seq<Event>, id: string, n: nat)
    requires n < |es| && es[n].Updating? && Is(After(es, n), id, Claimed)
    requires id in After(es, n + 1).ifaces && After(es, n + 1).ifaces[id].state != Claimed
    ensures LeftClaimed(es, id, n, n + 1)
  {
    hide After;
    forall k | n < k <= n + 1 ensures id in After(es, k).ifaces && After(es, k).ifaces[id].state != Claimed {
      assert k == n + 1;
    }
  }

  lemma BroughtUpStep(es: seq<Event>, n: nat, id: string)
    requires n < |es| && Explained(es, n, id)
    requires id in After(es, n + 1).ifaces && FlowsIn(After(es, n + 1).ifaces[id].state)
    ensures WasBroughtUp(es, n + 1, id)
  {
    hide Step;
    var m, m' := After(es, n), After(es, n + 1);
    assert m' == Step(m, es[n]);
    Transitions(m, es[n], id);
    if FlowsIn(m.ifaces[id].state) {
      var i: nat :| BroughtUp(es, n, id, i);
      LeftClaimedStep(es, id, i, n);
      assert BroughtUp(es, n + 1, id, i);
    } else if m.ifaces[id].state == InstallFlows {
      var i: nat :| Installing(es, n, id, i);
      LeftClaimedStep(es, id, i, n);
      assert i < n < n + 1 && es[n].Running? && After(es, i).seqno + 1 in es[n].acked;
      assert BroughtUp(es, n + 1, id, i);
    } else {
      LeavesNow(es, id, n);
      assert BroughtUp(es, n + 1, id, n);
    }
  }

  lemma {:induction false} AllExplained(es: seq<Event>, n: nat, id: string)
    requires n <= |es|
    ensures Explained(es, n, id)
  {
    if n > 0 {
      AllExplained(es, n - 1, id);
      ExplainedStep(es, n - 1, id);
    }
  }

  // ---- Whole runs ----

  /** MAIN RESULT.  An interface whose flows are taken to be installed was last
      let out of the claimed state by an update i; if it was a VIF then, that
      update asked for an acknowledgement, and a run saw it after i. */
  lemma UpOnlyAfterAck(es: seq<Event>, n: nat, id: string)
    requires n <= |es| && id in After(es, n).ifaces && FlowsIn(After(es, n).ifaces[id].state)
    ensures exists i: nat :: LeftClaimed(es, id, i, n) && (After(es, i).ifaces[id].isVif ==> AckedBetween(es, i, n))
  {
    AllExplained(es, n, id);
    var i: nat :| BroughtUp(es, n, id, i);
  }

  lemma {:induction false} VifThroughout(es: seq<Event>, n: nat, id: string)
    requires n <= |es| && forall k :: 0 <= k < |es| && es[k].Claiming? && es[k].id == id ==> es[k].vif
    ensures id in After(es, n).ifaces ==> After(es, n).ifaces[id].isVif
  {
    if n > 0 {
      VifThroughout(es, n - 1, id);
      VifStep(After(es, n - 1), es[n - 1], id);
    }
  }

  lemma VifStep(m: Mgr, e: Event, id: string)
    requires id in m.ifaces ==> m.ifaces[id].isVif
    requires e.Claiming? && e.id == id ==> e.vif
    ensures id in Step(m, e).ifaces ==> Step(m, e).ifaces[id].isVif
  {
  }

  /** MAIN RESULT.  An interface that is only ever claimed as a VIF is marked up
      or installed only after an acknowledgement of the sequence number that was
      requested since it was last claimed. */
  lemma VifUpOnlyAfterAck(es: seq<Event>, n: nat, id: string)
    requires n <= |es| && forall k :: 0 <= k < |es| && es[k].Claiming? && es[k].id == id ==> es[k].vif
    requires Is(After(es, n), id, MarkUp) || Is(After(es, n), id, Installed)
    ensures exists i: nat :: LeftClaimed(es, id, i, n) && AckedBetween(es, i, n)
  {
    UpOnlyAfterAck(es, n, id);
    var i: nat :| LeftClaimed(es, id, i, n) && (After(es, i).ifaces[id].isVif ==> AckedBetween(es, i, n));
    VifThroughout(es, i, id);
  }

  /** Being a VIF is what decides: an update that may write takes a claimed
      interface straight to MarkUp exactly when it is not one. */
  lemma OthersUpAtOnce(m: Mgr, a: Answers, id: string)
    requires Is(m, id, Claimed) && a.bindings && !a.sbReadonly
    ensures Is(Update(m, a), id, MarkUp) <==> !m.ifaces[id].isVif
    ensures Is(Update(m, a), id, InstallFlows) <==> m.ifaces[id].isVif
  {
    assert Updated(a, m.seqno, id, m.ifaces[id]).Some?;
  }

  /** MAIN RESULT.  Sequence numbers: an interface waits for one exactly when its
      flows are being installed, and then for one that was requested. */
  lemma SeqnosRequested(es: seq<Event>, n: nat, id: string)
    requires n <= |es| && id in After(es, n).ifaces
    ensures var f := After(es, n).ifaces[id];
            && (f.state != InstallFlows ==> f.installSeqno == 0)
            && (f.state == InstallFlows ==>
                  && 1 <= f.installSeqno <= After(es, n).seqno
                  && exists i: nat :: i < n && AsksAt(es, i) && After(es, i).seqno + 1 == f.installSeqno)
  {
    hide After, LeftClaimed, BroughtUp;
    AllExplained(es, n, id);
    if After(es, n).ifaces[id].state == InstallFlows {
      var i: nat :| Installing(es, n, id, i);
      EarlierThan(es, id, i, n);
      AskedFor(es, i);
      SeqnoGrows(es, i + 1, n);
    }
  }

  lemma EarlierThan(es: seq<Event>, id: string, i: nat, n: nat)
    requires n <= |es| && LeftClaimed(es, id, i, n)
    ensures i < n
  {
  }

  lemma AskedFor(es: seq<Event>, i: nat)
    requires i < |es| && AsksAt(es, i)
    ensures After(es, i + 1).seqno == After(es, i).seqno + 1
  {
  }

  lemma SeqnoStep(m: Mgr, e: Event)
    ensures m.seqno <= Step(m, e).seqno
  {
  }

  lemma {:induction false} SeqnoGrows(es: seq<Event>, i: nat, n: nat)
    requires i <= n <= |es|
    ensures After(es, i).seqno <= After(es, n).seqno
  {
    hide Step;
    if i < n {
      SeqnoGrows(es, i, n - 1);
      SeqnoStep(After(es, n - 1), es[n - 1]);
    }
  }

  /** No number is asked for twice. */
  lemma AskedOnce(es: seq<Event>, i: nat, j: nat)
    requires i < j < |es| && AsksAt(es, i) && AsksAt(es, j)
    ensures After(es, i).seqno < After(es, j).seqno
  {
    AskedFor(es, i);
    SeqnoGrows(es, i + 1, j);
  }

  /** Outside a clear, the record of an interface goes away only in
      an update, and only from MarkDown or UpdatePort. */
  lemma GoneOnlyFromDown(es: seq<Event>, n: nat, id: string)
    requires n < |es| && id in After(es, n).ifaces && id !in After(es, n + 1).ifaces
    ensures es[n].Clearing? || (es[n].Updating? && (Is(After(es, n), id, MarkDown) || Is(After(es, n), id, UpdatePort)))
  {
    var m := After(es, n);
    assert After(es, n + 1) == Step(m, es[n]);
    if es[n].Updating? {
      var a := es[n].a;
      assert a.bindings ==> Updated(a, m.seqno, id, m.ifaces[id]) == None;
    }
  }

  // ---- The name of an interface ----

  /** Event i is the claim that created the interface present at moment n. */
  ghost predicate Created(es: seq<Event>, id: string, i: nat, n: nat)
    requires n <= |es|
  {
    && i < n && es[i].Claiming? && es[i].id == id && id !in After(es, i).ifaces
    && forall k :: i < k <= n ==> id in After(es, k).ifaces
  }

  /** The name is given by the claim that creates the interface, and by no later
      event. */
  lemma NameStep(m: Mgr, e: Event, id: string)
    requires id in Step(m, e).ifaces
    ensures id in m.ifaces ==> Step(m, e).ifaces[id].name == m.ifaces[id].name
    ensures id !in m.ifaces ==> e.Claiming? && e.id == id && Step(m, e).ifaces[id].name == e.name
  {
  }

  lemma {:induction false} CreatedBy(es: seq<Event>, id: string, n: nat) returns (i: nat)
    requires n <= |es| && id in After(es, n).ifaces
    ensures Created(es, id, i, n) && After(es, n).ifaces[id].name == es[i].name
  {
    hide Step;
    NameStep(After(es, n - 1), es[n - 1], id);
    if id in After(es, n - 1).ifaces {
      i := CreatedBy(es, id, n - 1);
    } else {
      i := n - 1;
    }
  }

  lemma CreatedOnce(es: seq<Event>, id: string, i: nat, j: nat, n: nat)
    requires n <= |es| && Created(es, id, i, n) && Created(es, id, j, n)
    ensures i == j
  {
    hide After;
  }

  /** MAIN RESULT.  In every state of every run, a delete compares with a null name
      iff it carries a record and the claim that created the present interface
      carried none, whatever records later claims carried. */
  lemma NullComparedIff(es: seq<Event>, n: nat, id: string, recName: Option<string>)
    requires n <= |es|
    ensures ComparesNull(After(es, n), id, recName) <==>
            recName.Some? && exists i: nat :: Created(es, id, i, n) && es[i].name.None?
  {
    hide After;
    if id in After(es, n).ifaces {
      var i := CreatedBy(es, id, n);
      forall j: nat | Created(es, id, j, n) ensures j == i { CreatedOnce(es, id, i, j, n); }
    }
  }

  /** Any claim without a record is followed by such a state, also if the interface is
      claimed again with a record. */
  lemma NullNameReached(id: string, first: Event, again: Event, recName: string)
    requires first.Claiming? && first.id == id && first.name.None? && again.Claiming? && again.id == id
    ensures ComparesNull(After([first], 1), id, Some(recName))
    ensures ComparesNull(After([first, again], 2), id, Some(recName))
  {
    var es := [first, again];
    assert After([first], 1) == Step(After([first], 0), first) && After(es, 1) == Step(After(es, 0), first);
    assert After(es, 2) == Step(After(es, 1), again);
  }
}
