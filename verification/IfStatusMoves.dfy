/** Where an interface goes, target by target, and what a release, a delete and a
    claim lead to over every run. */
module IfStatusMoves {
  import opened Common
  import opened IfStatus
  import opened IfStatusRuns

  // ---- What takes an interface into each state ----

  /** The state of an interface, if there is one. */
  ghost function StateOf(m: Mgr, id: string): Option<State> {
    if id in m.ifaces then Some(m.ifaces[id].state) else None
  }

  /** The event takes the interface from somewhere else into this state. */
  ghost predicate Enters(m: Mgr, e: Event, id: string, s: State) {
    !Is(m, id, s) && Is(Step(m, e), id, s)
  }

  ghost predicate Asks(e: Event, bindings: bool) { e.Updating? && e.a.bindings == bindings }

  /** The binding answers to this chassis, or the update makes it do so. */
  ghost predicate Ours(a: Answers, id: string, vif: bool) {
    a.chassisSet(id) || (!a.sbReadonly && !(vif && a.postponed(id)))
  }

  /** A release, or a delete without a record or with the interface's own. */
  ghost predicate Lets(m: Mgr, e: Event, id: string) {
    id in m.ifaces &&
    match e
    case Releasing(i) => i == id
    case Deleting(i, n) => i == id && (n.None? || n == m.ifaces[id].name)
    case _ => false
  }

  lemma EntersClaimed(m: Mgr, e: Event, id: string)
    ensures Enters(m, e, id, Claimed) <==>
            && e.Claiming? && e.id == id
            && StateOf(m, id) in {None, Some(Installed), Some(Uninstalled), Some(MarkDown), Some(UpdatePort)}
  {
  }

  lemma EntersInstallFlows(m: Mgr, e: Event, id: string)
    ensures Enters(m, e, id, InstallFlows) <==>
            Asks(e, true) && !e.a.sbReadonly && Is(m, id, Claimed) && m.ifaces[id].isVif
  {
  }

  lemma EntersRemOldOvnInst(m: Mgr, e: Event, id: string)
    ensures Enters(m, e, id, RemOldOvnInst) <==>
            && e.Running? && Is(m, id, InstallFlows) && m.ifaces[id].installSeqno in e.acked
            && (!e.a.bindings || e.a.ovnInstalled(id))
  {
  }

  lemma EntersMarkUp(m: Mgr, e: Event, id: string)
    ensures Enters(m, e, id, MarkUp) <==>
            || (&& e.Running? && Is(m, id, InstallFlows) && m.ifaces[id].installSeqno in e.acked
                && e.a.bindings && !e.a.ovnInstalled(id))
            || (Asks(e, true) && Is(m, id, Claimed) && !m.ifaces[id].isVif && !e.a.sbReadonly)
            || (&& Asks(e, true) && Is(m, id, RemOldOvnInst) && !e.a.ovnInstalled(id)
                && !(Ours(e.a, id, m.ifaces[id].isVif) && e.a.isUp(id)))
  {
  }

  lemma EntersInstalled(m: Mgr, e: Event, id: string)
    ensures Enters(m, e, id, Installed) <==>
            && Asks(e, true)
            && (Is(m, id, MarkUp) || (Is(m, id, RemOldOvnInst) && !e.a.ovnInstalled(id)))
            && Ours(e.a, id, m.ifaces[id].isVif) && e.a.isUp(id)
  {
  }

  lemma EntersUninstalled(m: Mgr, e: Event, id: string)
    ensures Enters(m, e, id, Uninstalled) <==> e.Removing? && e.rid == Some(id) && Is(m, id, MarkUp)
  {
  }

  lemma EntersMarkDown(m: Mgr, e: Event, id: string)
    ensures Enters(m, e, id, MarkDown) <==> Lets(m, e, id) && !Is(m, id, MarkDown) && !Is(m, id, UpdatePort)
  {
  }

  lemma EntersUpdatePort(m: Mgr, e: Event, id: string)
    ensures Enters(m, e, id, UpdatePort) <==>
            Asks(e, true) && Is(m, id, MarkDown) && !e.a.bound(id) && e.a.sbReadonly
  {
  }

  lemma Leaves(m: Mgr, e: Event, id: string)
    ensures id in m.ifaces && id !in Step(m, e).ifaces <==>
            && id in m.ifaces
            && (|| e.Clearing?
                || (&& Asks(e, true)
                    && (|| (Is(m, id, MarkDown) && !e.a.bound(id) && !e.a.sbReadonly)
                        || (Is(m, id, MarkDown) && e.a.bound(id) && e.a.isDown(id))
                        || (Is(m, id, UpdatePort) && !e.a.sbReadonly))))
  {
  }

  // ---- Over every run ----

  /** On its way down, or gone. */
  ghost predicate Down(m: Mgr, id: string) {
    StateOf(m, id) in {None, Some(MarkDown), Some(UpdatePort)}
  }

  lemma DownStep(m: Mgr, e: Event, id: string)
    requires Down(m, id) && !(e.Claiming? && e.id == id)
    ensures Down(Step(m, e), id)
  {
  }

  lemma LetsDown(m: Mgr, e: Event, id: string)
    requires Lets(m, e, id)
    ensures Is(Step(m, e), id, MarkDown) || Is(Step(m, e), id, UpdatePort)
  {
  }

  /** MAIN RESULT.  After a release, or a delete that names no other record, the
      interface is marked down or waits to be set down, and until it is claimed again
      it goes nowhere but away. */
  lemma {:induction false} ReleasedStaysDown(es: seq<Event>, n: nat, k: nat, id: string)
    requires n < k <= |es| && Lets(After(es, n), es[n], id)
    requires forall j :: n < j < k && es[j].Claiming? ==> es[j].id != id
    ensures Is(After(es, n + 1), id, MarkDown) || Is(After(es, n + 1), id, UpdatePort)
    ensures Down(After(es, k), id) && (id in After(es, k).ifaces ==> !FlowsIn(After(es, k).ifaces[id].state))
    decreases k
  {
    hide Lets, Step;
    assert After(es, n + 1) == Step(After(es, n), es[n]);
    LetsDown(After(es, n), es[n], id);
    if k > n + 1 {
      ReleasedStaysDown(es, n, k - 1, id);
      DownStep(After(es, k - 1), es[k - 1], id);
    }
  }

  /** A claim leaves the interface on its way up, before or at the point where it is
      marked up. */
  lemma ClaimedIsUpward(es: seq<Event>, n: nat, id: string)
    requires n < |es| && es[n].Claiming? && es[n].id == id
    ensures StateOf(After(es, n + 1), id) in
            {Some(Claimed), Some(InstallFlows), Some(RemOldOvnInst), Some(MarkUp)}
  {
    var m, e := After(es, n), es[n];
    assert After(es, n + 1) == Step(m, e);
    var was := if id in m.ifaces then Some(m.ifaces[id]) else None;
    assert Step(m, e).ifaces[id] == ClaimedIface(was, e.pb, e.name, e.mtu, e.bind, e.vif);
    var s := Step(m, e).ifaces[id].state;
    assert s != Installed && s != Uninstalled && s != MarkDown && s != UpdatePort;
  }

  /** From any state in which a VIF is claimed, an update that may write, a run that
      sees the acknowledgement and an update that finds the binding this chassis's and
      up bring it up; between them nothing else is needed. */
  lemma BringUp(m: Mgr, a1: Answers, a2: Answers, a3: Answers, acked: set<nat>, id: string)
    requires Is(m, id, Claimed) && m.ifaces[id].isVif
    requires a1.bindings && !a1.sbReadonly && a2.bindings && !a2.ovnInstalled(id) && m.seqno + 1 in acked
    requires a3.bindings && a3.isUp(id) && (a3.chassisSet(id) || (!a3.sbReadonly && !a3.postponed(id)))
    ensures var m1 := Update(m, a1);
            var m2 := Run(m1, acked, a2);
            var m3 := Update(m2, a3);
            Is(m1, id, InstallFlows) && Is(m2, id, MarkUp) && Is(m3, id, Installed)
  {
    hide Update, Run;
    var m1 := Update(m, a1);
    EntersInstallFlows(m, Updating(a1), id);
    Waiting(m, a1, id);
    var m2 := Run(m1, acked, a2);
    EntersMarkUp(m1, Running(acked, a2), id);
    StillVif(m1, acked, a2, id);
    EntersInstalled(m2, Updating(a3), id);
  }

  lemma Waiting(m: Mgr, a: Answers, id: string)
    requires Is(m, id, Claimed) && m.ifaces[id].isVif && a.bindings && !a.sbReadonly
    ensures var m1 := Update(m, a);
            id in m1.ifaces && m1.ifaces[id].installSeqno == m.seqno + 1 && m1.ifaces[id].isVif
  {
    assert Updated(a, m.seqno, id, m.ifaces[id]).Some?;
  }

  lemma StillVif(m: Mgr, acked: set<nat>, a: Answers, id: string)
    requires id in m.ifaces
    ensures id in Run(m, acked, a).ifaces && Run(m, acked, a).ifaces[id].isVif == m.ifaces[id].isVif
  {
  }

  /** The way down: after a release, or a delete with no other record, an update that
      finds the port bound removes the record iff it finds it down as well; one that
      finds it no longer bound removes it if it may write, and otherwise the next one
      that may write does. */
  lemma TakeDown(m: Mgr, e: Event, a1: Answers, a2: Answers, id: string)
    requires Lets(m, e, id) && !Is(m, id, UpdatePort) && a1.bindings && a2.bindings && !a2.sbReadonly
    ensures var m1 := Update(Step(m, e), a1);
            && (a1.bound(id) ==> (id !in m1.ifaces <==> a1.isDown(id)) && (!a1.isDown(id) ==> Is(m1, id, MarkDown)))
            && (!a1.bound(id) && !a1.sbReadonly ==> id !in m1.ifaces)
            && (!a1.bound(id) && a1.sbReadonly ==> Is(m1, id, UpdatePort) && id !in Update(m1, a2).ifaces)
  {
    var m0 := Step(m, e);
    assert Is(m0, id, MarkDown);
    Leaves(m0, Updating(a1), id);
    EntersUpdatePort(m0, Updating(a1), id);
    Leaves(Update(m0, a1), Updating(a2), id);
  }
}
