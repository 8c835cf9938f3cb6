/** The interface status manager (ovn/controller/if-status.c): one state machine
    per local interface, an index of the interfaces by state, sequence numbers
    that tell when the flows of a new interface are installed, and a counter of
    the memory in use.  What the binding module and the databases answer is
    taken as given by `Answers`. */
module IfStatus {
  import opened Common

  datatype State = Claimed | InstallFlows | RemOldOvnInst | MarkUp | Uninstalled | Installed | MarkDown | UpdatePort

  datatype BindType = AsMain | AsAdditional | CannotBind

  datatype Iface = Iface(name: Option<string>, pb: nat, state: State, installSeqno: nat, mtu: nat,
                         bindType: BindType, isVif: bool)

  /** What the manager stands for between two calls. */
  datatype Mgr = Mgr(ifaces: map<string, Iface>, uninstall: map<string, nat>, claimedCr: set<string>, seqno: nat)

  /** What the binding module and the databases say during one call.  Without
      `bindings` there is no binding data at all. */
  datatype Answers = Answers(
    bindings: bool,
    ovsReadonly: bool,
    sbReadonly: bool,
    ovnInstalled: string -> bool,
    chassisSet: string -> bool,
    postponed: string -> bool,
    isUp: string -> bool,
    isDown: string -> bool,
    bound: string -> bool)

  /** What a run tells the binding module to do. */
  datatype Notices = Notices(down: set<string>, removeInstalled: set<string>, up: set<string>)

  function Empty(): Mgr {
    Mgr(map[], map[], {}, 0)
  }

  function Moved(i: Iface, s: State): Iface {
    i.(state := s, installSeqno := 0)
  }

  // ---- One interface in one call ----

  function ClaimedIface(prior: Option<Iface>, pb: nat, name: Option<string>, mtu: nat, b: BindType, vif: bool): Iface {
    var i := match prior
      case None => Iface(name, pb, Claimed, 0, if name.Some? then mtu else 0, b, vif)
      case Some(i) => i.(pb := pb, bindType := b, isVif := vif);
    if i.state in {Installed, Uninstalled, MarkDown, UpdatePort} then Moved(i, Claimed) else i
  }

  function ReleasedIface(i: Iface): Iface {
    if i.state in {MarkDown, UpdatePort} then i else Moved(i, MarkDown)
  }

  /** The binding is up, and the chassis column is ours or can be written now. */
  predicate Confirmed(a: Answers, id: string, i: Iface) {
    && (a.chassisSet(id) || (!a.sbReadonly && (i.isVif ==> !a.postponed(id))))
    && a.isUp(id)
  }

  function MarkUpNext(a: Answers, id: string, i: Iface): Iface {
    if Confirmed(a, id, i) then Moved(i, Installed) else i
  }

  /** Where one call of update leads one interface; None when its record goes. */
  function Updated(a: Answers, seqno: nat, id: string, i: Iface): Option<Iface> {
    match i.state
    case RemOldOvnInst => Some(if a.ovnInstalled(id) then i else MarkUpNext(a, id, Moved(i, MarkUp)))
    case MarkUp => Some(MarkUpNext(a, id, i))
    case MarkDown =>
      if !a.bound(id) then if a.sbReadonly then Some(Moved(i, UpdatePort)) else None
      else if a.isDown(id) then None
      else Some(i)
    case Claimed =>
      Some(if a.sbReadonly then i
           else if i.isVif then Moved(i, InstallFlows).(installSeqno := seqno + 1)
           else Moved(i, MarkUp))
    case UpdatePort => if a.sbReadonly then Some(i) else None
    case _ => Some(i)
  }

  /** Where one run leads one interface. */
  function Acked(acked: set<nat>, a: Answers, id: string, i: Iface): Iface {
    if i.state == InstallFlows && i.installSeqno in acked
    then Moved(i, if !a.bindings || a.ovnInstalled(id) then RemOldOvnInst else MarkUp)
    else i
  }

  // ---- The manager in one call ----

  function Claim(m: Mgr, id: string, pb: nat, name: Option<string>, mtu: nat, b: BindType, vif: bool,
                 otherChassis: bool): Mgr {
    var was := if id in m.ifaces then Some(m.ifaces[id]) else None;
    m.(ifaces := m.ifaces[id := ClaimedIface(was, pb, name, mtu, b, vif)],
       claimedCr := m.claimedCr + if otherChassis then {id} else {})
  }

  function Release(m: Mgr, id: string): Mgr {
    if id in m.ifaces then m.(ifaces := m.ifaces[id := ReleasedIface(m.ifaces[id])]) else m
  }

  /** The OVS record given to a delete must carry the name the interface is bound
      to; a delete that names another record is ignored. */
  function Delete(m: Mgr, id: string, recName: Option<string>): Mgr {
    if id in m.ifaces && (recName == None || recName == m.ifaces[id].name) then Release(m, id) else m
  }

  /** A delete that carries a record compares names where the interface has none:
      the program passes a null pointer to strcmp(). */
  predicate ComparesNull(m: Mgr, id: string, recName: Option<string>) {
    recName.Some? && id in m.ifaces && m.ifaces[id].name.None?
  }

  /** Some claimed interface that waits for its flows is let through. */
  predicate Requests(m: Mgr, a: Answers) {
    a.bindings && !a.sbReadonly && exists id :: id in m.ifaces && m.ifaces[id].state == Claimed && m.ifaces[id].isVif
  }

  function Update(m: Mgr, a: Answers): Mgr {
    var u := if a.ovsReadonly then m.uninstall else map[];
    if !a.bindings then m.(uninstall := u)
    else Mgr(map id | id in m.ifaces && Updated(a, m.seqno, id, m.ifaces[id]).Some? ::
               Updated(a, m.seqno, id, m.ifaces[id]).value,
             u, m.claimedCr, if Requests(m, a) then m.seqno + 1 else m.seqno)
  }

  function RemoveOvnInstalled(m: Mgr, name: string, uuid: nat, id: Option<string>): Mgr {
    var m := if name in m.uninstall then m else m.(uninstall := m.uninstall[name := uuid]);
    if id.Some? && id.value in m.ifaces && m.ifaces[id.value].state == MarkUp
    then m.(ifaces := m.ifaces[id.value := Moved(m.ifaces[id.value], Uninstalled)])
    else m
  }

  function Run(m: Mgr, acked: set<nat>, a: Answers): Mgr {
    m.(ifaces := map id | id in m.ifaces :: Acked(acked, a, id, m.ifaces[id]), claimedCr := {})
  }

  function InState(m: map<string, Iface>, s: State): set<string> {
    set id | id in m && m[id].state == s
  }

  // ---- Memory ----

  datatype Sizes = Sizes(iface: nat, uuid: nat, node: nat)

  function NameLength(name: Option<string>): nat {
    if name.Some? then |name.value| else 0
  }

  function IfaceSize(sz: Sizes, id: string, name: Option<string>): nat {
    |id| + sz.iface + sz.node + NameLength(name)
  }

  function UninstallSize(sz: Sizes, name: string): nat {
    |name| + sz.uuid + sz.node
  }

  ghost function Total(m: map<string, nat>): nat {
    if m == map[] then 0 else var k :| k in m; m[k] + Total(m - {k})
  }

  /** The total does not depend on the order in which the keys are taken. */
  lemma {:induction false} TotalSplit(m: map<string, nat>, k: string)
    requires k in m
    ensures Total(m) == m[k] + Total(m - {k})
    decreases |m|
  {
    var j :| j in m && Total(m) == m[j] + Total(m - {j});
    if j != k {
      TotalSplit(m - {j}, k);
      assert m - {j} - {k} == m - {k} - {j};
      TotalSplit(m - {k}, j);
    }
  }

  ghost function IfaceSizes(sz: Sizes, m: map<string, Iface>): map<string, nat> {
    map id | id in m :: IfaceSize(sz, id, m[id].name)
  }

  ghost function UninstallSizes(sz: Sizes, m: map<string, nat>): map<string, nat> {
    map n | n in m :: UninstallSize(sz, n)
  }

  ghost function Usage(sz: Sizes, ifaces: map<string, Iface>, uninstall: map<string, nat>): nat {
    Total(IfaceSizes(sz, ifaces)) + Total(UninstallSizes(sz, uninstall))
  }

  lemma UsageNewIface(sz: Sizes, m: map<string, Iface>, u: map<string, nat>, id: string, i: Iface)
    requires id !in m
    ensures Usage(sz, m[id := i], u) == Usage(sz, m, u) + IfaceSize(sz, id, i.name)
  {
    var s := IfaceSizes(sz, m[id := i]);
    TotalSplit(s, id);
    assert s - {id} == IfaceSizes(sz, m);
  }

  lemma UsageLessIface(sz: Sizes, m: map<string, Iface>, u: map<string, nat>, id: string)
    requires id in m
    ensures Usage(sz, m - {id}, u) == Usage(sz, m, u) - IfaceSize(sz, id, m[id].name)
  {
    UsageNewIface(sz, m - {id}, u, id, m[id]);
    assert (m - {id})[id := m[id]] == m;
  }

  lemma UsageSameIface(sz: Sizes, m: map<string, Iface>, u: map<string, nat>, id: string, i: Iface)
    requires id in m && i.name == m[id].name
    ensures Usage(sz, m[id := i], u) == Usage(sz, m, u)
  {
    assert IfaceSizes(sz, m[id := i]) == IfaceSizes(sz, m);
  }

  lemma UsageNewName(sz: Sizes, m: map<string, Iface>, u: map<string, nat>, n: string, uuid: nat)
    requires n !in u
    ensures Usage(sz, m, u[n := uuid]) == Usage(sz, m, u) + UninstallSize(sz, n)
  {
    var s := UninstallSizes(sz, u[n := uuid]);
    TotalSplit(s, n);
    assert s - {n} == UninstallSizes(sz, u);
  }

  lemma UsageLessName(sz: Sizes, m: map<string, Iface>, u: map<string, nat>, n: string)
    requires n in u
    ensures Usage(sz, m, u - {n}) == Usage(sz, m, u) - UninstallSize(sz, n)
  {
    UsageNewName(sz, m, u - {n}, n, u[n]);
    assert (u - {n})[n := u[n]] == u;
  }

  // ---- The phases of an update ----

  /** Each phase of an update walks the interfaces that are in one state. */
  datatype Phase = ConfirmRemoved | ConfirmUp | ConfirmDown | Install | SetPortDown

  function Walked(p: Phase): State {
    match p
    case ConfirmRemoved => RemOldOvnInst
    case ConfirmUp => MarkUp
    case ConfirmDown => MarkDown
    case Install => Claimed
    case SetPortDown => UpdatePort
  }

  /** What a phase does to an interface it walks over. */
  function Stepped(p: Phase, a: Answers, seqno: nat, id: string, i: Iface): Option<Iface> {
    match p
    case ConfirmRemoved => Some(if a.ovnInstalled(id) then i else Moved(i, MarkUp))
    case ConfirmUp => Some(MarkUpNext(a, id, i))
    case ConfirmDown => if !a.bound(id) then Some(Moved(i, UpdatePort)) else if a.isDown(id) then None else Some(i)
    case Install => Some(if i.isVif then Moved(i, InstallFlows).(installSeqno := seqno + 1) else Moved(i, MarkUp))
    case SetPortDown => None
  }

  /** The interfaces of the phase have taken their step, but for those in `todo`. */
  ghost predicate Phased(p: Phase, a: Answers, seqno: nat, was: map<string, Iface>, now: map<string, Iface>,
                         todo: set<string>) {
    && (forall id :: id in now ==> id in was)
    && (forall id :: id in was && was[id].state == Walked(p) && id !in todo ==>
          var s := Stepped(p, a, seqno, id, was[id]); (id in now <==> s.Some?) && (id in now ==> now[id] == s.value))
    && (forall id :: id in was && !(was[id].state == Walked(p) && id !in todo) ==> id in now && now[id] == was[id])
  }

  lemma PhasedStart(p: Phase, a: Answers, seqno: nat, m: map<string, Iface>)
    ensures Phased(p, a, seqno, m, m, InState(m, Walked(p)))
  {
  }

  lemma PhasedStep(p: Phase, a: Answers, seqno: nat, was: map<string, Iface>, now: map<string, Iface>,
                   todo: set<string>, id: string)
    requires Phased(p, a, seqno, was, now, todo) && id in todo && id in was && was[id].state == Walked(p)
    ensures id in now && now[id] == was[id]
    ensures var s := Stepped(p, a, seqno, id, now[id]);
            Phased(p, a, seqno, was, if s.Some? then now[id := s.value] else now - {id}, todo - {id})
  {
  }

  function At(m: map<string, Iface>, id: string): Option<Iface> {
    if id in m then Some(m[id]) else None
  }

  /** A whole phase, seen at one identifier. */
  predicate PhasedAt(p: Phase, a: Answers, seqno: nat, id: string, was: Option<Iface>, now: Option<Iface>) {
    now == if was.Some? && was.value.state == Walked(p) then Stepped(p, a, seqno, id, was.value) else was
  }

  lemma PhaseAt(p: Phase, a: Answers, seqno: nat, was: map<string, Iface>, now: map<string, Iface>, id: string)
    requires Phased(p, a, seqno, was, now, {})
    ensures PhasedAt(p, a, seqno, id, At(was, id), At(now, id))
  {
  }

  /** The five phases, in their order, do to an interface what `Updated` says. */
  lemma PhasesCompose(a: Answers, seqno: nat, m0: map<string, Iface>, m1: map<string, Iface>, m2: map<string, Iface>,
                      m3: map<string, Iface>, m4: map<string, Iface>, m5: map<string, Iface>, id: string)
    requires Phased(ConfirmRemoved, a, seqno, m0, m1, {})
    requires Phased(ConfirmUp, a, seqno, m1, m2, {})
    requires Phased(ConfirmDown, a, seqno, m2, m3, {})
    requires if a.sbReadonly then m4 == m3 && m5 == m4
             else Phased(Install, a, seqno, m3, m4, {}) && Phased(SetPortDown, a, seqno, m4, m5, {})
    ensures At(m5, id) == if id in m0 then Updated(a, seqno, id, m0[id]) else None
    ensures id in m3 && m3[id].state == Claimed <==> id in m0 && m0[id].state == Claimed
    ensures id in m0 && m0[id].state == Claimed ==> m3[id] == m0[id]
  {
    hide Phased;
    PhaseAt(ConfirmRemoved, a, seqno, m0, m1, id);
    PhaseAt(ConfirmUp, a, seqno, m1, m2, id);
    PhaseAt(ConfirmDown, a, seqno, m2, m3, id);
    if !a.sbReadonly {
      PhaseAt(Install, a, seqno, m3, m4, id);
      PhaseAt(SetPortDown, a, seqno, m4, m5, id);
    }
  }

  lemma UpdatedAll(m: Mgr, a: Answers, now: map<string, Iface>)
    requires a.bindings
    requires forall id :: At(now, id) == if id in m.ifaces then Updated(a, m.seqno, id, m.ifaces[id]) else None
    ensures now == Update(m, a).ifaces
  {
    hide Updated;
    var u := Update(m, a).ifaces;
    forall id ensures id in now <==> id in u ensures id in now ==> now[id] == u[id] {
      assert At(now, id) == if id in m.ifaces then Updated(a, m.seqno, id, m.ifaces[id]) else None;
    }
  }

  /** Acknowledged interfaces have moved on, but for those in `todo`. */
  ghost predicate AckedFor(was: map<string, Iface>, now: map<string, Iface>, acked: set<nat>, a: Answers,
                           todo: set<string>) {
    now.Keys == was.Keys && forall id :: id in was ==>
        now[id] == if id in todo then was[id] else Acked(acked, a, id, was[id])
  }

  lemma AckedStart(m: map<string, Iface>, acked: set<nat>, a: Answers)
    ensures AckedFor(m, m, acked, a, InState(m, InstallFlows))
  {
  }

  lemma AckedStep(was: map<string, Iface>, now: map<string, Iface>, acked: set<nat>, a: Answers, todo: set<string>,
                  id: string)
    requires AckedFor(was, now, acked, a, todo) && id in todo && id in was && was[id].state == InstallFlows
    ensures id in now && now[id] == was[id]
    ensures AckedFor(was, now[id := Acked(acked, a, id, was[id])], acked, a, todo - {id})
  {
    hide Acked;
  }

  lemma AckedAll(m: Mgr, now: map<string, Iface>, acked: set<nat>, a: Answers)
    requires AckedFor(m.ifaces, now, acked, a, {})
    ensures now == Run(m, acked, a).ifaces
  {
    hide Acked;
  }

  /** Each interface is in the index set of its own state and in no other. */
  ghost predicate Indexed(ifaces: map<string, Iface>, perState: map<State, set<string>>) {
    && (forall s: State :: s in perState)
    && (forall s, id :: s in perState ==> (id in perState[s] <==> id in ifaces && ifaces[id].state == s))
  }

  /** Moving one interface between two sets keeps the index. */
  lemma IndexMoved(m: map<string, Iface>, x: map<State, set<string>>, id: string, i: Iface)
    requires Indexed(m, x)
    ensures var o := if id in m then m[id].state else Claimed;
            var x' := x[o := x[o] - {id}];
            Indexed(m[id := i], x'[i.state := x'[i.state] + {id}])
  {
  }

  lemma IndexDropped(m: map<string, Iface>, x: map<State, set<string>>, id: string)
    requires Indexed(m, x) && id in m
    ensures Indexed(m - {id}, x[m[id].state := x[m[id].state] - {id}])
  {
  }

  class IfStatusMgr {
    const sz: Sizes
    var ifaces: map<string, Iface>
    var uninstall: map<string, nat>
    var perState: map<State, set<string>>
    var claimedCr: set<string>
    var seqno: nat
    var usage: int

    ghost predicate Valid()
      reads this
    {
      && Indexed(ifaces, perState)
      && usage == Usage(sz, ifaces, uninstall)
    }

    ghost function View(): Mgr
      reads this
    {
      Mgr(ifaces, uninstall, claimedCr, seqno)
    }

    constructor (sz: Sizes)
      ensures Valid() && View() == Empty() && this.sz == sz
    {
      this.sz := sz;
      ifaces, uninstall, claimedCr, seqno, usage := map[], map[], {}, 0, 0;
      perState := map[Claimed := {}, InstallFlows := {}, RemOldOvnInst := {}, MarkUp := {},
                      Uninstalled := {}, Installed := {}, MarkDown := {}, UpdatePort := {}];
      new;
      forall s: State ensures s in perState {
        match s
        case Claimed => case InstallFlows => case RemOldOvnInst => case MarkUp =>
        case Uninstalled => case Installed => case MarkDown => case UpdatePort =>
      }
    }

    /** Moves a record to a state: out of one index set, into the other. */
    method SetState(id: string, s: State)
      requires Valid() && id in ifaces
      modifies this`ifaces, this`perState
      ensures Valid() && ifaces == old(ifaces)[id := Moved(old(ifaces)[id], s)]
    {
      hide Indexed, Usage;
      IndexMoved(ifaces, perState, id, Moved(ifaces[id], s));
      UsageSameIface(sz, ifaces, uninstall, id, Moved(ifaces[id], s));
      IndexTotal(ifaces, perState);
      var o := ifaces[id].state;
      perState := perState[o := perState[o] - {id}];
      ifaces := ifaces[id := ifaces[id].(state := s)];
      perState := perState[s := perState[s] + {id}];
      ifaces := ifaces[id := ifaces[id].(installSeqno := 0)];
      assert ifaces == old(ifaces)[id := Moved(old(ifaces)[id], s)];
    }

    /** Replaces what is neither the state nor the name of a record. */
    method Amend(id: string, i: Iface)
      requires Valid() && id in ifaces && i.state == ifaces[id].state && i.name == ifaces[id].name
      modifies this`ifaces
      ensures Valid() && ifaces == old(ifaces)[id := i]
    {
      UsageSameIface(sz, ifaces, uninstall, id, i);
      ifaces := ifaces[id := i];
    }

    method Create(id: string, name: Option<string>, mtu: nat)
      requires Valid() && id !in ifaces
      modifies this`ifaces, this`perState, this`usage
      ensures Valid()
      ensures ifaces == old(ifaces)[id := Iface(name, 0, Claimed, 0, if name.Some? then mtu else 0, CannotBind, false)]
    {
      hide Indexed, Usage;
      var i := Iface(name, 0, Claimed, 0, if name.Some? then mtu else 0, CannotBind, false);
      IndexMoved(ifaces, perState, id, i);
      UsageNewIface(sz, ifaces, uninstall, id, i);
      IndexTotal(ifaces, perState);
      ifaces := ifaces[id := i];
      perState := perState[Claimed := perState[Claimed] - {id}];
      perState := perState[Claimed := perState[Claimed] + {id}];
      usage := usage + IfaceSize(sz, id, name);
    }

    method Destroy(id: string)
      requires Valid() && id in ifaces
      modifies this`ifaces, this`perState, this`usage
      ensures Valid() && ifaces == old(ifaces) - {id}
    {
      hide Indexed, Usage;
      IndexDropped(ifaces, perState, id);
      UsageLessIface(sz, ifaces, uninstall, id);
      IndexTotal(ifaces, perState);
      var i := ifaces[id];
      perState := perState[i.state := perState[i.state] - {id}];
      ifaces := ifaces - {id};
      usage := usage - IfaceSize(sz, id, i.name);
    }

    method ClaimIface(id: string, pb: nat, name: Option<string>, mtu: nat, b: BindType, vif: bool, otherChassis: bool)
      requires Valid()
      modifies this
      ensures Valid() && View() == Claim(old(View()), id, pb, name, mtu, b, vif, otherChassis)
    {
      hide Indexed, Usage;
      ghost var was := ifaces;
      if id !in ifaces {
        Create(id, name, mtu);
      }
      Amend(id, ifaces[id].(bindType := b, isVif := vif, pb := pb));
      assert ifaces == was[id := ifaces[id]];
      if otherChassis {
        claimedCr := claimedCr + {id};
      }
      ghost var i := ifaces[id];
      assert was[id := i][id := Moved(i, Claimed)] == was[id := Moved(i, Claimed)];
      match ifaces[id].state
      case Installed | Uninstalled | MarkDown | UpdatePort => SetState(id, Claimed);
      case _ =>
    }

    method ReleaseIface(id: string)
      requires Valid()
      modifies this
      ensures Valid() && View() == Release(old(View()), id)
    {
      hide Indexed, Usage;
      if id !in ifaces {
        return;
      }
      match ifaces[id].state
      case MarkDown | UpdatePort =>
      case _ => SetState(id, MarkDown);
    }

    /** A comparison with a null name is reported, and nothing changes. */
    method DeleteIface(id: string, recName: Option<string>) returns (nullName: bool)
      requires Valid()
      modifies this
      ensures Valid() && View() == Delete(old(View()), id, recName)
      ensures nullName <==> ComparesNull(old(View()), id, recName)
    {
      hide Indexed, Usage;
      nullName := false;
      if id !in ifaces {
        return;
      }
      if recName.Some? {
        if ifaces[id].name.None? {
          return true;
        }
        if recName.value != ifaces[id].name.value {
          return;
        }
      }
      match ifaces[id].state
      case MarkDown | UpdatePort =>
      case _ => SetState(id, MarkDown);
    }

    method CleanOvnInstalled()
      requires Valid()
      modifies this`uninstall, this`usage
      ensures Valid() && uninstall == map[]
    {
      hide Indexed, Usage;
      while uninstall != map[]
        invariant Valid()
        decreases |uninstall|
      {
        var n :| n in uninstall;
        UsageLessName(sz, ifaces, uninstall, n);
        uninstall := uninstall - {n};
        usage := usage - UninstallSize(sz, n);
      }
    }

    method Clear()
      requires Valid()
      modifies this
      ensures Valid() && View() == Empty().(seqno := old(seqno))
      ensures forall s :: s in perState ==> perState[s] == {}
    {
      hide Indexed, Usage;
      while ifaces != map[]
        invariant Valid() && seqno == old(seqno)
        decreases |ifaces|
      {
        var id :| id in ifaces;
        Destroy(id);
      }
      claimedCr := {};
      CleanOvnInstalled();
      IndexTotal(ifaces, perState);
    }

    method WalkRemoved(a: Answers)
      requires Valid()
      modifies this`ifaces, this`perState
      ensures Valid() && Phased(ConfirmRemoved, a, seqno, old(ifaces), ifaces, {})
    {
      hide Indexed, Usage, Phased;
      ghost var was := ifaces;
      IndexTotal(ifaces, perState);
      PhasedStart(ConfirmRemoved, a, seqno, ifaces);
      var todo := perState[RemOldOvnInst];
      while todo != {}
        invariant Valid() && todo <= InState(was, RemOldOvnInst) && Phased(ConfirmRemoved, a, seqno, was, ifaces, todo)
        decreases |todo|
      {
        var id :| id in todo;
        PhasedStep(ConfirmRemoved, a, seqno, was, ifaces, todo, id);
        todo := todo - {id};
        if !a.ovnInstalled(id) {
          SetState(id, MarkUp);
        } else {
          assert ifaces[id := ifaces[id]] == ifaces;
        }
      }
    }

    method WalkMarkUp(a: Answers)
      requires Valid()
      modifies this`ifaces, this`perState
      ensures Valid() && Phased(ConfirmUp, a, seqno, old(ifaces), ifaces, {})
    {
      hide Indexed, Usage, Phased;
      ghost var was := ifaces;
      IndexTotal(ifaces, perState);
      PhasedStart(ConfirmUp, a, seqno, ifaces);
      var todo := perState[MarkUp];
      while todo != {}
        invariant Valid() && todo <= InState(was, MarkUp) && Phased(ConfirmUp, a, seqno, was, ifaces, todo)
        decreases |todo|
      {
        var id :| id in todo;
        PhasedStep(ConfirmUp, a, seqno, was, ifaces, todo, id);
        assert ifaces[id := ifaces[id]] == ifaces;
        todo := todo - {id};
        if ifaces[id].isVif {
          if !a.chassisSet(id) {
            if a.sbReadonly {
              continue;
            }
            if a.postponed(id) {
              continue;
            }
          }
          if a.isUp(id) {
            SetState(id, Installed);
          }
        } else {
          if !a.chassisSet(id) && a.sbReadonly {
            continue;
          }
          if a.isUp(id) {
            SetState(id, Installed);
          }
        }
      }
    }

    method WalkMarkDown(a: Answers)
      requires Valid()
      modifies this`ifaces, this`perState, this`usage
      ensures Valid() && Phased(ConfirmDown, a, seqno, old(ifaces), ifaces, {})
    {
      hide Indexed, Usage, Phased;
      ghost var was := ifaces;
      IndexTotal(ifaces, perState);
      PhasedStart(ConfirmDown, a, seqno, ifaces);
      var todo := perState[MarkDown];
      while todo != {}
        invariant Valid() && todo <= InState(was, MarkDown) && Phased(ConfirmDown, a, seqno, was, ifaces, todo)
        decreases |todo|
      {
        var id :| id in todo;
        PhasedStep(ConfirmDown, a, seqno, was, ifaces, todo, id);
        assert ifaces[id := ifaces[id]] == ifaces;
        todo := todo - {id};
        if !a.bound(id) {
          SetState(id, UpdatePort);
          continue;
        }
        if a.isDown(id) {
          Destroy(id);
        }
      }
    }

    method WalkClaimed(a: Answers) returns (newIfaces: bool)
      requires Valid()
      modifies this`ifaces, this`perState
      ensures Valid() && Phased(Install, a, seqno, old(ifaces), ifaces, {})
      ensures newIfaces <==> exists id :: id in old(ifaces) && old(ifaces)[id].state == Claimed && old(ifaces)[id].isVif
    {
      hide Indexed, Usage, Phased;
      ghost var was := ifaces;
      IndexTotal(ifaces, perState);
      PhasedStart(Install, a, seqno, ifaces);
      var todo := perState[Claimed];
      newIfaces := false;
      while todo != {}
        invariant Valid() && todo <= InState(was, Claimed) && Phased(Install, a, seqno, was, ifaces, todo)
        invariant newIfaces <==> exists id :: id in was && was[id].state == Claimed && was[id].isVif && id !in todo
        decreases |todo|
      {
        var id :| id in todo;
        PhasedStep(Install, a, seqno, was, ifaces, todo, id);
        ghost var before, left := ifaces, todo;
        todo := todo - {id};
        if ifaces[id].isVif {
          SetState(id, InstallFlows);
          Amend(id, ifaces[id].(installSeqno := seqno + 1));
          assert ifaces == before[id := Moved(before[id], InstallFlows).(installSeqno := seqno + 1)];
          assert id in was && was[id].isVif && id !in todo;
          newIfaces := true;
        } else {
          SetState(id, MarkUp);
          assert forall x :: x in was && was[x].isVif && x !in todo ==> x !in left;
        }
      }
    }

    method WalkUpdatePort(a: Answers)
      requires Valid()
      modifies this`ifaces, this`perState, this`usage
      ensures Valid() && Phased(SetPortDown, a, seqno, old(ifaces), ifaces, {})
    {
      hide Indexed, Usage, Phased;
      ghost var was := ifaces;
      IndexTotal(ifaces, perState);
      PhasedStart(SetPortDown, a, seqno, ifaces);
      var todo := perState[UpdatePort];
      while todo != {}
        invariant Valid() && todo <= InState(was, UpdatePort) && Phased(SetPortDown, a, seqno, was, ifaces, todo)
        decreases |todo|
      {
        var id :| id in todo;
        PhasedStep(SetPortDown, a, seqno, was, ifaces, todo, id);
        todo := todo - {id};
        Destroy(id);
      }
    }

    /** Returns the sequence number whose acknowledgement it asks for, if any. */
    method UpdateAll(a: Answers) returns (request: Option<nat>)
      requires Valid()
      modifies this
      ensures Valid() && View() == Update(old(View()), a)
      ensures request == if Requests(old(View()), a) then Some(seqno) else None
    {
      hide Indexed, Usage, Phased;
      request := None;
      if !a.ovsReadonly {
        CleanOvnInstalled();
      }
      if !a.bindings {
        return;
      }
      ghost var m0 := ifaces;
      WalkRemoved(a);
      ghost var m1 := ifaces;
      WalkMarkUp(a);
      ghost var m2 := ifaces;
      WalkMarkDown(a);
      ghost var m3 := ifaces;
      var newIfaces := false;
      if !a.sbReadonly {
        newIfaces := WalkClaimed(a);
      }
      ghost var m4 := ifaces;
      if !a.sbReadonly {
        WalkUpdatePort(a);
      }
      ghost var m5 := ifaces;
      forall id
        ensures At(m5, id) == if id in m0 then Updated(a, seqno, id, m0[id]) else None
        ensures id in m3 && m3[id].state == Claimed <==> id in m0 && m0[id].state == Claimed
        ensures id in m0 && m0[id].state == Claimed ==> m3[id] == m0[id]
      {
        PhasesCompose(a, seqno, m0, m1, m2, m3, m4, m5, id);
      }
      UpdatedAll(old(View()), a, m5);
      assert newIfaces <==> Requests(old(View()), a);
      if newIfaces {
        seqno := seqno + 1;
        request := Some(seqno);
      }
    }

    method RemoveInstalled(name: string, uuid: nat, id: Option<string>)
      requires Valid()
      modifies this
      ensures Valid() && View() == RemoveOvnInstalled(old(View()), name, uuid, id)
    {
      hide Indexed, Usage;
      if name !in uninstall {
        UsageNewName(sz, ifaces, uninstall, name, uuid);
        uninstall := uninstall[name := uuid];
        usage := usage + UninstallSize(sz, name);
      }
      if id.Some? {
        if id.value in ifaces && ifaces[id.value].state == MarkUp {
          SetState(id.value, Uninstalled);
        }
      }
    }

    /** The notices name exactly the interfaces that, after the run, are in the
        states that call for them. */
    method RunOnce(acked: set<nat>, a: Answers) returns (told: Notices)
      requires Valid()
      modifies this
      ensures Valid() && View() == Run(old(View()), acked, a)
      ensures forall id :: id in told.down <==>
                a.bindings && id in ifaces && (ifaces[id].state == InstallFlows || ifaces[id].state == MarkDown)
      ensures forall id :: id in told.removeInstalled <==>
                a.bindings && id in ifaces && ifaces[id].state == RemOldOvnInst
      ensures forall id :: id in told.up <==>
                && a.bindings && id in ifaces && ifaces[id].state == MarkUp
                && (ifaces[id].isVif || !a.sbReadonly)
    {
      hide Indexed, Usage, AckedFor;
      WalkInstallFlows(acked, a);
      AckedAll(old(View()), ifaces, acked, a);
      told := Notices({}, {}, {});
      IndexTotal(ifaces, perState);
      if a.bindings {
        var up := set id | id in perState[MarkUp] && id in ifaces && (ifaces[id].isVif || !a.sbReadonly);
        told := Notices(perState[InstallFlows] + perState[MarkDown], perState[RemOldOvnInst], up);
      }
      claimedCr := {};
    }

    method WalkInstallFlows(acked: set<nat>, a: Answers)
      requires Valid()
      modifies this`ifaces, this`perState
      ensures Valid() && AckedFor(old(ifaces), ifaces, acked, a, {})
    {
      hide Indexed, Usage, AckedFor;
      ghost var was := ifaces;
      IndexTotal(ifaces, perState);
      AckedStart(was, acked, a);
      var todo := perState[InstallFlows];
      while todo != {}
        invariant Valid() && todo <= InState(was, InstallFlows) && AckedFor(was, ifaces, acked, a, todo)
        decreases |todo|
      {
        var id :| id in todo;
        AckedStep(was, ifaces, acked, a, todo, id);
        assert ifaces[id := ifaces[id]] == ifaces;
        todo := todo - {id};
        if ifaces[id].installSeqno !in acked {
          continue;
        }
        if !a.bindings || a.ovnInstalled(id) {
          SetState(id, RemOldOvnInst);
        } else {
          SetState(id, MarkUp);
        }
      }
    }

    method IfaceUpdate(id: Option<string>, mtu: nat) returns (changed: bool)
      requires Valid()
      modifies this`ifaces
      ensures Valid()
      ensures changed <==> id.Some? && id.value in old(ifaces) && old(ifaces)[id.value].mtu != mtu
      ensures ifaces == if changed then old(ifaces)[id.value := old(ifaces)[id.value].(mtu := mtu)] else old(ifaces)
    {
      changed := false;
      if id.Some? && id.value in ifaces && ifaces[id.value].mtu != mtu {
        Amend(id.value, ifaces[id.value].(mtu := mtu));
        changed := true;
      }
    }
  }

  lemma IndexTotal(m: map<string, Iface>, x: map<State, set<string>>)
    requires Indexed(m, x)
    ensures forall s: State :: s in x && x[s] == InState(m, s)
  {
  }
}
