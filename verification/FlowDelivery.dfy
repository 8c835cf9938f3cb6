/** Flow manager, connection and switch put together: once nothing is in flight,
    the flow table of the real switch is the one the flow manager means it to
    have, whatever the switch held when the connection came up. */
module FlowDelivery {
  import opened OpenFlow
  import opened FlowTable
  import FI = FlowIndex
  import FR = FlowRefinement
  import FO = FlowOrder
  import FL = FlowLeftovers
  import BT = BarrierTracker
  import BS = BarrierSafety
  import BP = BarrierPuts

  /** `base` is what the switch held when the present connection came up and `meant`
      what it will hold once it has processed everything; `ll` and `lp` are the
      ledgers of what has been asked for. */
  datatype Bridge = Bridge(
    l: Table, p: Table, w: BS.World, base: Switch, meant: Switch, ll: FO.Ledger, lp: FO.Ledger)

  const FRESH := Bridge(EMPTY_TABLE, EMPTY_TABLE, BS.START, map[], map[], map[], map[])

  datatype Event =
    | Flows(op: FR.Op)
    | Wire(e: BS.Event)
    | Reconnected(holds: Switch)
    | Put(req: nat, changed: bool, backlog: bool, orderL: seq<Key>, orderP: seq<Key>, xid: nat)

  function Sys(b: Bridge): FR.System { FR.System(b.l, b.p, b.meant) }

  /** The switch while it works through a connection: its flow table, and whether
      the open bundle holds a clear, which runs only at the commit. */
  datatype Device = Device(table: Switch, clearing: bool)

  /** One message, processed.  Messages outside the bundle take effect at once
      (section 6.9 of the OpenFlow Switch Specification 1.5.1). */
  function Process(d: Device, s: BT.Sent): Device {
    match s
    case BundleOpen(_) => d.(clearing := false)
    case BundledClear(_) => d.(clearing := true)
    case Mod(_, m) => d.(table := Apply(d.table, m))
    case BundleCommit(_) => Device(if d.clearing then map[] else d.table, false)
    case Barrier(_, _) => d
  }

  function Replay(d: Device, ss: seq<BT.Sent>): Device
    decreases |ss|
  {
    if ss == [] then d else Replay(Process(d, ss[0]), ss[1..])
  }

  /** The flow table of the real switch at this moment. */
  ghost function Real(b: Bridge): Switch
    requires b.w.done <= |b.w.sent|
  {
    Replay(Device(b.base, false), b.w.sent[..b.w.done]).table
  }

  ghost predicate Ok(b: Bridge) {
    && FR.SysOk(Sys(b)) && FO.Booked(Sys(b), b.ll, b.lp) && BS.Inv(b.w)
    && (b.w.c.state.UpdateFlows? ==>
          if b.w.c.initialClear then b.w.sent == [] && b.meant == map[]
          else Replay(Device(b.base, false), b.w.sent) == Device(b.meant, false))
  }

  ghost function Mods(b: Bridge, ol: seq<Key>, op_: seq<Key>): seq<FlowMod>
    requires FR.Fit(Sys(b))
  {
    FR.FitPopulates(b.l);
    FR.FitPopulates(b.p);
    FR.PopulateMsgs(b.l, b.p, ol, op_)
  }

  ghost predicate Unasked(l: FO.Ledger) { forall k :: FO.Means(FO.BookAt(l, k)).None? }

  /** What the environment answers for: legal flow changes and wire events, and no
      flow asked for yet when the put that carries the initial clear goes out. */
  ghost predicate Legal(b: Bridge, e: Event)
    requires FR.Fit(Sys(b))
  {
    match e
    case Flows(op) => !op.Populate? && FR.Legal(Sys(b), op)
    case Wire(e) => !e.Reconnect? && !e.PutCfg? && BS.Legal(b.w, e)
    case Reconnected(_) => true
    case Put(req, changed, backlog, ol, op_, xid) =>
      && FR.Legal(Sys(b), FR.Populate(ol, op_))
      && (BP.Clear(b.w.c, backlog) && b.w.c.initialClear ==> Unasked(b.ll) && Unasked(b.lp))
      && BS.Legal(b.w, BS.PutCfg(req, changed, backlog, Mods(b, ol, op_), xid))
  }

  /** A run of the state machine that leaves the clearing state has flushed the
      flow manager's tables; what is wanted has to be asked for again. */
  ghost function Step(b: Bridge, e: Event): Bridge
    requires FR.Fit(Sys(b)) && Legal(b, e)
  {
    match e
    case Flows(op) =>
      var s := FR.Step(Sys(b), op);
      b.(l := s.l, p := s.p, ll := FO.LedgerStep(b.ll, true, op), lp := FO.LedgerStep(b.lp, false, op))
    case Wire(e) =>
      var w := BS.Step(b.w, e);
      if b.w.c.state.ClearFlows? && w.c.state.UpdateFlows?
      then Bridge(EMPTY_TABLE, EMPTY_TABLE, w, b.base, map[], map[], map[])
      else b.(w := w)
    case Reconnected(holds) => b.(w := BS.Step(b.w, BS.Reconnect), base := holds)
    case Put(req, changed, backlog, ol, op_, xid) =>
      var b1 := b.(w := BS.Step(b.w, BS.PutCfg(req, changed, backlog, Mods(b, ol, op_), xid)));
      if !BT.Sends(b.w.c, req, changed, backlog) then b1
      else
        var s := FR.Step(Sys(b), FR.Populate(ol, op_));
        b1.(l := s.l, p := s.p, meant := s.sw,
            ll := FO.LedgerStep(b.ll, true, FR.Populate(ol, op_)),
            lp := FO.LedgerStep(b.lp, false, FR.Populate(ol, op_)))
  }

  // ---------- Replay ----------

  lemma {:induction false} ReplayConcat(d: Device, a: seq<BT.Sent>, c: seq<BT.Sent>)
    ensures Replay(d, a + c) == Replay(Replay(d, a), c)
    decreases |a|
  {
    if a == [] {
      assert a + c == c;
    } else {
      assert (a + c)[1..] == a[1..] + c;
      ReplayConcat(Process(d, a[0]), a[1..], c);
    }
  }

  lemma {:induction false} ReplayMods(d: Device, req: nat, ms: seq<FlowMod>)
    ensures Replay(d, BT.ModsOf(req, ms)) == d.(table := ApplyAll(d.table, ms))
    decreases |ms|
  {
    if ms != [] {
      assert BT.ModsOf(req, ms)[1..] == BT.ModsOf(req, ms[1..]);
      ReplayMods(d.(table := Apply(d.table, ms[0])), req, ms[1..]);
    }
  }

  /** A batch replayed.  With an initial clear in it nothing survives: the clear
      runs at the commit, after the flow mods. */
  lemma ReplayBatch(sw: Switch, c: BT.Conn, req: nat, ms: seq<FlowMod>, xid: nat)
    ensures Replay(Device(sw, false), BT.Batch(c, req, ms, xid)) ==
            Device(if c.initialClear then map[] else ApplyAll(sw, ms), false)
  {
    var b := BT.Batch(c, req, ms, xid);
    var d := Device(sw, false);
    if b != [] {
      var clear := if c.initialClear then [BT.BundledClear(req)] else [];
      var head := [BT.BundleOpen(req)] + clear;
      var tail := [BT.BundleCommit(req), BT.Barrier(req, xid)];
      assert b == head + BT.ModsOf(req, ms) + tail;
      var d1 := Device(sw, c.initialClear);
      assert Replay(d, head) == d1 by {
        assert head[1..] == clear;
        assert Replay(d, head) == Replay(d, clear);
        if c.initialClear {
          assert clear[1..] == [];
          assert Replay(d, clear) == Replay(d1, []);
        }
      }
      ReplayConcat(d, head, BT.ModsOf(req, ms));
      ReplayMods(d1, req, ms);
      ReplayConcat(d, head + BT.ModsOf(req, ms), tail);
      var d2 := d1.(table := ApplyAll(sw, ms));
      var d3 := Process(d2, tail[0]);
      assert tail[1..] == [BT.Barrier(req, xid)] && tail[1..][1..] == [];
      assert Replay(d2, tail) == Replay(d3, tail[1..]) == Replay(d3, tail[1..][1..]);
    }
  }

  // ---------- Steps ----------

  lemma PutSends(b: Bridge, req: nat, changed: bool, backlog: bool, ol: seq<Key>, op_: seq<Key>, xid: nat)
    requires Ok(b) && FR.Fit(Sys(b)) && Legal(b, Put(req, changed, backlog, ol, op_, xid))
    requires BT.Sends(b.w.c, req, changed, backlog)
    ensures var b' := Step(b, Put(req, changed, backlog, ol, op_, xid)); Ok(b') && FR.Quiet(b'.l) && FR.Quiet(b'.p)
  {
    hide FR.SysOk, FO.Booked, BS.Inv, FR.Quiet, FR.Fit, FR.Legal, BS.Legal, BT.Batch, FR.PopulateMsgs;
    var mods := Mods(b, ol, op_);
    var b' := Step(b, Put(req, changed, backlog, ol, op_, xid));
    BS.StepOk(b.w, BS.PutCfg(req, changed, backlog, mods, xid));
    FO.StepBooked(Sys(b), b.ll, b.lp, FR.Populate(ol, op_));
    PopulateApplies(b, ol, op_);
    var d := Device(b.base, false);
    ReplayConcat(d, b.w.sent, BT.Batch(b.w.c, req, mods, xid));
    if b.w.c.initialClear {
      ReplayBatch(b.base, b.w.c, req, mods, xid);
      StillUnasked(b.ll, true, ol, op_);
      StillUnasked(b.lp, false, ol, op_);
      NothingMeant(Sys(b'), b'.ll, b'.lp);
    } else {
      ReplayBatch(b.meant, b.w.c, req, mods, xid);
    }
    if BT.Batch(b.w.c, req, mods, xid) == [] { NoBatch(b.w.c, req, mods, xid); }
  }

  lemma PutOk(b: Bridge, req: nat, changed: bool, backlog: bool, ol: seq<Key>, op_: seq<Key>, xid: nat)
    requires Ok(b) && FR.Fit(Sys(b)) && Legal(b, Put(req, changed, backlog, ol, op_, xid))
    ensures Ok(Step(b, Put(req, changed, backlog, ol, op_, xid)))
    ensures BT.Sends(b.w.c, req, changed, backlog) ==>
              var b' := Step(b, Put(req, changed, backlog, ol, op_, xid)); FR.Quiet(b'.l) && FR.Quiet(b'.p)
  {
    hide FR.SysOk, FO.Booked, BS.Inv, FR.Quiet, FR.Fit, FR.Legal, BS.Legal, BT.Batch, FR.PopulateMsgs;
    var mods := Mods(b, ol, op_);
    var e := BS.PutCfg(req, changed, backlog, mods, xid);
    if BT.Sends(b.w.c, req, changed, backlog) {
      PutSends(b, req, changed, backlog, ol, op_, xid);
    } else {
      BS.StepOk(b.w, e);
      assert b.w.sent + [] == b.w.sent;
    }
  }

  /** With nothing asked for, a populate means the switch to be empty. */
  lemma NothingMeant(s: FR.System, ll: FO.Ledger, lp: FO.Ledger)
    requires FR.SysOk(s) && FO.Booked(s, ll, lp) && FR.Quiet(s.l) && FR.Quiet(s.p) && Unasked(ll) && Unasked(lp)
    ensures s.sw == map[]
  {
    FO.QuietExact(s, ll, lp);
    assert forall k :: k !in s.sw;
  }

  lemma StillUnasked(l: FO.Ledger, h: bool, ol: seq<Key>, op_: seq<Key>)
    requires Unasked(l)
    ensures Unasked(FO.LedgerStep(l, h, FR.Populate(ol, op_)))
  {
    hide FO.Means, FO.LedgerStep;
    forall k { FL.PopulateMeans(l, h, k, ol, op_); }
  }

  lemma NoBatch(c: BT.Conn, req: nat, mods: seq<FlowMod>, xid: nat)
    requires BT.Batch(c, req, mods, xid) == []
    ensures !c.initialClear
  {
  }

  lemma PopulateApplies(b: Bridge, ol: seq<Key>, op_: seq<Key>)
    requires FR.Fit(Sys(b)) && FR.Legal(Sys(b), FR.Populate(ol, op_))
    ensures FR.Step(Sys(b), FR.Populate(ol, op_)).sw == ApplyAll(b.meant, Mods(b, ol, op_))
  {
  }

  lemma WireOk(b: Bridge, e: BS.Event)
    requires Ok(b) && FR.Fit(Sys(b)) && Legal(b, Wire(e))
    ensures Ok(Step(b, Wire(e)))
  {
    hide FR.SysOk, FO.Booked, BS.Inv, FR.Fit, BS.Legal;
    BS.StepOk(b.w, e);
    FO.InitialBooked();
    WireQuiet(b.w, e);
  }

  /** Nothing but a put changes what has been sent, or the pending clear. */
  lemma WireQuiet(w: BS.World, e: BS.Event)
    requires BS.Legal(w, e) && !e.Reconnect? && !e.PutCfg? && BS.Inv(w)
    ensures var w' := BS.Step(w, e);
            && w'.sent == w.sent
            && (w.c.state.UpdateFlows? ==> w'.c.state.UpdateFlows? && w'.c.initialClear == w.c.initialClear)
            && (!w.c.state.UpdateFlows? && w'.c.state.UpdateFlows? ==>
                  w.c.state.ClearFlows? && w'.c.initialClear && w.sent == [])
  {
  }

  lemma StepOk(b: Bridge, e: Event)
    requires Ok(b) && FR.Fit(Sys(b)) && Legal(b, e)
    ensures Ok(Step(b, e))
  {
    match e
    case Flows(op) =>
      FlowsOk(b, op);
    case Wire(e) => WireOk(b, e);
    case Reconnected(holds) =>
      BS.StepOk(b.w, BS.Reconnect);
    case Put(req, changed, backlog, ol, op_, xid) => PutOk(b, req, changed, backlog, ol, op_, xid);
  }

  lemma FlowsOk(b: Bridge, op: FR.Op)
    requires Ok(b) && FR.Fit(Sys(b)) && Legal(b, Flows(op))
    ensures Ok(Step(b, Flows(op)))
  {
    hide FR.SysOk, FO.Booked, BS.Inv, FR.Fit, FR.Legal;
    FO.StepBooked(Sys(b), b.ll, b.lp, op);
    SwitchUntouched(b, op);
  }

  lemma SwitchUntouched(b: Bridge, op: FR.Op)
    requires FR.Fit(Sys(b)) && !op.Populate?
    ensures FR.Step(Sys(b), op).sw == b.meant
  {
  }

  // ---------- Whole runs ----------

  ghost predicate LegalRun(b: Bridge, es: seq<Event>)
    decreases |es|
  {
    es == [] || (FR.Fit(Sys(b)) && Legal(b, es[0]) && LegalRun(Step(b, es[0]), es[1..]))
  }

  ghost function Run(b: Bridge, es: seq<Event>): Bridge
    requires LegalRun(b, es)
    decreases |es|
  {
    if es == [] then b else Run(Step(b, es[0]), es[1..])
  }

  lemma {:induction false} RunOk(b: Bridge, es: seq<Event>)
    requires Ok(b) && LegalRun(b, es)
    ensures Ok(Run(b, es))
    decreases |es|
  {
    hide Ok, Step, Legal;
    if es != [] {
      StepOk(b, es[0]);
      RunOk(Step(b, es[0]), es[1..]);
    }
  }

  lemma DrainedExact(b: Bridge)
    requires Ok(b) && b.w.c.state.UpdateFlows? && !b.w.c.initialClear && b.w.c.updates == []
    requires FR.Quiet(b.l) && FR.Quiet(b.p)
    ensures b.w.done == |b.w.sent| && FO.Exact(Real(b), b.ll, b.lp)
  {
    hide FR.SysOk, FO.Booked, FR.Quiet, FO.Exact;
    AllDone(b.w);
    assert b.w.sent[..b.w.done] == b.w.sent;
    FO.QuietExact(Sys(b), b.ll, b.lp);
  }

  lemma AllDone(w: BS.World)
    requires BS.Inv(w) && w.c.state.UpdateFlows? && w.c.updates == []
    ensures w.done == |w.sent|
  {
    var ps :| BS.TrackedAt(w, ps);
  }

  /** The condition on the put that carries the initial clear is exact: once it is
      processed the switch is empty whatever was asked for, so it is as asked iff
      nothing was. */
  lemma ClearingPutExact(b: Bridge, req: nat, changed: bool, backlog: bool, ol: seq<Key>, op_: seq<Key>, xid: nat)
    requires Ok(b) && b.w.c.initialClear && BP.Clear(b.w.c, backlog)
    requires FR.Fit(Sys(b)) && FR.Legal(Sys(b), FR.Populate(ol, op_))
    ensures var sent := b.w.sent + BT.PutBatch(b.w.c, req, changed, backlog, Mods(b, ol, op_), xid);
            var table := Replay(Device(b.base, false), sent).table;
            table == map[] && (FO.Exact(table, b.ll, b.lp) <==> Unasked(b.ll) && Unasked(b.lp))
  {
    hide FR.SysOk, FO.Booked, BS.Inv, FR.Fit, FR.Legal, BT.Batch, FO.Means;
    var batch := BT.Batch(b.w.c, req, Mods(b, ol, op_), xid);
    assert b.w.sent + batch == batch;
    ReplayBatch(b.base, b.w.c, req, Mods(b, ol, op_), xid);
  }

  // ---------- Runs in which every change is reported ----------

  /** A bridge, watched: whether a flow change has not been reported to a put yet, and
      whether no put could go out since the last flow change. */
  datatype Watch = Watch(b: Bridge, unreported: bool, open: bool)

  const WATCH := Watch(FRESH, false, false)

  /** The put that follows a flow change is told so. */
  ghost predicate WatchLegal(x: Watch, e: Event)
    requires FR.Fit(Sys(x.b))
  {
    Legal(x.b, e) && (e.Put? && x.unreported ==> e.changed)
  }

  ghost function WatchStep(x: Watch, e: Event): Watch
    requires FR.Fit(Sys(x.b)) && WatchLegal(x, e)
  {
    var b := Step(x.b, e);
    match e
    case Flows(_) => Watch(b, true, true)
    case Put(_, _, backlog, _, _, _) => Watch(b, false, x.open && !BP.Clear(x.b.w.c, backlog))
    case Wire(_) =>
      if x.b.w.c.state.ClearFlows? && b.w.c.state.UpdateFlows? then Watch(b, false, false) else x.(b := b)
    case Reconnected(_) => x.(b := b)
  }

  /** With a put out since the last change, every flow is as the tables say; else the
      change is unreported or a put has been marked as skipped. */
  ghost predicate Watched(x: Watch) {
    && Ok(x.b)
    && (!x.open ==> FR.Quiet(x.b.l) && FR.Quiet(x.b.p))
    && (x.open && !x.unreported ==> x.b.w.c.skipped)
  }

  /** A put with a reason and a way out sends what the populate emits, in order, and
      ends in its barrier; both halves are quiet after it. */
  lemma PutQuiets(b: Bridge, req: nat, changed: bool, backlog: bool, ol: seq<Key>, op_: seq<Key>, xid: nat)
    requires Ok(b) && FR.Fit(Sys(b)) && Legal(b, Put(req, changed, backlog, ol, op_, xid))
    requires BP.Reason(b.w.c, req, changed) && BP.Clear(b.w.c, backlog)
    ensures var b' := Step(b, Put(req, changed, backlog, ol, op_, xid));
            && FR.Quiet(b'.l) && FR.Quiet(b'.p) && !b'.w.c.initialClear
            && var mods := Mods(b, ol, op_);
            exists batch :: b'.w.sent == b.w.sent + batch
              && if mods == [] && !b.w.c.initialClear then batch == []
                 else BP.Carries(batch, req, b.w.c.initialClear, mods, xid)
  {
    hide FR.SysOk, FO.Booked, BS.Inv, FR.Quiet, FR.Fit, FR.Legal, BS.Legal, BT.Batch, FR.PopulateMsgs, BP.Carries, Ok;
    var mods := Mods(b, ol, op_);
    PutSends(b, req, changed, backlog, ol, op_, xid);
    if mods == [] && !b.w.c.initialClear {
      BP.SilentPut(b.w.c, req, changed, backlog, xid);
    } else {
      BP.SendingPut(b.w.c, req, changed, backlog, mods, xid);
    }
  }

  lemma WatchPut(x: Watch, e: Event)
    requires Watched(x) && FR.Fit(Sys(x.b)) && WatchLegal(x, e) && e.Put?
    ensures Watched(WatchStep(x, e))
  {
    hide FR.SysOk, FO.Booked, BS.Inv, FR.Quiet, FR.Fit, FR.Legal, BS.Legal, BT.Batch, FR.PopulateMsgs, BP.Carries, Ok;
    var b := x.b;
    PutOk(b, e.req, e.changed, e.backlog, e.orderL, e.orderP, e.xid);
    if BP.Reason(b.w.c, e.req, e.changed) && BP.Clear(b.w.c, e.backlog) {
      PutQuiets(b, e.req, e.changed, e.backlog, e.orderL, e.orderP, e.xid);
    }
  }

  lemma WatchOther(x: Watch, e: Event)
    requires Watched(x) && FR.Fit(Sys(x.b)) && WatchLegal(x, e) && !e.Put?
    ensures Watched(WatchStep(x, e))
  {
    hide FR.SysOk, FO.Booked, BS.Inv, FR.Quiet, FR.Fit, FR.Legal, BS.Legal, Ok;
    StepOk(x.b, e);
    EmptyQuiet();
  }

  lemma EmptyQuiet()
    ensures FR.Quiet(EMPTY_TABLE)
  {
  }

  ghost predicate ReportedRun(x: Watch, es: seq<Event>)
    decreases |es|
  {
    es == [] || (FR.Fit(Sys(x.b)) && WatchLegal(x, es[0]) && ReportedRun(WatchStep(x, es[0]), es[1..]))
  }

  ghost function WatchRun(x: Watch, es: seq<Event>): Watch
    requires ReportedRun(x, es)
    decreases |es|
  {
    if es == [] then x else WatchRun(WatchStep(x, es[0]), es[1..])
  }

  /** A reported run is a run, and keeps the invariant. */
  lemma {:induction false} WatchOk(x: Watch, es: seq<Event>)
    requires Watched(x) && ReportedRun(x, es)
    ensures Watched(WatchRun(x, es))
    ensures LegalRun(x.b, es) && WatchRun(x, es).b == Run(x.b, es)
    decreases |es|
  {
    hide Watched, Step, Legal, FR.Fit;
    if es != [] {
      if es[0].Put? { WatchPut(x, es[0]); } else { WatchOther(x, es[0]); }
      WatchOk(WatchStep(x, es[0]), es[1..]);
    }
  }

  lemma WatchStart()
    ensures Watched(WATCH)
  {
    hide FR.SysOk, FO.Booked, BS.Inv;
    FreshFit();
    EmptyQuiet();
  }

  /** MAIN RESULT.  Over every run of flow changes, puts, clears, reconnects, processing
      and replies in which every flow change is reported to the put that follows it,
      with the switch holding anything at all when a connection comes up: if a put
      could go out since the last change, the clear has been sent and nothing is in
      flight, then no flow is due and the real switch holds exactly the keys asked for,
      with exactly the actions the ledgers say. */
  lemma Delivered(es: seq<Event>)
    requires ReportedRun(WATCH, es)
    requires var x := WatchRun(WATCH, es);
             !x.open && x.b.w.c.state.UpdateFlows? && !x.b.w.c.initialClear && x.b.w.c.updates == []
    ensures var b := WatchRun(WATCH, es).b;
            && FR.Quiet(b.l) && FR.Quiet(b.p)
            && b.w.done == |b.w.sent| && FO.Exact(Real(b), b.ll, b.lp)
  {
    hide FR.Quiet, FO.Exact, ReportedRun, WatchRun, Ok, FR.SysOk;
    WatchStart();
    WatchOk(WATCH, es);
    DrainedExact(WatchRun(WATCH, es).b);
  }

  // ---------- From a put to the switch ----------

  function Wires(ws: seq<BS.Event>): seq<Event> { seq(|ws|, i requires 0 <= i < |ws| => Wire(ws[i])) }

  /** While the switch answers, nothing changes but the connection. */
  lemma {:induction false} WiresRun(x: Watch, ws: seq<BS.Event>)
    requires FR.Fit(Sys(x.b)) && BS.Inv(x.b.w) && x.b.w.c.state.UpdateFlows?
    requires BS.LegalRun(x.b.w, ws) && BP.Answers(ws)
    ensures ReportedRun(x, Wires(ws))
    ensures WatchRun(x, Wires(ws)) == x.(b := x.b.(w := BS.Run(x.b.w, ws)))
    decreases |ws|
  {
    hide FR.Fit, BS.Inv, BS.Step, BS.Legal;
    if ws != [] {
      var e, w := ws[0], x.b.w;
      assert e in ws && Wires(ws)[0] == Wire(e) && Wires(ws)[1..] == Wires(ws[1..]);
      assert BP.Answers(ws[1..]) by { assert forall e :: e in ws[1..] ==> e in ws; }
      BP.AnswerStep(w, e);
      WiresRun(x.(b := x.b.(w := BS.Step(w, e))), ws[1..]);
    }
  }

  lemma {:induction false} WiresLegal(x: Watch, ws: seq<BS.Event>)
    requires BS.Inv(x.b.w) && x.b.w.c.state.UpdateFlows? && ReportedRun(x, Wires(ws)) && BP.Answers(ws)
    ensures BS.LegalRun(x.b.w, ws)
    decreases |ws|
  {
    hide FR.Fit, BS.Inv, BS.Step, BS.Legal;
    if ws != [] {
      var e, w := ws[0], x.b.w;
      assert e in ws && Wires(ws)[0] == Wire(e) && Wires(ws)[1..] == Wires(ws[1..]);
      assert BP.Answers(ws[1..]) by { assert forall e :: e in ws[1..] ==> e in ws; }
      BP.AnswerStep(w, e);
      WiresLegal(x.(b := x.b.(w := BS.Step(w, e))), ws[1..]);
    }
  }

  /** The switch answers all that the bridge has sent, and nothing else happens. */
  ghost predicate AnsweredBy(x: Watch, ws: seq<BS.Event>) {
    && BP.Answers(ws) && ReportedRun(x, Wires(ws))
    && WatchRun(x, Wires(ws)).b.w.c.updates == []
  }

  ghost predicate Through(x: Watch, e: Event)
    requires FR.Fit(Sys(x.b))
  {
    && e.Put? && WatchLegal(x, e) && x.b.w.c.state.UpdateFlows?
    && BP.GoesThrough(x.b.w.c, e.req, e.changed, e.backlog)
  }

  /** A put that goes through leaves no flow due and no clear to be sent. */
  lemma ThroughQuiets(x: Watch, e: Event)
    requires Watched(x) && FR.Fit(Sys(x.b)) && Through(x, e)
    ensures var x' := WatchStep(x, e);
            && Watched(x') && FR.Quiet(x'.b.l) && FR.Quiet(x'.b.p)
            && x'.b.w.c.state.UpdateFlows? && !x'.b.w.c.initialClear
  {
    hide FR.SysOk, FO.Booked, BS.Inv, FR.Quiet, FR.Fit, FR.Legal, BS.Legal, BT.Batch, FR.PopulateMsgs, BP.Carries, Ok;
    WatchPut(x, e);
    if BP.Reason(x.b.w.c, e.req, e.changed) {
      PutQuiets(x.b, e.req, e.changed, e.backlog, e.orderL, e.orderP, e.xid);
    }
  }

  lemma ThroughReaches(x: Watch, e: Event, ws: seq<BS.Event>)
    requires Watched(x) && FR.Fit(Sys(x.b)) && Through(x, e) && AnsweredBy(WatchStep(x, e), ws)
    ensures var x' := WatchStep(x, e);
            var b := WatchRun(x', Wires(ws)).b;
            b.w.c.cur == e.req && b.w.done == |b.w.sent| && FO.Exact(Real(b), x'.b.ll, x'.b.lp)
  {
    hide FR.SysOk, FO.Booked, BS.Inv, FR.Quiet, FR.Fit, FR.Legal, BS.Legal, BS.Step, FR.PopulateMsgs, Ok, FO.Exact,
         Real, ReportedRun, WatchRun, BS.Run, BS.LegalRun, BP.Answers, BP.GoesThrough;
    var x' := WatchStep(x, e);
    ThroughQuiets(x, e);
    OkInv(x.b);
    OkInv(x'.b);
    WiresLegal(x', ws);
    WiresRun(x', ws);
    WatchOk(x', Wires(ws));
    BP.AnswersKeep(x'.b.w, ws);
    DrainedExact(WatchRun(x', Wires(ws)).b);
    BP.Reaches(x.b.w, e.req, e.changed, e.backlog, Mods(x.b, e.orderL, e.orderP), e.xid, ws);
  }

  lemma OkInv(b: Bridge)
    requires Ok(b)
    ensures BS.Inv(b.w) && FR.Fit(Sys(b))
  {
  }

  /** MAIN RESULT.  After any such run, take a put that goes through: the switch can
      answer it, and once it has, it holds exactly what has been asked for and the
      number of the put is reached. */
  lemma PutDelivers(es: seq<Event>, e: Event)
    requires ReportedRun(WATCH, es) && FR.Fit(Sys(WatchRun(WATCH, es).b)) && Through(WatchRun(WATCH, es), e)
    ensures var x := WatchStep(WatchRun(WATCH, es), e);
            && (exists ws :: AnsweredBy(x, ws))
            && forall ws :: AnsweredBy(x, ws) ==>
                 var b := WatchRun(x, Wires(ws)).b;
                 b.w.c.cur == e.req && b.w.done == |b.w.sent| && FO.Exact(Real(b), x.b.ll, x.b.lp)
  {
    hide BS.Inv, FR.Fit, Watched, WatchStep, ReportedRun, WatchRun, FO.Exact, Real, WatchLegal, BS.LegalRun, BP.Answers;
    WatchStart();
    WatchOk(WATCH, es);
    var x0 := WatchRun(WATCH, es);
    var x := WatchStep(x0, e);
    CanAnswer(x0, e);
    forall ws | AnsweredBy(x, ws)
      ensures var b := WatchRun(x, Wires(ws)).b;
              b.w.c.cur == e.req && b.w.done == |b.w.sent| && FO.Exact(Real(b), x.b.ll, x.b.lp)
    {
      ThroughReaches(x0, e, ws);
    }
  }

  lemma CanAnswer(x: Watch, e: Event)
    requires Watched(x) && FR.Fit(Sys(x.b)) && Through(x, e)
    ensures exists ws :: AnsweredBy(WatchStep(x, e), ws)
  {
    hide BS.Inv, FR.Fit, FR.Quiet, Ok, WatchLegal, BS.LegalRun, BS.Run, ReportedRun, WatchRun, Step, BP.Answers;
    var x' := WatchStep(x, e);
    ThroughQuiets(x, e);
    OkInv(x'.b);
    var ws := BP.Settling(x'.b.w);
    WiresRun(x', ws);
    assert AnsweredBy(x', ws);
  }

  // ---------- A flow asked for before the first put ----------

  lemma {:induction false} RunSnoc(b: Bridge, es: seq<Event>, e: Event)
    requires LegalRun(b, es) && FR.Fit(Sys(Run(b, es))) && Legal(Run(b, es), e)
    ensures LegalRun(b, es + [e]) && Run(b, es + [e]) == Step(Run(b, es), e)
    decreases |es|
  {
    hide Legal, Step, FR.Fit;
    if es == [] {
      assert es + [e] == [e] && [e][1..] == [];
      assert LegalRun(Step(b, e), []);
    } else {
      assert (es + [e])[1..] == es[1..] + [e];
      RunSnoc(Step(b, es[0]), es[1..], e);
    }
  }

  /** Three turns, the wait being over, bring a new connection up. */
  const CONNECT: seq<Event> := [Wire(BS.Turns(true)), Wire(BS.Turns(true)), Wire(BS.Turns(true))]

  /** A turn of a bridge that has asked for nothing yet. */
  lemma Turned(c: BT.Conn)
    ensures var (b, e) := (FRESH.(w := BS.START.(c := c)), Wire(BS.Turns(true)));
            && FR.Fit(Sys(b)) && Legal(b, e)
            && Step(b, e) == FRESH.(w := BS.START.(c := BT.RunState(c, true)))
  {
    hide FR.Fit;
    FreshFit();
  }

  lemma Connects()
    ensures LegalRun(FRESH, CONNECT)
    ensures Run(FRESH, CONNECT)
            == FRESH.(w := BS.START.(c := BT.FRESH_CONN.(state := BT.UpdateFlows, initialClear := true)))
  {
    hide FR.Fit, Legal, Step, LegalRun, Run;
    var e := Wire(BS.Turns(true));
    Turned(BT.FRESH_CONN);
    Turned(BT.FRESH_CONN.(state := BT.WaitBeforeClear));
    Turned(BT.FRESH_CONN.(state := BT.ClearFlows));
    assert LegalRun(FRESH, []) && Run(FRESH, []) == FRESH by { NoRun(); }
    assert FRESH == FRESH.(w := BS.START.(c := BT.FRESH_CONN));
    RunSnoc(FRESH, [], e);
    RunSnoc(FRESH, [] + [e], e);
    RunSnoc(FRESH, [] + [e] + [e], e);
    assert [] + [e] + [e] + [e] == CONNECT;
  }

  lemma NoRun()
    ensures LegalRun(FRESH, []) && Run(FRESH, []) == FRESH
  {
  }

  lemma FreshFit()
    ensures FR.Fit(Sys(FRESH)) && Ok(FRESH)
    ensures forall w :: FR.Fit(Sys(FRESH.(w := w)))
  {
    hide FR.SysOk, FR.Tracks;
    FO.InitialBooked();
    BS.StartOk();
    FR.HalfIsTable(EMPTY_TABLE, map[]);
  }

  /** The condition on the first put can fail: a flow asked for once the connection is
      up, but before its first put, is sent by that put and wiped by its clear. */
  lemma FirstPutLoses(k: Key, acts: Ofpacts, cookie: nat, uuid: Uuid, req: nat, xid: nat)
    ensures var es := CONNECT + [Flows(FR.AddOflow(true, k, acts, cookie, uuid))];
            && LegalRun(FRESH, es)
            && var b := Run(FRESH, es);
            && Ok(b) && b.w.c.initialClear && BP.Clear(b.w.c, false)
            && FR.Fit(Sys(b)) && FR.Legal(Sys(b), FR.Populate([k], []))
            && var sent := b.w.sent + BT.PutBatch(b.w.c, req, true, false, Mods(b, [k], []), xid);
            !FO.Exact(Replay(Device(b.base, false), sent).table, b.ll, b.lp)
  {
    hide FR.SysOk, FO.Booked, BS.Inv, FI.CoreOk, FO.Means, FO.Exact, FO.BookAdd, LegalRun, Run, BT.Batch, Replay, Mods;
    var add := FR.AddOflow(true, k, acts, cookie, uuid);
    Connects();
    FreshFit();
    var b3 := Run(FRESH, CONNECT);
    assert Legal(b3, Flows(add));
    RunSnoc(FRESH, CONNECT, Flows(add));
    var es := CONNECT + [Flows(add)];
    RunOk(FRESH, es);
    var b := Run(FRESH, es);
    OkFits(b);
    FR.FirstAdded(k, acts, cookie, uuid);
    FL.AddMeans(FO.NO_BOOK, acts, uuid);
    assert FO.BookAt(b.ll, k) == FO.BookAdd(FO.NO_BOOK, acts, uuid);
    ClearingPutExact(b, req, true, false, [k], [], xid);
  }

  lemma OkFits(b: Bridge)
    requires Ok(b)
    ensures FR.Fit(Sys(b))
  {
  }
}
