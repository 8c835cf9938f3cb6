/** The per-bridge connection to the switch: its state machine, the list of
    in-flight updates, and the configuration number reported as reached.

    The switch works through the messages of a connection in order and answers
    each barrier once everything before it is done (section 6.2 of the OpenFlow
    Switch Specification 1.5.1). */
module BarrierTracker {
  import opened Common
  import opened OpenFlow

  datatype ConnState = New | WaitBeforeClear | ClearFlows | UpdateFlows

  /** An in-flight update: the barrier's xid and the number it stands for. */
  datatype Update = Update(xid: nat, req: nat)

  /** The fields of the connection. */
  datatype Conn = Conn(
    state: ConnState, updates: seq<Update>, cur: nat, oldReq: nat, skipped: bool, initialClear: bool)

  const FRESH_CONN := Conn(New, [], 0, 0, false, false)

  /** A message on the wire, with the req_cfg of the put that sent it.  The initial
      clear of all flows goes into the bundle; the flow mods of a populate do not. */
  datatype Sent =
    | BundleOpen(req: nat)
    | BundledClear(req: nat)
    | Mod(req: nat, m: FlowMod)
    | BundleCommit(req: nat)
    | Barrier(req: nat, xid: nat)

  /** What can be received. */
  datatype Msg = BarrierReply(xid: nat) | OtherMsg

  // ---------- Put ----------

  /** Whether a put has anything to do, and what it notes when it has not. */
  predicate NeedPut(c: Conn, req: nat, changed: bool) {
    changed || c.skipped || c.initialClear || (req != c.oldReq && c.cur != c.oldReq)
  }

  function NotePut(c: Conn, req: nat, changed: bool): Conn {
    if NeedPut(c, req, changed) then c.(oldReq := req)
    else if req != c.oldReq && c.updates == [] then c.(cur := req, oldReq := req)
    else c
  }

  function ModsOf(req: nat, mods: seq<FlowMod>): seq<Sent> {
    seq(|mods|, i requires 0 <= i < |mods| => Mod(req, mods[i]))
  }

  function Batch(c: Conn, req: nat, mods: seq<FlowMod>, xid: nat): seq<Sent> {
    if !c.initialClear && mods == [] then []
    else
      [BundleOpen(req)] + (if c.initialClear then [BundledClear(req)] else [])
      + ModsOf(req, mods) + [BundleCommit(req), Barrier(req, xid)]
  }

  /** Records a barrier: entries for a later number go, an entry for the same
      number is moved to the new barrier, else a new one is appended. */
  function Track(us: seq<Update>, xid: nat, req: nat): seq<Update>
    decreases |us|
  {
    if us == [] then [Update(xid, req)]
    else
      var last := us[|us| - 1];
      if req < last.req then Track(us[..|us| - 1], xid, req)
      else if req == last.req then us[..|us| - 1] + [Update(xid, req)]
      else us + [Update(xid, req)]
  }

  predicate Sends(c: Conn, req: nat, changed: bool, backlog: bool) {
    NeedPut(c, req, changed) && c.state.UpdateFlows? && !backlog
  }

  /** `mods` is what a populate emits, should the put get that far. */
  function Put(c: Conn, req: nat, changed: bool, backlog: bool, mods: seq<FlowMod>, xid: nat): Conn {
    var c1 := NotePut(c, req, changed);
    if !NeedPut(c, req, changed) then c1
    else if !Sends(c, req, changed, backlog) then c1.(skipped := true)
    else if Batch(c, req, mods, xid) != [] then
      c1.(initialClear := false, updates := Track(c.updates, xid, req))
    else if c.updates != [] then
      c1.(updates := c.updates[|c.updates| - 1 := c.updates[|c.updates| - 1].(req := req)])
    else c1.(cur := req)
  }

  function PutBatch(c: Conn, req: nat, changed: bool, backlog: bool, mods: seq<FlowMod>, xid: nat): seq<Sent> {
    if Sends(c, req, changed, backlog) then Batch(c, req, mods, xid) else []
  }

  // ---------- Run ----------

  function RunState(c: Conn, expired: bool): Conn {
    match c.state
    case New => c.(state := WaitBeforeClear)
    case WaitBeforeClear => if expired then c.(state := ClearFlows) else c
    case ClearFlows => c.(initialClear := true, updates := [], state := UpdateFlows)
    case UpdateFlows => c
  }

  function HandleReply(c: Conn, xid: nat): Conn {
    if c.updates == [] || c.updates[0].xid != xid then c
    else c.(cur := if c.updates[0].req >= c.cur then c.updates[0].req else c.cur, updates := c.updates[1..])
  }

  function Recv(c: Conn, m: Msg): Conn {
    if c.state.UpdateFlows? && m.BarrierReply? then HandleReply(c, m.xid) else c
  }

  /** One turn of the loop: the state machine runs, then one message may be read. */
  datatype Turn = Turn(expired: bool, inbox: Option<Msg>)

  function Tick(c: Conn, t: Turn): Conn {
    var c1 := RunState(c, t.expired);
    if t.inbox.Some? then Recv(c1, t.inbox.value) else c1
  }

  function Ticks(c: Conn, ts: seq<Turn>): Conn
    decreases |ts|
  {
    if ts == [] then c else Ticks(Tick(c, ts[0]), ts[1..])
  }

  lemma {:induction false} TicksSnoc(c: Conn, ts: seq<Turn>, t: Turn)
    ensures Ticks(c, ts + [t]) == Tick(Ticks(c, ts), t)
    decreases |ts|
  {
    if ts == [] {
      assert ts + [t] == [t] && [t][1..] == [];
      assert Ticks(Tick(c, t), []) == Tick(c, t);
    } else {
      assert (ts + [t])[0] == ts[0] && (ts + [t])[1..] == ts[1..] + [t];
      TicksSnoc(Tick(c, ts[0]), ts[1..], t);
    }
  }

  /** Remembering the request does not bear on what is sent. */
  lemma NoteKeeps(c: Conn, req: nat, changed: bool, mods: seq<FlowMod>, xid: nat)
    ensures var c1 := NotePut(c, req, changed);
            && c1.updates == c.updates && c1.initialClear == c.initialClear && c1.state == c.state
            && Batch(c1, req, mods, xid) == Batch(c, req, mods, xid)
  {
  }

  // ---------- The connection in place ----------

  class BrOfctrl {
    var state: ConnState
    var flowUpdates: seq<Update>
    var curCfg: nat
    var oldReqCfg: nat
    var skippedLastTime: bool
    var initialClear: bool

    ghost function State(): Conn
      reads this
    {
      Conn(state, flowUpdates, curCfg, oldReqCfg, skippedLastTime, initialClear)
    }

    constructor ()
      ensures State() == FRESH_CONN
    {
      state, flowUpdates, curCfg, oldReqCfg, skippedLastTime, initialClear := New, [], 0, 0, false, false;
    }

    /** Walks the in-flight list from the back. */
    method TrackUpdate(xid: nat, req: nat)
      modifies this
      ensures State() == old(State()).(updates := Track(old(flowUpdates), xid, req))
    {
      while flowUpdates != []
        invariant State() == old(State()).(updates := flowUpdates)
        invariant Track(flowUpdates, xid, req) == Track(old(flowUpdates), xid, req)
        decreases |flowUpdates|
      {
        var n := |flowUpdates|;
        if req < flowUpdates[n - 1].req {
          flowUpdates := flowUpdates[..n - 1];
        } else if req == flowUpdates[n - 1].req {
          flowUpdates := flowUpdates[n - 1 := flowUpdates[n - 1].(xid := xid)];
          return;
        } else {
          break;
        }
      }
      flowUpdates := flowUpdates + [Update(xid, req)];
    }

    method PutCfg(req: nat, lflowsChanged: bool, pflowsChanged: bool, backlog: bool, mods: seq<FlowMod>, xid: nat)
      returns (batch: seq<Sent>)
      modifies this
      ensures State() == Put(old(State()), req, lflowsChanged || pflowsChanged, backlog, mods, xid)
      ensures batch == PutBatch(old(State()), req, lflowsChanged || pflowsChanged, backlog, mods, xid)
    {
      hide NeedPut, NotePut, Batch, Track;
      batch := [];
      NoteKeeps(State(), req, lflowsChanged || pflowsChanged, mods, xid);
      var needPut := Note(req, lflowsChanged, pflowsChanged);
      if !needPut { return; }
      if state != UpdateFlows || backlog {
        skippedLastTime := true;
        return;
      }
      batch := Send(req, mods, xid);
    }

    /** Decides whether a put is needed, and remembers the request. */
    method Note(req: nat, lflowsChanged: bool, pflowsChanged: bool) returns (needPut: bool)
      modifies this
      ensures needPut == NeedPut(old(State()), req, lflowsChanged || pflowsChanged)
      ensures State() == NotePut(old(State()), req, lflowsChanged || pflowsChanged)
    {
      needPut := false;
      if lflowsChanged || pflowsChanged || skippedLastTime || initialClear {
        needPut := true;
        oldReqCfg := req;
      } else if req != oldReqCfg {
        if curCfg == oldReqCfg {
          if flowUpdates == [] {
            curCfg := req;
            oldReqCfg := req;
          }
        } else {
          needPut := true;
          oldReqCfg := req;
        }
      }
    }

    /** Sends what there is and tracks it; with nothing to send, the last update in
        flight stands for this request too. */
    method Send(req: nat, mods: seq<FlowMod>, xid: nat) returns (batch: seq<Sent>)
      modifies this
      ensures batch == Batch(old(State()), req, mods, xid)
      ensures var c := old(State());
              State() == if batch != [] then c.(initialClear := false, updates := Track(c.updates, xid, req))
                         else if c.updates != [] then
                           c.(updates := c.updates[|c.updates| - 1 := c.updates[|c.updates| - 1].(req := req)])
                         else c.(cur := req)
    {
      hide Track;
      batch := [];
      var msgs := [BundleOpen(req)];
      if initialClear {
        msgs := msgs + [BundledClear(req)];
        initialClear := false;
      }
      msgs := msgs + ModsOf(req, mods);
      ghost var all := msgs;
      if |msgs| == 1 {
        msgs := [];
      } else {
        msgs := msgs + [BundleCommit(req)];
      }
      if msgs != [] {
        batch := msgs + [Barrier(req, xid)];
        assert batch == all + [BundleCommit(req), Barrier(req, xid)];
        TrackUpdate(xid, req);
      } else if flowUpdates != [] {
        flowUpdates := flowUpdates[|flowUpdates| - 1 := flowUpdates[|flowUpdates| - 1].(req := req)];
      } else {
        curCfg := req;
      }
    }

    method HandleBarrierReply(xid: nat)
      modifies this
      ensures State() == HandleReply(old(State()), xid)
    {
      if flowUpdates == [] { return; }
      var fup := flowUpdates[0];
      if fup.xid == xid {
        if fup.req >= curCfg { curCfg := fup.req; }
        flowUpdates := flowUpdates[1..];
      }
    }

    method RunOnce(expired: bool)
      modifies this
      ensures State() == RunState(old(State()), expired)
    {
      match state {
        case New => state := WaitBeforeClear;
        case WaitBeforeClear => if expired { state := ClearFlows; }
        case ClearFlows =>
          initialClear := true;
          flowUpdates := [];
          state := UpdateFlows;
        case UpdateFlows =>
      }
    }

    /** Up to fifty turns, as long as there is progress.  `clock` and `mail` stand
        for the timer and the connection. */
    method Run(reconnected: bool, clock: nat -> bool, mail: nat -> Option<Msg>) returns (ghost turns: seq<Turn>)
      modifies this
      ensures |turns| <= 50
      ensures var c := old(State()); State() == Ticks(if reconnected then c.(state := New) else c, turns)
    {
      if reconnected { state := New; }
      ghost var c := State();
      turns := [];
      var progress := true;
      var i := 0;
      while progress && i < 50
        invariant 0 <= i <= 50 && |turns| == i
        invariant State() == Ticks(c, turns)
      {
        var oldState := state;
        RunOnce(clock(i));
        var msg := mail(i);
        if msg.Some? && state == UpdateFlows && msg.value.BarrierReply? {
          HandleBarrierReply(msg.value.xid);
        }
        TicksSnoc(c, turns, Turn(clock(i), msg));
        turns := turns + [Turn(clock(i), msg)];
        progress := oldState != state || msg.Some?;
        i := i + 1;
      }
    }
  }
}
