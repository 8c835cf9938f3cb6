/** The connection together with the switch at its other end, over whole runs:
    a configuration number is reported only once everything sent for it has been
    processed, and is reported in the end. */
module BarrierSafety {
  import opened Common
  import opened OpenFlow
  import opened BarrierTracker

  /** `sent` is everything sent on the present connection; the switch has
      processed the first `done` of it, and the replies to the barriers among the
      first `acked` have been read.  `lastReq` is the latest req_cfg asked for and
      `target` the latest one put on record for this connection. */
  datatype World = World(c: Conn, sent: seq<Sent>, done: nat, acked: nat, lastReq: nat, target: Option<nat>)

  const START := World(FRESH_CONN, [], 0, 0, 0, None)

  datatype Event =
    | Reconnect
    | Turns(expired: bool)
    | Process
    | Reply(expired: bool)
    | PutCfg(req: nat, changed: bool, backlog: bool, mods: seq<FlowMod>, xid: nat)

  /** The first barrier at or after position `i`. */
  function NextBarrier(sent: seq<Sent>, i: nat): (j: nat)
    ensures j <= |sent| || j == i
    ensures j < |sent| ==> sent[j].Barrier? && i <= j
    ensures forall k :: i <= k < j && k < |sent| ==> !sent[k].Barrier?
    decreases |sent| - i
  {
    if i >= |sent| then i else if sent[i].Barrier? then i else NextBarrier(sent, i + 1)
  }

  /** The environment: req_cfg never decreases, xids are fresh, messages are
      processed in order and barriers answered in order. */
  ghost predicate Legal(w: World, e: Event) {
    match e
    case Reconnect => true
    case Turns(_) => true
    case Process => w.done < |w.sent|
    case Reply(_) => NextBarrier(w.sent, w.acked) < w.done
    case PutCfg(req, _, _, _, xid) => req >= w.lastReq && forall s :: s in w.sent && s.Barrier? ==> s.xid != xid
  }

  function Step(w: World, e: Event): World
    requires Legal(w, e)
  {
    match e
    case Reconnect => World(w.c.(state := New), [], 0, 0, w.lastReq, None)
    case Turns(x) => w.(c := Tick(w.c, Turn(x, None)))
    case Process => w.(done := w.done + 1)
    case Reply(x) =>
      var j := NextBarrier(w.sent, w.acked);
      if j < |w.sent| then w.(c := Tick(w.c, Turn(x, Some(BarrierReply(w.sent[j].xid)))), acked := j + 1) else w
    case PutCfg(req, changed, backlog, mods, xid) =>
      var noted := Sends(w.c, req, changed, backlog) || NotePut(w.c, req, changed).cur != w.c.cur;
      World(Put(w.c, req, changed, backlog, mods, xid),
            w.sent + PutBatch(w.c, req, changed, backlog, mods, xid),
            w.done, w.acked, req, if noted then Some(req) else w.target)
  }

  // ---------- The invariant ----------

  /** Position `p` of the connection holds the barrier of `u`, still unanswered,
      and only puts for later numbers have sent anything after it. */
  ghost predicate Stands(w: World, u: Update, p: int) {
    && w.acked <= p < |w.sent| && w.sent[p] == Barrier(w.sent[p].req, u.xid) && w.sent[p].req <= u.req
    && forall m :: p < m < |w.sent| ==> w.sent[m].req > u.req
  }

  /** In-flight entries strictly increase, each stands for a barrier further down
      than the one before, and the last one for the last thing sent; no entry
      means everything is answered. */
  ghost predicate TrackedAt(w: World, ps: seq<int>) {
    var us := w.c.updates;
    && |ps| == |us|
    && (forall i, j :: 0 <= i < j < |us| ==> us[i].req < us[j].req && ps[i] < ps[j])
    && (forall i :: 0 <= i < |us| ==> w.c.cur <= us[i].req && Stands(w, us[i], ps[i]))
    && (if us != [] then ps[|us| - 1] == |w.sent| - 1 else w.acked == |w.sent|)
    && (w.target.Some? ==> w.target.value == if us != [] then us[|us| - 1].req else w.c.cur)
    && (us != [] ==> w.target.Some?)
  }

  ghost predicate Tracked(w: World) { exists ps :: TrackedAt(w, ps) }

  ghost predicate DistinctXids(sent: seq<Sent>) {
    forall i, j :: 0 <= i < j < |sent| && sent[i].Barrier? && sent[j].Barrier? ==> sent[i].xid != sent[j].xid
  }

  ghost predicate Bounded(w: World) {
    && w.c.cur <= w.lastReq && w.c.oldReq <= w.lastReq
    && (forall u :: u in w.c.updates ==> u.req <= w.lastReq)
    && (forall s :: s in w.sent ==> s.req <= w.lastReq)
  }

  ghost predicate Inv(w: World) {
    && w.acked <= w.done <= |w.sent|
    && DistinctXids(w.sent) && Bounded(w)
    && (if w.c.state.UpdateFlows? then Tracked(w)
        else w.sent == [] && (w.target.Some? ==> w.target.value == w.c.cur))
  }

  /** When the number reached moves to c, everything sent for c or earlier has
      been processed. */
  ghost predicate AckSafe(w: World, w': World) {
    w'.c.cur != w.c.cur ==> forall i :: 0 <= i < |w'.sent| && w'.sent[i].req <= w'.c.cur ==> i < w'.done
  }

  // ---------- Steps ----------

  lemma RunStateStep(w: World, x: bool)
    requires Inv(w)
    ensures Inv(w.(c := RunState(w.c, x))) && RunState(w.c, x).cur == w.c.cur
  {
    var w' := w.(c := RunState(w.c, x));
    if w.c.state.UpdateFlows? {
      assert w' == w;
    } else if w.c.state.ClearFlows? {
      assert TrackedAt(w', []);
    }
  }

  lemma ReplyAccepted(w: World, ps: seq<int>, j: nat)
    requires TrackedAt(w, ps) && DistinctXids(w.sent) && w.c.updates != [] && w.acked <= j < w.done <= |w.sent|
    requires w.sent[j] == Barrier(w.sent[j].req, w.c.updates[0].xid)
    ensures var w' := w.(c := HandleReply(w.c, w.c.updates[0].xid), acked := j + 1);
            TrackedAt(w', ps[1..]) && AckSafe(w, w') && w'.c.cur >= w.c.cur
  {
    var us := w.c.updates;
    var w' := w.(c := HandleReply(w.c, us[0].xid), acked := j + 1);
    assert Stands(w, us[0], ps[0]);
    assert j == ps[0];
    assert w'.c.updates == us[1..] && w'.c.cur == us[0].req;
    forall i | 0 <= i < |us| - 1 ensures w'.c.cur <= us[1..][i].req && Stands(w', us[1..][i], ps[1..][i]) {
      assert Stands(w, us[i + 1], ps[i + 1]) && ps[0] < ps[i + 1];
    }
  }

  lemma ReplyIgnored(w: World, ps: seq<int>, j: nat)
    requires TrackedAt(w, ps) && w.c.updates != [] && w.acked <= j < |w.sent|
    requires w.sent[j].Barrier? && forall k :: w.acked <= k < j ==> !w.sent[k].Barrier?
    requires w.c.updates[0].xid != w.sent[j].xid
    ensures TrackedAt(w.(acked := j + 1), ps)
  {
    var us := w.c.updates;
    assert Stands(w, us[0], ps[0]) && j < ps[0];
    forall i | 0 <= i < |us| ensures Stands(w.(acked := j + 1), us[i], ps[i]) {
      assert Stands(w, us[i], ps[i]) && ps[0] <= ps[i];
    }
  }

  lemma ReplyStep(w: World)
    requires Inv(w) && w.c.state.UpdateFlows? && NextBarrier(w.sent, w.acked) < w.done
    ensures var j := NextBarrier(w.sent, w.acked);
            var w' := w.(c := HandleReply(w.c, w.sent[j].xid), acked := j + 1);
            Inv(w') && AckSafe(w, w') && w'.c.cur >= w.c.cur
  {
    hide TrackedAt, AckSafe, DistinctXids;
    var j := NextBarrier(w.sent, w.acked);
    var ps :| TrackedAt(w, ps);
    SomeEntry(w, ps);
    if w.c.updates[0].xid == w.sent[j].xid {
      ReplyAccepted(w, ps, j);
    } else {
      ReplyIgnored(w, ps, j);
      SameCur(w, w.(acked := j + 1));
    }
  }

  lemma SomeEntry(w: World, ps: seq<int>)
    requires TrackedAt(w, ps) && w.acked < |w.sent|
    ensures w.c.updates != []
  {
  }

  lemma SameCur(w: World, w': World)
    requires w'.c.cur == w.c.cur
    ensures AckSafe(w, w')
  {
  }

  /** A batch is a run of messages for its own number ending in its barrier. */
  lemma BatchShape(c: Conn, req: nat, mods: seq<FlowMod>, xid: nat)
    ensures var b := Batch(c, req, mods, xid);
            && (b == [] <==> !c.initialClear && mods == [])
            && (forall i :: 0 <= i < |b| ==> b[i].req == req && (b[i].Barrier? <==> i == |b| - 1))
            && (b != [] ==> b[|b| - 1] == Barrier(req, xid))
  {
  }

  /** The messages of a put go on the wire after everything else. */
  lemma StandsExtended(w: World, w': World, u: Update, p: int, req: nat)
    requires Stands(w, u, p) && w.sent <= w'.sent && w'.acked == w.acked && u.req < req
    requires forall i :: |w.sent| <= i < |w'.sent| ==> w'.sent[i].req == req
    ensures Stands(w', u, p)
  {
  }

  /** Tracking a number that is no step back replaces the last entry or appends. */
  lemma TrackLatest(us: seq<Update>, xid: nat, req: nat) returns (k: nat)
    requires forall u :: u in us ==> u.req <= req
    requires forall i, j :: 0 <= i < j < |us| ==> us[i].req < us[j].req
    ensures k <= |us| && Track(us, xid, req) == us[..k] + [Update(xid, req)]
    ensures forall i :: 0 <= i < k ==> us[i].req < req
  {
    if us == [] {
      k := 0;
    } else {
      assert us[|us| - 1] in us;
      k := if us[|us| - 1].req == req then |us| - 1 else |us|;
      assert us[..|us|] == us;
    }
  }

  lemma LatestBounded(w: World, req: nat)
    requires Bounded(w) && req >= w.lastReq
    ensures w.c.cur <= req && forall u :: u in w.c.updates ==> u.req <= req
  {
  }

  lemma SendTracked(w: World, ps: seq<int>, batch: seq<Sent>, req: nat, xid: nat, w': World)
    requires TrackedAt(w, ps) && Bounded(w) && req >= w.lastReq && w.acked <= |w.sent|
    requires batch != [] && batch[|batch| - 1] == Barrier(req, xid)
    requires forall i :: 0 <= i < |batch| ==> batch[i].req == req
    requires w'.sent == w.sent + batch && w'.acked == w.acked && w'.target == Some(req)
    requires w'.c.cur == w.c.cur && w'.c.updates == Track(w.c.updates, xid, req)
    ensures Tracked(w')
  {
    hide Track, Bounded;
    var us := w.c.updates;
    var z := |w'.sent| - 1;
    assert w'.sent[z] == batch[|batch| - 1];
    LatestBounded(w, req);
    var k := TrackLatest(us, xid, req);
    var ps' := ps[..k] + [z];
    var us' := w'.c.updates;
    assert Stands(w', us'[k], z);
    forall i | 0 <= i < k ensures w'.c.cur <= us'[i].req && Stands(w', us'[i], ps'[i]) {
      assert us'[i] == us[i] && ps'[i] == ps[i] && Stands(w, us[i], ps[i]);
      StandsExtended(w, w', us[i], ps[i], req);
    }
    forall i, j | 0 <= i < j < |us'| ensures us'[i].req < us'[j].req && ps'[i] < ps'[j] {
      assert us'[i] == us[i] && ps'[i] == ps[i] && Stands(w, us[i], ps[i]);
    }
    assert TrackedAt(w', ps');
  }

  lemma RaiseTracked(w: World, ps: seq<int>, req: nat, w': World)
    requires TrackedAt(w, ps) && Bounded(w) && req >= w.lastReq && w.c.updates != []
    requires w'.sent == w.sent && w'.acked == w.acked && w'.target == Some(req) && w'.c.cur == w.c.cur
    requires w'.c.updates == w.c.updates[|w.c.updates| - 1 := w.c.updates[|w.c.updates| - 1].(req := req)]
    ensures Tracked(w')
  {
    var us := w.c.updates;
    assert us[|us| - 1] in us;
    forall i | 0 <= i < |us| ensures Stands(w', w'.c.updates[i], ps[i]) && w.c.cur <= w'.c.updates[i].req {
      assert Stands(w, us[i], ps[i]);
    }
    assert TrackedAt(w', ps);
  }

  lemma BoundedPut(w: World, req: nat, changed: bool, backlog: bool, mods: seq<FlowMod>, xid: nat)
    requires Inv(w) && Legal(w, PutCfg(req, changed, backlog, mods, xid))
    ensures var w' := Step(w, PutCfg(req, changed, backlog, mods, xid)); Bounded(w') && DistinctXids(w'.sent)
  {
    hide Tracked;
    BatchShape(w.c, req, mods, xid);
    var w' := Step(w, PutCfg(req, changed, backlog, mods, xid));
    var b := PutBatch(w.c, req, changed, backlog, mods, xid);
    hide Batch;
    TrackBounded(w.c.updates, xid, req, req);
    assert forall i :: 0 <= i < |w.sent| ==> w.sent[i] in w.sent;
    forall s | s in w'.sent ensures s.req <= req {
      if s !in w.sent { assert s in b; }
    }
  }

  lemma {:induction false} TrackBounded(us: seq<Update>, xid: nat, req: nat, bound: nat)
    requires req <= bound && forall u :: u in us ==> u.req <= bound
    ensures forall u :: u in Track(us, xid, req) ==> u.req <= bound
    decreases |us|
  {
    if us != [] && req < us[|us| - 1].req { TrackBounded(us[..|us| - 1], xid, req, bound); }
  }

  /** With nothing in flight, everything sent has been processed. */
  lemma UpToDate(w: World, ps: seq<int>, w': World)
    requires TrackedAt(w, ps) && w.c.updates == [] && w.acked <= w.done
    requires w'.sent == w.sent && w'.acked == w.acked && w'.done == w.done
    requires w'.c.updates == [] && w'.target == Some(w'.c.cur)
    ensures Tracked(w') && AckSafe(w, w')
  {
    assert TrackedAt(w', []);
  }

  lemma SameTracked(w: World, ps: seq<int>, w': World)
    requires TrackedAt(w, ps) && w'.sent == w.sent && w'.acked == w.acked && w'.target == w.target
    requires w'.c.updates == w.c.updates && w'.c.cur == w.c.cur
    ensures Tracked(w')
  {
    forall i | 0 <= i < |w.c.updates|
      ensures Stands(w', w.c.updates[i], ps[i])
    {
      assert Stands(w, w.c.updates[i], ps[i]);
    }
    assert TrackedAt(w', ps);
  }

  lemma PutTracked(w: World, req: nat, changed: bool, backlog: bool, mods: seq<FlowMod>, xid: nat)
    requires Inv(w) && w.c.state.UpdateFlows? && Legal(w, PutCfg(req, changed, backlog, mods, xid))
    ensures var w' := Step(w, PutCfg(req, changed, backlog, mods, xid));
            Tracked(w') && (w'.c.cur == w.c.cur || AckSafe(w, w'))
  {
    BatchShape(w.c, req, mods, xid);
    hide Batch, TrackedAt, DistinctXids, Track, Bounded, AckSafe;
    var w' := Step(w, PutCfg(req, changed, backlog, mods, xid));
    var b := PutBatch(w.c, req, changed, backlog, mods, xid);
    var ps :| TrackedAt(w, ps);
    if !Sends(w.c, req, changed, backlog) {
      if w'.c.cur != w.c.cur { UpToDate(w, ps, w'); } else { SameTracked(w, ps, w'); }
    } else if b != [] {
      SendTracked(w, ps, b, req, xid, w');
    } else if w.c.updates != [] {
      RaiseTracked(w, ps, req, w');
    } else {
      UpToDate(w, ps, w');
    }
  }

  lemma PutStep(w: World, req: nat, changed: bool, backlog: bool, mods: seq<FlowMod>, xid: nat)
    requires Inv(w) && Legal(w, PutCfg(req, changed, backlog, mods, xid))
    ensures var w' := Step(w, PutCfg(req, changed, backlog, mods, xid));
            Inv(w') && AckSafe(w, w') && w'.c.cur >= w.c.cur
  {
    hide Tracked, DistinctXids, Batch, Track;
    BoundedPut(w, req, changed, backlog, mods, xid);
    if w.c.state.UpdateFlows? { PutTracked(w, req, changed, backlog, mods, xid); }
  }

  lemma NothingSent(w: World)
    requires Inv(w)
    ensures Inv(Step(w, Reconnect))
  {
  }

  lemma StepOk(w: World, e: Event)
    requires Inv(w) && Legal(w, e)
    ensures Inv(Step(w, e)) && AckSafe(w, Step(w, e)) && Step(w, e).c.cur >= w.c.cur
  {
    hide TrackedAt, DistinctXids, Put, PutBatch, HandleReply;
    match e
    case Reconnect => NothingSent(w);
    case Turns(x) => RunStateStep(w, x);
    case Process =>
      if w.c.state.UpdateFlows? {
        var ps :| TrackedAt(w, ps);
        SameTracked(w, ps, Step(w, e));
      }
    case Reply(x) =>
      RunStateStep(w, x);
      ReplyStep(w);
    case PutCfg(req, changed, backlog, mods, xid) => PutStep(w, req, changed, backlog, mods, xid);
  }

  // ---------- Whole runs ----------

  ghost predicate LegalRun(w: World, es: seq<Event>)
    decreases |es|
  {
    es == [] || (Legal(w, es[0]) && LegalRun(Step(w, es[0]), es[1..]))
  }

  ghost function Run(w: World, es: seq<Event>): World
    requires LegalRun(w, es)
    decreases |es|
  {
    if es == [] then w else Run(Step(w, es[0]), es[1..])
  }

  lemma {:induction false} RunOk(w: World, es: seq<Event>)
    requires Inv(w) && LegalRun(w, es)
    ensures Inv(Run(w, es)) && Run(w, es).c.cur >= w.c.cur
    decreases |es|
  {
    if es != [] {
      StepOk(w, es[0]);
      RunOk(Step(w, es[0]), es[1..]);
    }
  }

  lemma StartOk()
    ensures Inv(START)
  {
  }

  /** MAIN RESULT.  After any legal run, if one more event moves the number reached
      to c then everything sent on this connection by a put for c or earlier has
      been processed by the switch; and the number never goes back. */
  lemma AckSafety(es: seq<Event>, e: Event)
    requires LegalRun(START, es) && Legal(Run(START, es), e)
    ensures AckSafe(Run(START, es), Step(Run(START, es), e))
    ensures Step(Run(START, es), e).c.cur >= Run(START, es).c.cur
  {
    StartOk();
    RunOk(START, es);
    StepOk(Run(START, es), e);
  }

  /** MAIN RESULT.  Nothing is in flight iff every barrier of the connection has
      been answered, and then the number reached is the last one put on record. */
  lemma Drained(es: seq<Event>)
    requires LegalRun(START, es)
    ensures var w := Run(START, es);
            w.c.state.UpdateFlows? ==>
              && (w.c.updates == [] <==> w.acked == |w.sent|)
              && (w.c.updates == [] && w.target.Some? ==> w.c.cur == w.target.value)
  {
    hide LegalRun, Run, DistinctXids, Bounded;
    StartOk();
    RunOk(START, es);
    var w := Run(START, es);
    if w.c.state.UpdateFlows? {
      var ps :| TrackedAt(w, ps);
      if w.c.updates != [] { assert Stands(w, w.c.updates[0], ps[0]); }
    }
  }
}
