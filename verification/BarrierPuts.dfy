/** What a put does, said of the connection and the arguments alone, and that what is
    put on record is reached: laws over single puts and over whole runs. */
module BarrierPuts {
  import opened Common
  import opened OpenFlow
  import opened BarrierTracker
  import opened BarrierSafety

  // ---------- One put ----------

  /** There is a reason to put: flows changed, a put was skipped, the clear is due, or
      a new number comes while the one before has not been reached. */
  ghost predicate Reason(c: Conn, req: nat, changed: bool) {
    changed || c.skipped || c.initialClear || (req != c.oldReq && c.cur != c.oldReq)
  }

  /** Messages can go out. */
  ghost predicate Clear(c: Conn, backlog: bool) { c.state == UpdateFlows && !backlog }

  ghost predicate Increasing(us: seq<Update>) { forall i, j :: 0 <= i < j < |us| ==> us[i].req < us[j].req }

  /** The flow mods on the wire, in order, with the clear before them if it is due. */
  ghost predicate Carries(batch: seq<Sent>, req: nat, clear: bool, mods: seq<FlowMod>, xid: nat) {
    var n := if clear then 2 else 1;
    && |batch| == n + |mods| + 2
    && batch[0] == BundleOpen(req) && (clear ==> batch[1] == BundledClear(req))
    && (forall i :: 0 <= i < |mods| ==> batch[n + i] == Mod(req, mods[i]))
    && batch[|batch| - 2] == BundleCommit(req) && batch[|batch| - 1] == Barrier(req, xid)
  }

  /** With a reason and something to send, a put sends it all and waits for its
      barrier; the number reached stays.  Of the updates in flight those for lower
      numbers stay. */
  lemma SendingPut(c: Conn, req: nat, changed: bool, backlog: bool, mods: seq<FlowMod>, xid: nat)
    requires Reason(c, req, changed) && Clear(c, backlog) && (mods != [] || c.initialClear)
    ensures Carries(PutBatch(c, req, changed, backlog, mods, xid), req, c.initialClear, mods, xid)
    ensures var c' := Put(c, req, changed, backlog, mods, xid);
            && c' == c.(updates := c'.updates, oldReq := req, initialClear := false)
            && c'.updates != [] && c'.updates[|c'.updates| - 1] == Update(xid, req)
            && (Increasing(c.updates) ==>
                  forall i :: 0 <= i < |c.updates| ==>
                    if c.updates[i].req < req then i < |c'.updates| - 1 && c'.updates[i] == c.updates[i]
                    else |c'.updates| <= i + 1)
  {
    hide Track;
    TrackLast(c.updates, xid, req);
    if Increasing(c.updates) { TrackLower(c.updates, xid, req); }
  }

  lemma {:induction false} TrackLast(us: seq<Update>, xid: nat, req: nat)
    ensures var us' := Track(us, xid, req); us' != [] && us'[|us'| - 1] == Update(xid, req)
    decreases |us|
  {
    if us != [] && req < us[|us| - 1].req { TrackLast(us[..|us| - 1], xid, req); }
  }

  lemma {:induction false} TrackLower(us: seq<Update>, xid: nat, req: nat)
    requires Increasing(us)
    ensures var us' := Track(us, xid, req);
            forall i :: 0 <= i < |us| ==>
              if us[i].req < req then i < |us'| - 1 && us'[i] == us[i] else |us'| <= i + 1
    decreases |us|
  {
    if us != [] && req < us[|us| - 1].req {
      var init := us[..|us| - 1];
      TrackLower(init, xid, req);
      assert forall i :: 0 <= i < |init| ==> us[i] == init[i];
      TrackLength(init, xid, req);
    }
  }

  lemma {:induction false} TrackLength(us: seq<Update>, xid: nat, req: nat)
    ensures |Track(us, xid, req)| <= |us| + 1
    decreases |us|
  {
    if us != [] && req < us[|us| - 1].req { TrackLength(us[..|us| - 1], xid, req); }
  }

  /** With a reason but nothing to send, the last update in flight stands for the
      request, or it is reached at once. */
  lemma SilentPut(c: Conn, req: nat, changed: bool, backlog: bool, xid: nat)
    requires Reason(c, req, changed) && Clear(c, backlog) && !c.initialClear
    ensures PutBatch(c, req, changed, backlog, [], xid) == []
    ensures var c' := Put(c, req, changed, backlog, [], xid);
            if c.updates == [] then c' == c.(cur := req, oldReq := req)
            else
              var n := |c.updates| - 1;
              c' == c.(updates := c.updates[..n] + [Update(c.updates[n].xid, req)], oldReq := req)
  {
  }

  /** With a reason but no way out, a put is only marked as skipped. */
  lemma BlockedPut(c: Conn, req: nat, changed: bool, backlog: bool, mods: seq<FlowMod>, xid: nat)
    requires Reason(c, req, changed) && !Clear(c, backlog)
    ensures PutBatch(c, req, changed, backlog, mods, xid) == []
    ensures Put(c, req, changed, backlog, mods, xid) == c.(oldReq := req, skipped := true)
  {
  }

  /** Without a reason nothing is sent, whatever the state; a new number is reached at
      once if nothing is in flight. */
  lemma IdlePut(c: Conn, req: nat, changed: bool, backlog: bool, mods: seq<FlowMod>, xid: nat)
    requires !Reason(c, req, changed)
    ensures PutBatch(c, req, changed, backlog, mods, xid) == []
    ensures Put(c, req, changed, backlog, mods, xid) ==
            if req != c.oldReq && c.updates == [] then c.(cur := req, oldReq := req) else c
  {
  }

  /** A turn answers nothing but the first update in flight, and only while flows are
      being updated; the number reached moves to its number unless that is lower. */
  lemma TurnReads(c: Conn, t: Turn)
    ensures var hit := c.state == UpdateFlows && c.updates != [] && t.inbox == Some(BarrierReply(c.updates[0].xid));
            var c' := Tick(c, t);
            && c'.updates == (if c.state == ClearFlows then [] else if hit then c.updates[1..] else c.updates)
            && c'.cur == (if hit && c.updates[0].req > c.cur then c.updates[0].req else c.cur)
            && c'.oldReq == c.oldReq && c'.skipped == c.skipped
  {
  }

  // ---------- From the request to the number reached ----------

  /** Only the switch is at work and its answers are read. */
  ghost predicate Answers(es: seq<Event>) { forall e :: e in es ==> e.Process? || e.Reply? }

  /** The last message sent on the connection is a barrier, unless all is answered. */
  lemma LastBarrier(w: World)
    requires Inv(w) && w.c.state.UpdateFlows? && w.acked < |w.sent|
    ensures w.sent[|w.sent| - 1].Barrier?
  {
    var ps :| TrackedAt(w, ps);
    var us := w.c.updates;
    assert Stands(w, us[|us| - 1], ps[|us| - 1]);
  }

  /** What an answer leaves alone. */
  lemma AnswerStep(w: World, e: Event)
    requires Inv(w) && w.c.state.UpdateFlows? && Legal(w, e) && (e.Process? || e.Reply?)
    ensures var w' := Step(w, e);
            && w'.c.state.UpdateFlows? && w'.sent == w.sent && w'.target == w.target && Inv(w')
            && w'.c.initialClear == w.c.initialClear
            && w'.acked + w'.done > w.acked + w.done
  {
    hide Inv;
    StepOk(w, e);
    DoneBound(w);
  }

  lemma DoneBound(w: World)
    requires Inv(w)
    ensures w.acked <= w.done <= |w.sent|
  {
  }

  /** The switch can always finish and answer: after that nothing is in flight. */
  lemma {:induction false} Settling(w: World) returns (es: seq<Event>)
    requires Inv(w) && w.c.state.UpdateFlows?
    ensures LegalRun(w, es) && Answers(es)
    ensures var w' := Run(w, es);
            && Inv(w') && w'.c.state.UpdateFlows? && w'.c.updates == []
            && w'.done == w'.acked == |w'.sent| && w'.sent == w.sent && w'.target == w.target
            && w'.c.initialClear == w.c.initialClear
    decreases 2 * |w.sent| - w.acked - w.done
  {
    hide Inv, Step;
    DoneBound(w);
    if w.acked == |w.sent| {
      AllAnswered(w);
      es := [];
    } else {
      var e := if w.done < |w.sent| then Process else Reply(false);
      if e.Reply? { LastBarrier(w); }
      AnswerStep(w, e);
      DoneBound(Step(w, e));
      var rest := Settling(Step(w, e));
      es := [e] + rest;
      assert es[1..] == rest;
    }
  }

  lemma AllAnswered(w: World)
    requires Inv(w) && w.c.state.UpdateFlows? && w.acked == |w.sent|
    ensures w.c.updates == []
  {
    var ps :| TrackedAt(w, ps);
  }

  lemma NoneInFlight(w: World)
    requires Inv(w) && w.c.state.UpdateFlows? && w.c.updates == []
    ensures w.acked == w.done == |w.sent| && (w.target.Some? ==> w.c.cur == w.target.value)
  {
    var ps :| TrackedAt(w, ps);
  }

  lemma {:induction false} AnswersKeep(w: World, es: seq<Event>)
    requires Inv(w) && w.c.state.UpdateFlows? && LegalRun(w, es) && Answers(es)
    ensures var w' := Run(w, es);
            && Inv(w') && w'.c.state.UpdateFlows? && w'.target == w.target && w'.sent == w.sent
            && w'.c.initialClear == w.c.initialClear
    decreases |es|
  {
    hide Inv, Step, Legal;
    if es != [] {
      assert es[0] in es;
      AnswerStep(w, es[0]);
      assert forall e :: e in es[1..] ==> e in es;
      AnswersKeep(Step(w, es[0]), es[1..]);
    }
  }

  /** The put goes through: with a reason and a way out, or as good as reached before. */
  ghost predicate GoesThrough(c: Conn, req: nat, changed: bool, backlog: bool) {
    if Reason(c, req, changed) then Clear(c, backlog) else req != c.oldReq && c.updates == []
  }

  /** Once nothing is in flight the number is reached. */
  lemma Reaches(w: World, req: nat, changed: bool, backlog: bool, mods: seq<FlowMod>, xid: nat, later: seq<Event>)
    requires Inv(w) && w.c.state.UpdateFlows? && Legal(w, PutCfg(req, changed, backlog, mods, xid))
    requires GoesThrough(w.c, req, changed, backlog)
    requires LegalRun(Step(w, PutCfg(req, changed, backlog, mods, xid)), later) && Answers(later)
    ensures var w' := Run(Step(w, PutCfg(req, changed, backlog, mods, xid)), later);
            w'.c.updates == [] ==> w'.c.cur == req
  {
    hide Inv, LegalRun, Run, Answers, GoesThrough;
    var e := PutCfg(req, changed, backlog, mods, xid);
    StepOk(w, e);
    PutRecords(w, req, changed, backlog, mods, xid);
    AnswersKeep(Step(w, e), later);
    if Run(Step(w, e), later).c.updates == [] { NoneInFlight(Run(Step(w, e), later)); }
  }

  /** MAIN RESULT.  After any legal run, a put that goes through for some number, and
      any answers of the switch: once nothing is in flight that number is reached.
      And whatever happened, the switch can get there by answering alone. */
  lemma PutReaches(es: seq<Event>, req: nat, changed: bool, backlog: bool, mods: seq<FlowMod>, xid: nat)
    requires LegalRun(START, es)
    requires var w := Run(START, es);
             && Legal(w, PutCfg(req, changed, backlog, mods, xid)) && w.c.state.UpdateFlows?
             && GoesThrough(w.c, req, changed, backlog)
    ensures var w := Step(Run(START, es), PutCfg(req, changed, backlog, mods, xid));
            && (forall later :: LegalRun(w, later) && Answers(later) && Run(w, later).c.updates == [] ==>
                  Run(w, later).c.cur == req)
            && exists later :: LegalRun(w, later) && Answers(later) && Run(w, later).c.updates == []
  {
    hide Inv, LegalRun, Run, Answers, GoesThrough, Step, Legal;
    var w0, e := Run(START, es), PutCfg(req, changed, backlog, mods, xid);
    StartOk();
    RunOk(START, es);
    StepOk(w0, e);
    PutRecords(w0, req, changed, backlog, mods, xid);
    forall later | LegalRun(Step(w0, e), later) && Answers(later) && Run(Step(w0, e), later).c.updates == []
      ensures Run(Step(w0, e), later).c.cur == req
    {
      Reaches(w0, req, changed, backlog, mods, xid, later);
    }
    var done := Settling(Step(w0, e));
  }

  lemma PutRecords(w: World, req: nat, changed: bool, backlog: bool, mods: seq<FlowMod>, xid: nat)
    requires Legal(w, PutCfg(req, changed, backlog, mods, xid)) && w.c.state.UpdateFlows?
    requires GoesThrough(w.c, req, changed, backlog) && Inv(w)
    ensures var w' := Step(w, PutCfg(req, changed, backlog, mods, xid));
            w'.c.state.UpdateFlows? && w'.target == Some(req)
  {
  }

  // ---------- A put that could not be made ----------

  /** The event is a put with a reason but no way out. */
  ghost predicate Skips(w: World, e: Event) {
    e.PutCfg? && Reason(w.c, e.req, e.changed) && !Clear(w.c, e.backlog)
  }

  ghost predicate SkipsIn(w: World, es: seq<Event>)
    requires LegalRun(w, es)
    decreases |es|
  {
    es != [] && (Skips(w, es[0]) || SkipsIn(Step(w, es[0]), es[1..]))
  }

  lemma SkipStep(w: World, e: Event)
    requires Legal(w, e)
    ensures Step(w, e).c.skipped <==> w.c.skipped || Skips(w, e)
  {
  }

  /** The mark of a skipped put is set by one and never taken back. */
  lemma {:induction false} SkippedIff(w: World, es: seq<Event>)
    requires LegalRun(w, es)
    ensures Run(w, es).c.skipped <==> w.c.skipped || SkipsIn(w, es)
    decreases |es|
  {
    hide Step, Legal;
    if es != [] {
      SkipStep(w, es[0]);
      SkippedIff(Step(w, es[0]), es[1..]);
    }
  }

  /** With no flow changed, every request is still a reason for a put iff one was
      skipped at any time before or the initial clear is to be sent. */
  lemma PutsUnconditional(es: seq<Event>)
    requires LegalRun(START, es)
    ensures (forall req :: Reason(Run(START, es).c, req, false)) <==>
            SkipsIn(START, es) || Run(START, es).c.initialClear
  {
    SkippedIff(START, es);
    var c := Run(START, es).c;
    assert Reason(c, c.oldReq, false) <==> c.skipped || c.initialClear;
  }

  // ---------- The life of a connection ----------

  /** The event lets the state machine run once. */
  ghost predicate Runs(e: Event) { e.Turns? || e.Reply? }

  ghost predicate RunsExpired(e: Event) { Runs(e) && e.expired }

  /** Every edge of the state machine, with what brings it about. */
  lemma Life(w: World, e: Event)
    requires Inv(w) && Legal(w, e)
    ensures var (c, c') := (w.c, Step(w, e).c);
            && (c'.state == New <==> e == Reconnect || (c.state == New && !Runs(e)))
            && (c'.state == WaitBeforeClear <==>
                  (c.state == New && Runs(e)) || (c.state == WaitBeforeClear && e != Reconnect && !RunsExpired(e)))
            && (c'.state == ClearFlows <==>
                  || (c.state == WaitBeforeClear && RunsExpired(e))
                  || (c.state == ClearFlows && e != Reconnect && !Runs(e)))
            && (c'.state == UpdateFlows <==>
                  (c.state == ClearFlows && Runs(e)) || (c.state == UpdateFlows && e != Reconnect))
  {
    hide Tracked, Put, PutBatch, HandleReply, Bounded;
    if e.PutCfg? { PutKeepsState(w.c, e.req, e.changed, e.backlog, e.mods, e.xid); }
    if e.Reply? { ReplyKeepsState(); }
  }

  lemma PutKeepsState(c: Conn, req: nat, changed: bool, backlog: bool, mods: seq<FlowMod>, xid: nat)
    ensures Put(c, req, changed, backlog, mods, xid).state == c.state
  {
  }

  lemma ReplyKeepsState()
    ensures forall c: Conn, xid ::
              HandleReply(c, xid).state == c.state && HandleReply(c, xid).initialClear == c.initialClear
  {
  }

  /** The initial clear falls due with the entry to UpdateFlows and stays due until a
      put can go out. */
  lemma ClearDue(w: World, e: Event)
    requires Inv(w) && Legal(w, e)
    ensures Step(w, e).c.initialClear <==>
            if w.c.state == ClearFlows && Runs(e) then true
            else w.c.initialClear && !(e.PutCfg? && Clear(w.c, e.backlog))
  {
    hide Tracked, HandleReply, Bounded, Track;
    ReplyKeepsState();
  }

  /** The connection waited: since the last reconnect there is a run of the state
      machine that found the wait over. */
  ghost predicate Waited(es: seq<Event>) {
    exists i :: 0 <= i < |es| && RunsExpired(es[i]) && forall j :: i <= j < |es| ==> es[j] != Reconnect
  }

  lemma WaitedSnoc(es: seq<Event>, e: Event)
    ensures Waited(es + [e]) <==> RunsExpired(e) || (Waited(es) && e != Reconnect)
  {
    var es' := es + [e];
    if RunsExpired(e) { assert RunsExpired(es'[|es|]); }
    if Waited(es) && e != Reconnect {
      var i :| 0 <= i < |es| && RunsExpired(es[i]) && forall j :: i <= j < |es| ==> es[j] != Reconnect;
      assert RunsExpired(es'[i]) && forall j :: i <= j < |es'| ==> es'[j] != Reconnect;
    }
    if Waited(es') && !RunsExpired(e) {
      var i :| 0 <= i < |es'| && RunsExpired(es'[i]) && forall j :: i <= j < |es'| ==> es'[j] != Reconnect;
      assert es'[|es|] == e;
      assert RunsExpired(es[i]) && forall j :: i <= j < |es| ==> es[j] == es'[j];
    }
  }

  lemma {:induction false} RunSnoc(w: World, es: seq<Event>, e: Event)
    requires LegalRun(w, es + [e])
    ensures LegalRun(w, es) && Legal(Run(w, es), e) && Run(w, es + [e]) == Step(Run(w, es), e)
    decreases |es|
  {
    hide Legal, Step;
    if es == [] {
      assert es + [e] == [e] && [e][1..] == [];
    } else {
      assert (es + [e])[1..] == es[1..] + [e];
      RunSnoc(Step(w, es[0]), es[1..], e);
    }
  }

  /** MAIN RESULT.  No flow is cleared or sent before the wait is over: a connection
      is in ClearFlows or UpdateFlows only if, since it came up, the state machine has
      run and found the wait expired; and until then nothing has been sent on it. */
  lemma {:induction false} WaitsFirst(es: seq<Event>)
    requires LegalRun(START, es)
    ensures var w := Run(START, es);
            && (w.c.state == ClearFlows || w.c.state == UpdateFlows ==> Waited(es))
            && (w.sent != [] ==> Waited(es))
    decreases |es|
  {
    hide Inv, Step, Legal, LegalRun, Run, Waited;
    if es == [] {
      EmptyRun();
    } else {
      var init, e := es[..|es| - 1], es[|es| - 1];
      assert es == init + [e];
      RunSnoc(START, init, e);
      WaitsFirst(init);
      WaitedSnoc(init, e);
      StartOk();
      RunOk(START, init);
      Life(Run(START, init), e);
      StepOk(Run(START, init), e);
      if Run(START, es).sent != [] { SentWhere(Run(START, es)); }
    }
  }

  lemma EmptyRun()
    ensures LegalRun(START, []) && Run(START, []) == START
  {
  }

  lemma SentWhere(w: World)
    requires Inv(w) && w.sent != []
    ensures w.c.state == UpdateFlows
  {
  }
}
