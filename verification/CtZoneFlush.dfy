/** No zone changes hands unflushed: over every run, the change of a name's zone
    reaches the database stage only after the switch has confirmed the flush of the
    zone that was last given or taken; and what has reached it is settled by the next
    transaction. */
module CtZoneFlush {
  import opened Common
  import opened CtZone
  import opened CtZoneRecovery

  /** The store after the first n events of a run. */
  ghost function After(s: Store, es: seq<Event>, n: nat): Store
    requires n <= |es|
  {
    if n == 0 then s else Step(After(s, es, n - 1), es[n - 1])
  }

  lemma {:induction false} AfterShift(s: Store, es: seq<Event>, n: nat)
    requires 1 <= n <= |es|
    ensures After(s, es, n) == After(Step(s, es[0]), es[1..], n - 1)
  {
    hide Step;
    if n > 1 { AfterShift(s, es, n - 1); }
  }

  /** The two ways of looking at a run agree. */
  lemma {:induction false} AfterRun(s: Store, es: seq<Event>)
    requires LegalRun(s, es)
    ensures After(s, es, |es|) == Run(s, es)
    ensures forall i :: 0 <= i < |es| ==> Legal(After(s, es, i), es[i])
    decreases |es|
  {
    hide Step, Legal;
    if es != [] {
      AfterRun(Step(s, es[0]), es[1..]);
      AfterShift(s, es, |es|);
      forall i | 0 <= i < |es| ensures Legal(After(s, es, i), es[i]) {
        if i > 0 { AfterShift(s, es, i); }
      }
    }
  }

  lemma {:induction false} AfterRecoverable(s: Store, es: seq<Event>, n: nat)
    requires LegalRun(s, es) && Recoverable(s) && n <= |es|
    ensures Recoverable(After(s, es, n))
  {
    hide Step, Legal, Recoverable;
    AfterRun(s, es);
    if n > 0 {
      AfterRecoverable(s, es, n - 1);
      StepOk(After(s, es, n - 1), es[n - 1]);
    }
  }

  /** The event gives the name a zone, or takes the one it has. */
  ghost predicate Moves(s: Store, e: Event, name: Name) {
    e.Changed? &&
    match e.ch
    case Remove(n) => n == name && name in s.c.current
    case Assign(n, _) => n == name
    case _ => false
  }

  /** The zone to be flushed for it. */
  ghost function MovedZone(s: Store, e: Event, name: Name): nat
    requires Moves(s, e, name)
  {
    if e.ch.Assign? then e.ch.zone else s.c.current[name].zone
  }

  /** Event i is the last by moment n to move the name's zone, and the controller has
      not been restarted since. */
  ghost predicate LastMove(s: Store, es: seq<Event>, n: nat, name: Name, i: nat)
    requires n <= |es|
  {
    && i < n && Moves(After(s, es, i), es[i], name)
    && forall j :: i < j < n ==> !es[j].Restart? && !Moves(After(s, es, j), es[j], name)
  }

  ghost predicate SentSince(es: seq<Event>, n: nat, name: Name, i: nat)
    requires n <= |es|
  {
    exists j: nat :: i < j < n && es[j] == Flushing(name)
  }

  /** A flush of the name was sent and confirmed since. */
  ghost predicate FlushedSince(es: seq<Event>, n: nat, name: Name, i: nat)
    requires n <= |es|
  {
    exists j: nat, k: nat :: i < j < k < n && es[j] == Flushing(name) && es[k] == Flushed(name)
  }

  /** The log still holds the move. */
  ghost predicate Logged(c: Ctx, name: Name, zone: nat, add: bool) {
    name in c.pending && !Due(c.pending[name]) && c.pending[name].z.zone == zone && c.pending[name].add == add
  }

  ghost predicate Tracked(s: Store, es: seq<Event>, n: nat, name: Name, i: nat)
    requires n <= |es| && LastMove(s, es, n, name, i)
  {
    var c, was := After(s, es, n).c, After(s, es, i);
    || FlushedSince(es, n, name, i)
    || (&& Logged(c, name, MovedZone(was, es[i], name), es[i].ch.Assign?)
        && (At(c, name, OfSent) ==> SentSince(es, n, name, i)))
  }

  lemma MoveLogged(s: Store, e: Event, name: Name)
    requires Moves(s, e, name)
    ensures var c := Step(s, e).c;
            && name in c.pending && c.pending[name].stage == OfQueued
            && c.pending[name].z.zone == MovedZone(s, e, name) && c.pending[name].add == e.ch.Assign?
  {
  }

  /** What any other event does to the entry. */
  lemma EntryStep(s: Store, e: Event, name: Name, zone: nat, add: bool)
    requires Legal(s, e) && NameOk(s, name) && !e.Restart? && !Moves(s, e, name) && Logged(s.c, name, zone, add)
    ensures e != Flushed(name) ==> Logged(Step(s, e).c, name, zone, add)
    ensures e == Flushed(name) ==> At(s.c, name, OfSent)
    ensures At(Step(s, e).c, name, OfSent) ==> At(s.c, name, OfSent) || e == Flushing(name)
  {
  }

  lemma TrackedStart(s: Store, es: seq<Event>, name: Name, i: nat)
    requires i < |es| && LastMove(s, es, i + 1, name, i)
    ensures Tracked(s, es, i + 1, name, i)
  {
    hide Step, Logged, At;
    var was := After(s, es, i);
    assert After(s, es, i + 1) == Step(was, es[i]);
    MoveLogged(was, es[i], name);
    Fresh(After(s, es, i + 1).c, name, MovedZone(was, es[i], name), es[i].ch.Assign?);
  }

  lemma TrackedStep(s: Store, es: seq<Event>, n: nat, name: Name, i: nat)
    requires n < |es| && LastMove(s, es, n, name, i) && Tracked(s, es, n, name, i) && LastMove(s, es, n + 1, name, i)
    requires Legal(After(s, es, n), es[n]) && NameOk(After(s, es, n), name)
    ensures Tracked(s, es, n + 1, name, i)
  {
    hide Step, Legal, Moves, NameOk, Logged, At, LastMove;
    assert After(s, es, n + 1) == Step(After(s, es, n), es[n]);
    LastMoveIn(s, es, n, name, i);
    LaterEvent(s, es, n, name, i);
    if FlushedSince(es, n, name, i) {
      var j: nat, k: nat :| i < j < k < n && es[j] == Flushing(name) && es[k] == Flushed(name);
      assert i < j < k < n + 1;
    } else {
      EntryStep(After(s, es, n), es[n], name, MovedZone(After(s, es, i), es[i], name), es[i].ch.Assign?);
      if SentSince(es, n, name, i) {
        var j: nat :| i < j < n && es[j] == Flushing(name);
        assert i < j < n + 1 && es[j] == Flushing(name);
      }
    }
  }

  lemma LaterEvent(s: Store, es: seq<Event>, n: nat, name: Name, i: nat)
    requires n < |es| && i < n && LastMove(s, es, n + 1, name, i)
    ensures !es[n].Restart? && !Moves(After(s, es, n), es[n], name) && Moves(After(s, es, i), es[i], name)
  {
  }

  lemma LastMoveBefore(s: Store, es: seq<Event>, n: nat, name: Name, i: nat)
    requires i + 1 < n <= |es| && LastMove(s, es, n, name, i)
    ensures LastMove(s, es, n - 1, name, i)
  {
    hide After, Moves;
  }

  lemma LastMoveIn(s: Store, es: seq<Event>, n: nat, name: Name, i: nat)
    requires n <= |es| && LastMove(s, es, n, name, i)
    ensures i < n
  {
  }

  lemma {:induction false} AllTracked(s: Store, es: seq<Event>, n: nat, name: Name, i: nat)
    requires LegalRun(s, es) && Recoverable(s) && n <= |es| && LastMove(s, es, n, name, i)
    ensures Tracked(s, es, n, name, i)
    decreases n
  {
    hide Step, Legal, LegalRun, NameOk, After, LastMove, Tracked;
    LastMoveIn(s, es, n, name, i);
    if n == i + 1 {
      TrackedStart(s, es, name, i);
    } else {
      LastMoveBefore(s, es, n, name, i);
      AllTracked(s, es, n - 1, name, i);
      AfterRun(s, es);
      AfterRecoverable(s, es, n - 1);
      assert NameOk(After(s, es, n - 1), name);
      TrackedStep(s, es, n - 1, name, i);
    }
  }

  lemma Fresh(c: Ctx, name: Name, zone: nat, add: bool)
    requires name in c.pending && c.pending[name].stage == OfQueued
    requires c.pending[name].z.zone == zone && c.pending[name].add == add
    ensures Logged(c, name, zone, add) && !At(c, name, OfSent)
  {
  }

  /** MAIN RESULT.  Over every run from any database: as long as the zone last given to
      a name or taken from it has not been flushed -- sent to the switch and then
      confirmed -- since, the log holds that zone and whether it was given or taken,
      at a stage before the database.  So nothing about the name is due to be written,
      or gone from the log, with its flush left out. */
  lemma FlushedFirst(db: Db, es: seq<Event>, n: nat, name: Name, i: nat)
    requires LegalRun(Boot(db), es) && n <= |es| && LastMove(Boot(db), es, n, name, i)
    ensures var p, was := After(Boot(db), es, n).c.pending, After(Boot(db), es, i);
            && (name !in p || Due(p[name]) ==> FlushedSince(es, n, name, i))
            && (!FlushedSince(es, n, name, i) ==>
                  && name in p && (p[name].stage == OfQueued || p[name].stage == OfSent)
                  && p[name].z.zone == MovedZone(was, es[i], name) && p[name].add == es[i].ch.Assign?)
  {
    hide LegalRun, LastMove, After, FlushedSince;
    BootOk(db);
    AllTracked(Boot(db), es, n, name, i);
  }

  ghost predicate SomeMove(s: Store, es: seq<Event>, n: nat, name: Name)
    requires n <= |es|
  {
    exists i: nat :: LastMove(s, es, n, name, i)
  }

  lemma NewlyQueued(s: Store, e: Event, name: Name)
    requires Legal(s, e) && !Moves(s, e, name) && name in Step(s, e).c.pending && !Due(Step(s, e).c.pending[name])
    ensures !e.Restart? && name in s.c.pending && !Due(s.c.pending[name])
  {
  }

  /** And only such moves cause a flush: an entry before the database stage stems from
      one. */
  lemma {:induction false} FlushedOnlyIfMoved(db: Db, es: seq<Event>, n: nat, name: Name)
    requires LegalRun(Boot(db), es) && n <= |es|
    requires var p := After(Boot(db), es, n).c.pending; name in p && !Due(p[name])
    ensures SomeMove(Boot(db), es, n, name)
    decreases n
  {
    hide Step, Legal, Moves;
    AfterRun(Boot(db), es);
    if n > 0 {
      var t, e := After(Boot(db), es, n - 1), es[n - 1];
      if Moves(t, e, name) {
        assert LastMove(Boot(db), es, n, name, n - 1);
      } else {
        NewlyQueued(t, e, name);
        FlushedOnlyIfMoved(db, es, n - 1, name);
        var i: nat :| LastMove(Boot(db), es, n - 1, name, i);
        assert LastMove(Boot(db), es, n, name, i);
      }
    }
  }

  // ---- What a transaction settles ----

  /** A transaction that succeeds with no change in between settles exactly what was due:
      those entries leave the log, and the database has just the names and zones that
      are assigned; nothing else changes. */
  lemma CommitSettles(db: Db, es: seq<Event>)
    requires LegalRun(Boot(db), es) && Run(Boot(db), es).txn.None?
    ensures var s := Run(Boot(db), es);
            var s' := Step(Step(s, Commit), Committed);
            && s'.c.current == s.c.current && s'.c.bits == s.c.bits
            && (forall n :: n in s'.c.pending <==> n in s.c.pending && !Due(s.c.pending[n]))
            && (forall n :: n in s'.c.pending ==> s'.c.pending[n] == s.c.pending[n])
            && (forall n :: n in s.c.pending && Due(s.c.pending[n]) ==> Agrees(s'.db, s.c.current, n))
            && (forall n :: n !in s.c.pending || !Due(s.c.pending[n]) ==>
                  (n in s'.db <==> n in s.db) && (n in s.db ==> s'.db[n] == s.db[n]))
  {
    BootOk(db);
    RunOk(Boot(db), es);
    var s := Run(Boot(db), es);
    forall n | n in s.c.pending && Due(s.c.pending[n])
      ensures Agrees(Step(Step(s, Commit), Committed).db, s.c.current, n)
    {
      assert NameOk(s, n);
    }
  }

  /** One that fails leaves them due, and the next one carries them again. */
  lemma FailedRetries(s: Store)
    requires s.txn.None?
    ensures var s' := Step(Step(s, Commit), Failed);
            && s'.db == s.db && s'.c.current == s.c.current && s'.txn.None? && s'.c.pending.Keys == s.c.pending.Keys
            && (forall n :: n in s.c.pending ==> (Due(s'.c.pending[n]) <==> Due(s.c.pending[n])))
            && Written(s'.db, s'.c.pending) == Written(s.db, s.c.pending)
  {
  }
}
