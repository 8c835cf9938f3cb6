/** Recovery: what the database holds and what is on its way to it are together
    exactly the zones assigned, in every state of every run. */
module CtZoneRecovery {
  import opened Common
  import opened CtZone

  /** The context, the database, and the transaction in flight, if any. */
  datatype Store = Store(c: Ctx, db: Db, txn: Option<Db>)

  datatype Event =
    | Changed(ch: Change)
    | Flushing(name: Name)
    | Flushed(name: Name)
    | Reflush(name: Name)
    | Commit
    | Committed
    | Failed
    | Recompute
    | Restart

  /** A controller that starts knows nothing and restores what the database holds,
      whatever that is. */
  function Boot(db: Db): Store { Store(Restore(Ctx({0}, map[], map[]), db), db, None) }

  predicate At(c: Ctx, n: Name, stage: Stage) { n in c.pending && c.pending[n].stage == stage }

  ghost predicate Legal(s: Store, e: Event) {
    match e
    case Changed(ch) => ch.Assign? ==> ch.zone <= MAX_CT_ZONES
    case Flushing(n) => At(s.c, n, OfQueued)
    case Flushed(n) => At(s.c, n, OfSent)
    case Reflush(n) => At(s.c, n, OfSent)
    case Commit => s.txn.None?
    case Committed => s.txn.Some?
    case Failed => s.txn.Some?
    case Recompute => true
    case Restart => true
  }

  function Restage(c: Ctx, n: Name, stage: Stage): Ctx {
    if n in c.pending then c.(pending := c.pending[n := c.pending[n].(stage := stage)]) else c
  }

  function Step(s: Store, e: Event): Store {
    match e
    case Changed(ch) => s.(c := Apply1(s.c, ch))
    case Flushing(n) => s.(c := Restage(s.c, n, OfSent))
    case Flushed(n) => s.(c := Restage(s.c, n, DbQueued))
    case Reflush(n) => s.(c := Restage(s.c, n, OfQueued))
    case Commit => s.(txn := Some(Written(s.db, s.c.pending)), c := s.c.(pending := MarkSent(s.c.pending)))
    case Committed =>
      if s.txn.Some? then Store(s.c.(pending := ClearCommitted(s.c.pending)), s.txn.value, None) else s
    case Failed => s.(txn := None)
    case Recompute => s.(c := Restore(s.c, s.db))
    case Restart => Boot(s.db)
  }

  /** Database and assignment agree on a name.  A zone is read as 16 bits. */
  ghost predicate Agrees(db: Db, cur: map<Name, Zone>, n: Name) {
    (n in db <==> n in cur) && (n in db ==> db[n] % (MAX_CT_ZONES + 1) == cur[n].zone)
  }

  ghost predicate NameOk(s: Store, n: Name) {
    && (n in s.c.current ==> s.c.current[n].zone <= MAX_CT_ZONES)
    && (if n !in s.c.pending then Agrees(s.db, s.c.current, n) && (s.txn.Some? ==> Agrees(s.txn.value, s.c.current, n))
        else if s.c.pending[n].add then n in s.c.current && s.c.current[n].zone == s.c.pending[n].z.zone
        else n !in s.c.current)
    && (s.txn.Some? && At(s.c, n, DbSent) ==> Agrees(s.txn.value, s.c.current, n))
  }

  ghost predicate Recoverable(s: Store) { forall n :: NameOk(s, n) }

  lemma ChangedOk(s: Store, ch: Change)
    requires Recoverable(s) && Legal(s, Changed(ch))
    ensures Recoverable(Step(s, Changed(ch)))
  {
    var s' := Step(s, Changed(ch));
    forall n ensures NameOk(s', n) { assert NameOk(s, n); }
  }

  lemma BootOk(db: Db)
    ensures Recoverable(Boot(db))
  {
    forall n ensures NameOk(Boot(db), n) {
      assert n in Restored(map[], db) <==> n in db;
    }
  }

  lemma StepOk(s: Store, e: Event)
    requires Recoverable(s) && Legal(s, e)
    ensures Recoverable(Step(s, e))
  {
    var s' := Step(s, e);
    if e.Changed? {
      ChangedOk(s, e.ch);
    } else if e.Restart? {
      BootOk(s.db);
    } else {
      forall n ensures NameOk(s', n) { assert NameOk(s, n); }
    }
  }

  /** MAIN RESULT (one state): restoring into an empty map from the database and the
      log gives back exactly the zones assigned, and the bitmap they need. */
  lemma RestoreReproduces(s: Store)
    requires Recoverable(s)
    ensures var r := Restore(s.c.(current := map[]), s.db);
            && r.current.Keys == s.c.current.Keys
            && (forall n :: n in s.c.current ==> r.current[n].zone == s.c.current[n].zone)
            && r.bits == {0} + set n | n in s.c.current :: s.c.current[n].zone
  {
    var r := Restored(s.c.pending, s.db);
    forall n
      ensures n in r <==> n in s.c.current
      ensures n in s.c.current ==> r[n].zone == s.c.current[n].zone
    {
      assert NameOk(s, n);
    }
    assert map[] + r == r;
  }

  ghost predicate LegalRun(s: Store, es: seq<Event>)
    decreases |es|
  {
    es == [] || (Legal(s, es[0]) && LegalRun(Step(s, es[0]), es[1..]))
  }

  ghost function Run(s: Store, es: seq<Event>): Store
    decreases |es|
  {
    if es == [] then s else Run(Step(s, es[0]), es[1..])
  }

  lemma {:induction false} RunOk(s: Store, es: seq<Event>)
    requires Recoverable(s) && LegalRun(s, es)
    ensures Recoverable(Run(s, es))
    decreases |es|
  {
    if es != [] {
      StepOk(s, es[0]);
      RunOk(Step(s, es[0]), es[1..]);
    }
  }

  /** MAIN RESULT.  From any database, in every state of every legal run, restarts
      included, a restore gives back exactly the zones assigned, whether into an
      empty map or over the present one. */
  lemma RecoveryRefines(db: Db, es: seq<Event>)
    requires LegalRun(Boot(db), es)
    ensures var s := Run(Boot(db), es);
            var r := Restore(s.c.(current := map[]), s.db);
            && r.current == Restore(s.c, s.db).current
            && r.current.Keys == s.c.current.Keys
            && (forall n :: n in s.c.current ==> r.current[n].zone == s.c.current[n].zone)
            && r.bits == {0} + set n | n in s.c.current :: s.c.current[n].zone
  {
    hide LegalRun, Run;
    BootOk(db);
    RunOk(Boot(db), es);
    var s := Run(Boot(db), es);
    RestoreReproduces(s);
    var r := Restored(s.c.pending, s.db);
    assert map[] + r == r && s.c.current + r == r;
  }

  /** A restart brings back the zone of every name for which nothing is logged. */
  lemma RestartKeeps(db: Db, es: seq<Event>, n: Name)
    requires LegalRun(Boot(db), es) && n !in Run(Boot(db), es).c.pending
    ensures var s := Run(Boot(db), es);
            var cur := Step(s, Restart).c.current;
            (n in cur <==> n in s.c.current) && (n in cur ==> cur[n].zone == s.c.current[n].zone)
  {
    hide LegalRun, Run;
    BootOk(db);
    RunOk(Boot(db), es);
    assert NameOk(Run(Boot(db), es), n);
  }
}
