/** The limits on conntrack zones over every run: a limit is in force iff it was set
    and nothing has touched the zone since, and the log carries it to the database. */
module CtZoneLimits {
  import opened Common
  import opened CtZone
  import opened CtZoneRecovery
  import opened CtZoneFlush

  /** The event touches the name's zone or its limit. */
  ghost predicate Touches(e: Event, name: Name) {
    match e
    case Changed(Remove(n)) => n == name
    case Changed(Assign(n, _)) => n == name
    case Changed(Confirm(n)) => n == name
    case Changed(Limit(n, _)) => n == name
    case Recompute => true
    case Restart => true
    case _ => false
  }

  /** Event i sets the limit on the name's zone, and it is left alone until moment n. */
  ghost predicate Sets(s: Store, es: seq<Event>, n: nat, name: Name, limit: int, i: nat)
    requires n <= |es|
  {
    && i < n && es[i] == Changed(Limit(name, limit)) && name in After(s, es, i).c.current
    && forall j :: i < j < n ==> !Touches(es[j], name)
  }

  ghost predicate InForce(c: Ctx, name: Name, limit: int) { name in c.current && c.current[name].limit == limit }

  /** One event: whoever else touches the zone leaves it without a limit. */
  lemma ForceStep(s: Store, e: Event, name: Name, limit: int)
    requires NameOk(s, name) && limit != NO_LIMIT
    ensures InForce(Step(s, e).c, name, limit) <==>
            if Touches(e, name) then e == Changed(Limit(name, limit)) && name in s.c.current
            else InForce(s.c, name, limit)
  {
  }

  lemma SetsBefore(s: Store, es: seq<Event>, n: nat, name: Name, limit: int, i: nat)
    requires n < |es|
    ensures Sets(s, es, n + 1, name, limit, i) <==>
            if i == n then es[n] == Changed(Limit(name, limit)) && name in After(s, es, n).c.current
            else Sets(s, es, n, name, limit, i) && !Touches(es[n], name)
    ensures !Sets(s, es, n, name, limit, n) && !Sets(s, es, 0, name, limit, i)
  {
    hide After, Touches;
  }

  /** MAIN RESULT.  From any database, at every moment of every legal run, a limit is in
      force iff some event set it on a zone that the name had, and no event since has
      touched that zone; a restart or a recompute does. */
  lemma {:induction false} LimitInForce(db: Db, es: seq<Event>, n: nat, name: Name, limit: int)
    requires LegalRun(Boot(db), es) && n <= |es| && limit != NO_LIMIT
    ensures InForce(After(Boot(db), es, n).c, name, limit) <==>
            exists i: nat :: Sets(Boot(db), es, n, name, limit, i)
  {
    hide Step, Sets, Touches, InForce, LegalRun, Boot;
    var s := Boot(db);
    if n == 0 {
      BootUnlimited(db, es, name, limit);
    } else {
      var k := n - 1;
      LimitInForce(db, es, k, name, limit);
      BootOk(db);
      AfterRecoverable(s, es, k);
      assert NameOk(After(s, es, k), name);
      ForceStep(After(s, es, k), es[k], name, limit);
      TouchesLimit(es[k], name, limit);
      SetsBefore(s, es, k, name, limit, k);
      if i: nat :| Sets(s, es, k, name, limit, i) { SetsBefore(s, es, k, name, limit, i); }
      forall i: nat
        ensures Sets(s, es, n, name, limit, i) <==>
                if i == k then es[k] == Changed(Limit(name, limit)) && name in After(s, es, k).c.current
                else Sets(s, es, k, name, limit, i) && !Touches(es[k], name)
      {
        SetsBefore(s, es, k, name, limit, i);
      }
    }
  }

  lemma TouchesLimit(e: Event, name: Name, limit: int)
    ensures e == Changed(Limit(name, limit)) ==> Touches(e, name)
  {
  }

  lemma BootUnlimited(db: Db, es: seq<Event>, name: Name, limit: int)
    requires limit != NO_LIMIT
    ensures !InForce(Boot(db).c, name, limit)
    ensures forall i: nat :: !Sets(Boot(db), es, 0, name, limit, i)
  {
  }

  // ---- The log ----

  /** An entry for a zone with a limit is an addition that carries zone and limit. */
  ghost predicate Carried(c: Ctx, name: Name) {
    name in c.current && c.current[name].limit != NO_LIMIT && name in c.pending ==>
      c.pending[name].add && c.pending[name].z == c.current[name]
  }

  lemma CarriedStep(s: Store, e: Event, name: Name)
    requires NameOk(s, name) && Carried(s.c, name)
    ensures Carried(Step(s, e).c, name)
  {
  }

  /** Whatever is logged for a zone with a limit tells the database both; a new limit is
      logged at once, and the same limit again changes nothing. */
  lemma {:induction false} LimitLogged(db: Db, es: seq<Event>, n: nat, name: Name)
    requires LegalRun(Boot(db), es) && n <= |es|
    ensures Carried(After(Boot(db), es, n).c, name)
    ensures forall limit | name in After(Boot(db), es, n).c.current ::
              var s := After(Boot(db), es, n);
              var s' := Step(s, Changed(Limit(name, limit)));
              if s.c.current[name].limit == limit then s' == s
              else
                && name in s'.c.pending && s'.c.pending[name].add
                && s'.c.pending[name].z == Zone(s.c.current[name].zone, limit) == s'.c.current[name]
                && s'.c.bits == s.c.bits && s'.db == s.db
  {
    if n > 0 {
      BootOk(db);
      AfterRecoverable(Boot(db), es, n - 1);
      hide LegalRun, Boot;
      assert NameOk(After(Boot(db), es, n - 1), name);
      LimitLogged(db, es, n - 1, name);
      CarriedStep(After(Boot(db), es, n - 1), es[n - 1], name);
    }
  }
}
