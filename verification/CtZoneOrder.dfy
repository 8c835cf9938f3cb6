/** Exactly when explicit zone requests keep zones exclusive: the requests are
    walked in hash order, so the question is about every order. */
module CtZoneOrder {
  import opened Seqs
  import opened CtZone
  import opened CtZoneManager
  import R = CtZoneRecovery

  // ---------- Compatible requests, in any order ----------

  lemma {:induction false} CompatibleSuffices(was: Ctx, c: Ctx, reqs: map<Name, nat>, unreq: map<Name, nat>,
                                              order: seq<Name>)
    requires Exclusive(was) && Exclusive(c) && Compatible(reqs, was.current) && NoDup(order)
    requires forall r :: r in order ==> r in reqs
    requires HeldBy(unreq, c.current) && unreq.Keys !! reqs.Keys && Noted(c.current, reqs, unreq)
    requires OthersMarked(c, reqs)
    requires Satisfied(was.current, c.current, reqs, set r | r in order)
    ensures Exclusive(HonourAll(c, reqs, unreq, order))
    decreases |order|
  {
    hide Exclusive, Compatible, Satisfied, OthersMarked, Noted, HeldBy, HonourCtx, Without;
    if order != [] {
      var r := order[0];
      var todo := set x | x in order;
      assert r in order;
      var c' := HonourCtx(c, r, reqs[r], unreq);
      assert Honoured(c, c', r, reqs[r], unreq) by { HonourCtxIs(c, r, reqs[r], unreq); }
      HonourStep(was, c, c', reqs, todo, r, unreq, true);
      assert todo - {r} == set x | x in order[1..];
      CompatibleSuffices(was, c', reqs, Without(unreq, reqs[r]), order[1..]);
    }
  }

  lemma HonourCtxIs(c: Ctx, r: Name, z: nat, unreq: map<Name, nat>)
    ensures Honoured(c, HonourCtx(c, r, z, unreq), r, z, unreq)
  {
  }

  // ---------- Incompatible requests, in some order ----------

  /** A requester holds what it asked for, whatever comes later. */
  lemma {:induction false} KeepsZone(c: Ctx, reqs: map<Name, nat>, unreq: map<Name, nat>, order: seq<Name>, r: Name)
    requires NoDup(order) && (forall x :: x in order ==> x in reqs) && r in reqs && unreq.Keys !! reqs.Keys
    requires r in order || (r in c.current && c.current[r].zone == reqs[r])
    ensures var e := HonourAll(c, reqs, unreq, order); r in e.current && e.current[r].zone == reqs[r]
    decreases |order|
  {
    if order != [] {
      var z := reqs[order[0]];
      var c' := HonourCtx(c, order[0], z, unreq);
      assert r != order[0] ==> r !in Holders(unreq, z);
      assert r in order ==> r == order[0] || r in order[1..];
      assert order[0] in order;
      KeepsZone(c', reqs, Without(unreq, z), order[1..], r);
    }
  }

  /** A bit that is off stays off while nobody left asks for it. */
  lemma {:induction false} StaysOff(c: Ctx, reqs: map<Name, nat>, unreq: map<Name, nat>, order: seq<Name>, z: nat)
    requires (forall x :: x in order ==> x in reqs && reqs[x] != z) && z !in c.bits
    ensures z !in HonourAll(c, reqs, unreq, order).bits
    decreases |order|
  {
    if order != [] {
      assert order[0] in order;
      StaysOff(HonourCtx(c, order[0], reqs[order[0]], unreq), reqs, Without(unreq, reqs[order[0]]), order[1..], z);
    }
  }

  /** `r` holds the zone `q` asks for: walking `q` first, then `r`, leaves the zone
      held by `q` with its bit off. */
  lemma ChainBreaks(c: Ctx, reqs: map<Name, nat>, unreq: map<Name, nat>, r: Name, q: Name) returns (order: seq<Name>)
    requires Exclusive(c) && unreq.Keys !! reqs.Keys
    requires forall a, b :: a in reqs && b in reqs && a != b ==> reqs[a] != reqs[b]
    requires r in reqs && q in reqs && r != q && r in c.current && c.current[r].zone == reqs[q]
    ensures Order(order, reqs) && Broken(HonourAll(c, reqs, unreq, order))
  {
    var rest := SomeOrder(reqs.Keys - {q, r});
    order := [q, r] + rest;
    var z := reqs[q];
    var c1 := HonourCtx(c, q, z, unreq);
    assert r !in Holders(unreq, z);
    var u1 := Without(unreq, z);
    var c2 := HonourCtx(c1, r, reqs[r], u1);
    assert z !in c2.bits;
    var u2 := Without(u1, reqs[r]);
    assert order[1..] == [r] + rest && order[1..][1..] == rest;
    assert HonourAll(c, reqs, unreq, order) == HonourAll(c1, reqs, u1, order[1..]) == HonourAll(c2, reqs, u2, rest);
    StaysOff(c2, reqs, u2, rest, z);
    assert q !in Holders(u1, reqs[r]);
    KeepsZone(c2, reqs, u2, rest, q);
    var e := HonourAll(c2, reqs, u2, rest);
    assert q in e.current && e.current[q].zone !in e.bits;
  }

  /** From an exclusive start, honouring the requests keeps zones
      exclusive in every order iff the requests are compatible. */
  lemma CompatibleExact(c: Ctx, reqs: map<Name, nat>, unreq: map<Name, nat>)
    requires Exclusive(c) && HeldBy(unreq, c.current) && unreq.Keys !! reqs.Keys && Noted(c.current, reqs, unreq)
    ensures Compatible(reqs, c.current) <==>
            forall order :: Order(order, reqs) ==> Exclusive(HonourAll(c, reqs, unreq, order))
  {
    if Compatible(reqs, c.current) {
      forall order | Order(order, reqs) ensures Exclusive(HonourAll(c, reqs, unreq, order)) {
        ExclusiveMarks(c, reqs);
        SatisfiedStart(c.current, reqs);
        assert (set r | r in order) == reqs.Keys;
        CompatibleSuffices(c, c, reqs, unreq, order);
      }
    } else {
      var order := IncompatibleBreaks(c, reqs, unreq);
      BrokenNotExclusive(HonourAll(c, reqs, unreq, order));
    }
  }

  lemma IncompatibleBreaks(c: Ctx, reqs: map<Name, nat>, unreq: map<Name, nat>) returns (order: seq<Name>)
    requires Exclusive(c) && unreq.Keys !! reqs.Keys && !Compatible(reqs, c.current)
    ensures Order(order, reqs) && Broken(HonourAll(c, reqs, unreq, order))
  {
    if r, q :| r in reqs && q in reqs && r != q && reqs[r] == reqs[q] {
      order := SomeOrder(reqs.Keys);
      KeepsZone(c, reqs, unreq, order, r);
      KeepsZone(c, reqs, unreq, order, q);
    } else if r :| r in reqs && !(1 <= reqs[r] <= MAX_CT_ZONES) {
      order := SomeOrder(reqs.Keys);
      KeepsZone(c, reqs, unreq, order, r);
    } else {
      var r, q :| r in reqs && q in reqs && r != q && r in c.current && c.current[r].zone == reqs[q];
      order := ChainBreaks(c, reqs, unreq, r, q);
    }
  }

  // ---------- The whole update ----------

  /** What breaks exclusivity and stays broken: a zone out of range, a zone with two
      holders, or one held with its bit off. */
  ghost predicate Broken(c: Ctx) {
    || (exists n :: n in c.current && !(1 <= c.current[n].zone <= MAX_CT_ZONES))
    || (exists a, b :: a in c.current && b in c.current && a != b && c.current[a].zone == c.current[b].zone)
    || (exists n :: n in c.current && c.current[n].zone !in c.bits)
  }

  lemma BrokenNotExclusive(c: Ctx)
    requires Broken(c)
    ensures !Exclusive(c)
  {
    if n :| n in c.current && c.current[n].zone !in c.bits { assert c.current[n].zone in Zones(c.current); }
  }

  /** Filling up cannot mend it: the clear bit of a held zone either stays clear or
      makes the zone look free to somebody else. */
  lemma FillStaysBroken(c: Ctx, c': Ctx, users: set<Name>, lo: nat, hi: nat)
    requires Broken(c) && Filled(c, c', users, lo, hi)
    ensures Broken(c')
  {
    if n :| n in c.current && !(1 <= c.current[n].zone <= MAX_CT_ZONES) {
      assert n in c'.current;
    } else if a, b :| a in c.current && b in c.current && a != b && c.current[a].zone == c.current[b].zone {
      assert a in c'.current && b in c'.current;
    } else {
      var n :| n in c.current && c.current[n].zone !in c.bits;
      var z := c.current[n].zone;
      assert n in c'.current && c'.current[n].zone == z;
      if z in c'.bits {
        var m :| m in c'.current && m !in c.current && c'.current[m].zone == z;
        assert m != n;
      }
    }
  }

  /** MAIN RESULT.  From an exclusive start and with the startup grace over, the whole
      update ends exclusive, whatever the order of its walks, iff the requests are
      compatible; if they are not, some order of the requests leaves zones that no
      fill can mend. */
  lemma UpdateExact(was: Ctx, users: set<Name>, lports: set<Name>, reqs: map<Name, nat>, lo: nat, hi: nat)
    requires Exclusive(was) && reqs.Keys <= users && 1 <= lo && hi <= MAX_CT_ZONES
    ensures Compatible(reqs, was.current) <==>
              forall order, c :: Outcome(was, users, lports, reqs, lo, hi, order, c) ==> Exclusive(c)
    ensures !Compatible(reqs, was.current) ==>
              exists order :: Order(order, reqs)
                && forall c :: Outcome(was, users, lports, reqs, lo, hi, order, c) ==> !Exclusive(c)
  {
    hide Exclusive, Compatible, HonourAll, Filled, Pruned, Unrequested, Broken, HeldBy, Noted;
    var c1 := PrunedCtx(was, users, lports, reqs, lo, hi);
    var unreq := Unrequested(c1.current, users, reqs);
    PrunedExclusive(was, users, lports, reqs, lo, hi);
    PrunedFacts(was.current, users, lports, reqs, lo, hi, false);
    if Compatible(reqs, was.current) {
      CompatibleExact(c1, reqs, unreq);
      forall order, c | Outcome(was, users, lports, reqs, lo, hi, order, c) ensures Exclusive(c) {
        FilledExclusive(HonouredCtx(was, users, lports, reqs, lo, hi, order), c, users, lo, hi);
      }
    } else {
      var order := IncompatibleBreaks(c1, reqs, unreq);
      var c2 := HonouredCtx(was, users, lports, reqs, lo, hi, order);
      forall c | Outcome(was, users, lports, reqs, lo, hi, order, c) ensures !Exclusive(c) {
        FillStaysBroken(c2, c, users, lo, hi);
        BrokenNotExclusive(c);
      }
      FilledStart(c2, users, lo, hi);
      assert Outcome(was, users, lports, reqs, lo, hi, order, c2);
    }
  }

  lemma PrunedExclusive(was: Ctx, users: set<Name>, lports: set<Name>, reqs: map<Name, nat>, lo: nat, hi: nat)
    requires Exclusive(was)
    ensures Exclusive(PrunedCtx(was, users, lports, reqs, lo, hi))
  {
  }

  // ---------- Recovery ----------

  /** Whatever an update does is a run of small changes, so it keeps the log and the
      database in step with the zones. */
  lemma {:induction false} ReachedRecoverable(s: R.Store, chs: seq<Change>)
    requires R.Recoverable(s) && LegalChanges(chs)
    ensures R.Recoverable(s.(c := Apply(s.c, chs)))
    decreases |chs|
  {
    hide R.Recoverable;
    if chs != [] {
      assert chs[0] in chs;
      R.ChangedOk(s, chs[0]);
      ReachedRecoverable(R.Step(s, R.Changed(chs[0])), chs[1..]);
    }
  }
}
