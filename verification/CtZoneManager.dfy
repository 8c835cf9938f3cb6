/** The zone context in place: the bitmap, the maps, and the three passes of an
    update -- drop what is out of place, honour explicit requests, fill the rest. */
module CtZoneManager {
  import opened Seqs
  import opened CtZone

  // ---------- What an update has to achieve ----------

  ghost predicate Injective(m: map<Name, Zone>) {
    forall a, b :: a in m && b in m && a != b ==> m[a].zone != m[b].zone
  }

  ghost function Zones(m: map<Name, Zone>): set<nat> { set n | n in m :: m[n].zone }

  /** Every zone has one holder, and a bit is set iff it is zone 0 or held. */
  ghost predicate Exclusive(c: Ctx) {
    && Injective(c.current) && c.bits == {0} + Zones(c.current)
    && forall n :: n in c.current ==> 1 <= c.current[n].zone <= MAX_CT_ZONES
  }

  /** Whoever got another zone, and whoever lost one, has a flush for it queued. */
  ghost predicate FlushQueued(was: Ctx, c: Ctx) {
    && (forall n :: n in c.current ==>
          || (n in was.current && was.current[n].zone == c.current[n].zone)
          || (n in c.pending && c.pending[n].add && c.pending[n].z.zone == c.current[n].zone
              && c.pending[n].stage.OfQueued?))
    && (forall n :: n in was.current && n !in c.current ==>
          n in c.pending && !c.pending[n].add && c.pending[n].stage.OfQueued?)
  }

  /** The explicit requests ask for distinct zones, and no requester holds the zone
      another one asks for. */
  ghost predicate Compatible(reqs: map<Name, nat>, cur: map<Name, Zone>) {
    && (forall r :: r in reqs ==> 1 <= reqs[r] <= MAX_CT_ZONES)
    && (forall r, q :: r in reqs && q in reqs && r != q ==> reqs[r] != reqs[q])
    && (forall r, q :: r in reqs && q in reqs && r != q && r in cur ==> cur[r].zone != reqs[q])
  }

  /** Every requester has its zone; every other user has one in range, its own
      among those, or there is none left. */
  ghost predicate Allocated(c: Ctx, users: set<Name>, reqs: map<Name, nat>, lo: nat, hi: nat) {
    && c.current.Keys <= users
    && (forall r :: r in reqs ==> r in c.current && c.current[r].zone == reqs[r])
    && (forall n :: n in c.current && n !in reqs ==> lo <= c.current[n].zone <= hi)
    && (forall a, b :: a in c.current && b in c.current && a != b && a !in reqs && b !in reqs
          ==> c.current[a].zone != c.current[b].zone)
    && (forall u :: u in users && u !in c.current ==> Full(c.bits, lo, hi))
  }

  /** Who keeps its zone, and the limit on it: a user that asks for none, whose zone is
      in range and asked for by nobody; and, during the startup grace, a port that is
      not known to be a user yet.  Any other name that is no user loses it. */
  ghost predicate Undisturbed(was: map<Name, Zone>, cur: map<Name, Zone>, users: set<Name>, lports: set<Name>,
                              reqs: map<Name, nat>, lo: nat, hi: nat, grace: bool) {
    && (forall n :: n in was && n in users && n !in reqs && lo <= was[n].zone <= hi && was[n].zone !in reqs.Values ==>
          n in cur && cur[n] == was[n])
    && (forall n :: n in was && n !in users && grace && n in lports ==> n in cur && cur[n] == was[n])
    && (forall n :: n in was && n !in users && !(grace && n in lports) ==> n !in cur)
  }

  ghost predicate Full(bits: set<nat>, lo: nat, hi: nat) { forall z :: lo <= z <= hi ==> z in bits }

  // ---------- Single changes ----------

  lemma RemoveExclusive(c: Ctx, n: Name)
    requires Exclusive(c)
    ensures Exclusive(ZoneRemove(c, n))
  {
    var c' := ZoneRemove(c, n);
    if n in c.current {
      forall z ensures z in c'.bits <==> z in {0} + Zones(c'.current) {
        if z in c'.bits && z != 0 {
          var m :| m in c.current && c.current[m].zone == z;
          assert m in c'.current;
        }
      }
    }
  }

  lemma AssignExclusive(c: Ctx, n: Name, z: nat)
    requires Exclusive(c) && n !in c.current && z !in c.bits && 1 <= z <= MAX_CT_ZONES
    ensures Exclusive(ZoneAdd(c, n, z, true))
  {
    var c' := ZoneAdd(c, n, z, true);
    assert forall m :: m in c.current ==> c.current[m].zone in Zones(c.current);
    assert Zones(c'.current) == Zones(c.current) + {z} by {
      forall y | y in Zones(c.current) ensures y in Zones(c'.current) {
        var m :| m in c.current && c.current[m].zone == y;
        assert m in c'.current && c'.current[m].zone == y;
      }
      assert n in c'.current;
    }
  }

  lemma FlushKept(was: Ctx, c: Ctx, ch: Change)
    requires FlushQueued(was, c) && !ch.Limit?
    ensures FlushQueued(was, Apply1(c, ch))
  {
  }

  /** A later limit update cannot move a queued flush on. */
  lemma LimitKeepsFlush(was: Ctx, c: Ctx, name: Name, limit: int)
    requires FlushQueued(was, c)
    ensures FlushQueued(was, LimitUpdate(c, name, limit))
  {
  }

  ghost predicate Zoned(m: map<Name, Zone>) { forall n :: n in m ==> m[n].zone <= MAX_CT_ZONES }

  ghost predicate LegalChanges(chs: seq<Change>) {
    forall ch :: ch in chs ==> !ch.Limit? && (ch.Assign? ==> ch.zone <= MAX_CT_ZONES)
  }

  /** One more change to a context that has come from `was` by `chs`. */
  ghost predicate Reached(was: Ctx, chs: seq<Change>, c: Ctx) {
    c == Apply(was, chs) && LegalChanges(chs) && FlushQueued(was, c)
  }

  lemma ReachedSnoc(was: Ctx, chs: seq<Change>, c: Ctx, ch: Change)
    requires Reached(was, chs, c) && LegalChanges([ch])
    ensures Reached(was, chs + [ch], Apply1(c, ch))
  {
    assert ch in [ch];
    ApplySnoc(was, chs, ch);
    FlushKept(was, c, ch);
  }

  lemma ReachedConcat(was: Ctx, a: seq<Change>, c: Ctx, b: seq<Change>, c': Ctx)
    requires Reached(was, a, c) && Reached(c, b, c')
    ensures Reached(was, a + b, c')
  {
    ApplyConcat(was, a, b);
    FlushChain(was, c, b, c');
  }

  lemma {:induction false} FlushChain(was: Ctx, c: Ctx, b: seq<Change>, c': Ctx)
    requires FlushQueued(was, c) && LegalChanges(b) && c' == Apply(c, b)
    ensures FlushQueued(was, c')
    decreases |b|
  {
    if b != [] {
      assert b[0] in b;
      FlushKept(was, c, b[0]);
      FlushChain(was, Apply1(c, b[0]), b[1..], c');
    }
  }

  lemma ReachedStart(c: Ctx)
    ensures Reached(c, [], c)
  {
  }

  // ---------- The context in place ----------

  class CtZoneCtx {
    const bitmap: array<bool>
    var pending: map<Name, Pending>
    var current: map<Name, Zone>

    ghost function Bits(): set<nat>
      reads bitmap
    {
      set z: nat | z < bitmap.Length && bitmap[z]
    }

    ghost function State(): Ctx
      reads this, bitmap
    {
      Ctx(Bits(), pending, current)
    }

    ghost predicate Valid()
      reads this
    {
      bitmap.Length == MAX_CT_ZONES + 1 && Zoned(current)
    }

    constructor ()
      ensures Valid() && fresh(bitmap) && State() == Ctx({0}, map[], map[])
    {
      bitmap := new bool[MAX_CT_ZONES + 1](i => i == 0);
      pending, current := map[], map[];
    }

    method SetBit(z: nat, on: bool)
      requires z < bitmap.Length
      modifies bitmap
      ensures Bits() == if on then old(Bits()) + {z} else old(Bits()) - {z}
    {
      bitmap[z] := on;
    }

    /** The first clear bit from `start` up to, not including, `end`; else `end`. */
    method Scan(start: nat, end: nat) returns (z: nat)
      requires end <= bitmap.Length
      ensures forall y :: start <= y < z && y < end ==> y in Bits()
      ensures z == end || (start <= z < end && z !in Bits())
    {
      if start >= end { return end; }
      z := start;
      while z < end
        invariant start <= z <= end
        invariant forall y :: start <= y < z ==> y in Bits()
      {
        if !bitmap[z] { return; }
        z := z + 1;
      }
    }

    method AddZone(name: Name, zone: nat, setPending: bool)
      requires Valid() && zone <= MAX_CT_ZONES
      modifies this, bitmap
      ensures Valid() && State() == ZoneAdd(old(State()), name, zone, setPending)
    {
      current := current[name := Zone(zone, NO_LIMIT)];
      if setPending {
        pending := AddPending(pending, OfQueued, Zone(zone, NO_LIMIT), true, name);
      }
      SetBit(zone, true);
    }

    method RemoveZone(name: Name) returns (found: bool)
      requires Valid()
      modifies this, bitmap
      ensures Valid() && State() == ZoneRemove(old(State()), name) && current == old(current) - {name}
      ensures found <==> name in old(current)
    {
      if name !in current { return false; }
      var z := current[name];
      pending := AddPending(pending, OfQueued, z, false, name);
      SetBit(z.zone, false);
      current := current - {name};
      return true;
    }

    method UpdateLimit(name: Name, limit: int) returns (changed: bool)
      requires Valid()
      modifies this
      ensures changed <==> name in old(current) && old(current)[name].limit != limit
      ensures Valid() && State() == LimitUpdate(old(State()), name, limit)
    {
      if name !in current || current[name].limit == limit { return false; }
      current := current[name := current[name].(limit := limit)];
      pending := AddPending(pending, DbQueued, current[name], true, name);
      return true;
    }

    method AssignUnused(name: Name, start: nat, stop: nat) returns (ok: bool, next: nat)
      requires Valid() && stop <= MAX_CT_ZONES
      modifies this, bitmap
      ensures Valid()
      ensures ok ==>
                && start < next <= stop + 1 && next - 1 !in old(Bits())
                && State() == ZoneAdd(old(State()), name, next - 1, true)
      ensures ok ==> forall y :: start <= y < next ==> y in Bits()
      ensures !ok ==> next == start && State() == old(State()) && forall y :: start <= y <= stop ==> y in Bits()
    {
      var z := Scan(start, stop + 1);
      if z == stop + 1 { return false, start; }
      AddZone(name, z, true);
      return true, z + 1;
    }

    /** First pass: drops zones of former users and zones out of range, and notes
        the zones held without having been requested. */
    method Prune(users: set<Name>, lports: set<Name>, reqs: map<Name, nat>, lo: nat, hi: nat, grace: bool)
      returns (unreq: map<Name, nat>, ghost chs: seq<Change>)
      requires Valid()
      modifies this, bitmap
      ensures Valid() && Reached(old(State()), chs, State())
      ensures current == Pruned(old(current), users, lports, reqs, lo, hi, grace)
      ensures unreq == Unrequested(current, users, reqs)
      ensures old(Exclusive(State())) ==> Exclusive(State())
    {
      hide Exclusive, Reached, ZoneRemove, Bits, Pruning, Pruned, Unrequested;
      ghost var was := State();
      var todo := current.Keys;
      unreq, chs := map[], [];
      ReachedStart(was);
      PruningStart(was.current, users, lports, reqs, lo, hi, grace);
      while todo != {}
        invariant todo <= current.Keys && Valid() && Reached(was, chs, State())
        invariant Pruning(was.current, users, lports, reqs, lo, hi, grace, todo, current, unreq)
        invariant Exclusive(was) ==> Exclusive(State())
        decreases |todo|
      {
        var n :| n in todo;
        PruningStep(was.current, users, lports, reqs, lo, hi, grace, todo, current, unreq, n);
        todo := todo - {n};
        var gone := false;
        if n !in users {
          gone := !(grace && n in lports);
        } else if n !in reqs {
          gone := current[n].zone < lo || current[n].zone > hi;
          if !gone { unreq := unreq[n := current[n].zone]; }
        }
        if gone {
          ReachedSnoc(was, chs, State(), Remove(n));
          if Exclusive(was) { RemoveExclusive(State(), n); }
          chs := chs + [Remove(n)];
          var _ := RemoveZone(n);
        }
      }
      PruningDone(was.current, users, lports, reqs, lo, hi, grace, current, unreq);
    }

    /** Takes zone `z` away from whoever holds it without having asked for it. */
    method Evict(z: nat, unreq: map<Name, nat>) returns (left: map<Name, nat>, ghost chs: seq<Change>)
      requires Valid() && HeldBy(unreq, current)
      modifies this, bitmap
      ensures Valid() && Reached(old(State()), chs, State())
      ensures left == Without(unreq, z) && current == old(current) - Holders(unreq, z)
      ensures Bits() + {z} == old(Bits()) + {z}
    {
      hide Reached, ZoneRemove;
      ghost var was := State();
      var todo := unreq.Keys;
      left, chs := unreq, [];
      ReachedStart(was);
      while todo != {}
        invariant todo <= unreq.Keys && Valid() && Reached(was, chs, State())
        invariant forall n :: n in left <==> n in unreq && (n in todo || unreq[n] != z)
        invariant forall n :: n in left ==> left[n] == unreq[n]
        invariant forall n :: n in current <==> n in was.current && (n in unreq && n !in todo ==> unreq[n] != z)
        invariant forall n :: n in current ==> current[n] == was.current[n]
        invariant Bits() + {z} == was.bits + {z}
        decreases |todo|
      {
        var n :| n in todo;
        todo := todo - {n};
        if unreq[n] == z {
          ReachedSnoc(was, chs, State(), Remove(n));
          RemoveBits(State(), n);
          chs := chs + [Remove(n)];
          var _ := RemoveZone(n);
          left := left - {n};
        }
      }
    }

    /** Gives `r` the zone `z` it asks for, with a flush unless it has it already. */
    method HonourOne(r: Name, z: nat, unreq: map<Name, nat>, taken: set<nat>)
      returns (left: map<Name, nat>, taken': set<nat>, ghost chs: seq<Change>)
      requires Valid() && z <= MAX_CT_ZONES && HeldBy(unreq, current) && r !in unreq && taken == unreq.Values
      modifies this, bitmap
      ensures Valid() && Reached(old(State()), chs, State())
      ensures left == Without(unreq, z) && taken' == left.Values
      ensures Honoured(old(State()), State(), r, z, unreq)
    {
      hide Reached;
      ghost var was := State();
      left, taken', chs := unreq, taken, [];
      ReachedStart(was);
      assert z !in taken ==> Without(unreq, z) == unreq && Holders(unreq, z) == {};
      if z in taken {
        left, chs := Evict(z, unreq);
        taken' := taken - {z};
        assert taken' == left.Values by { WithoutValues(unreq, z); }
      }
      assert left == Without(unreq, z) && current == was.current - Holders(unreq, z);
      var has := r in current;
      if has && current[r].zone == z {
        ReachedSnoc(was, chs, State(), Confirm(r));
        chs := chs + [Confirm(r)];
        AddZone(r, z, false);
      } else {
        if has {
          ReachedSnoc(was, chs, State(), Remove(r));
          chs := chs + [Remove(r)];
          var _ := RemoveZone(r);
        }
        ReachedSnoc(was, chs, State(), Assign(r, z));
        chs := chs + [Assign(r, z)];
        AddZone(r, z, true);
      }
    }

    /** Second pass: every explicit request, in whatever order. */
    method Honour(reqs: map<Name, nat>, unreq0: map<Name, nat>) returns (ghost chs: seq<Change>, ghost order: seq<Name>)
      requires Valid() && HeldBy(unreq0, current) && unreq0.Keys !! reqs.Keys
      requires forall r :: r in reqs ==> reqs[r] <= MAX_CT_ZONES
      modifies this, bitmap
      ensures Valid() && Reached(old(State()), chs, State())
      ensures Order(order, reqs) && SameZones(HonourAll(old(State()), reqs, unreq0, order), State())
      ensures Satisfied(old(current), current, reqs, {})
      ensures old(Exclusive(State())) && Noted(old(current), reqs, unreq0) ==> OthersMarked(State(), reqs)
      ensures old(Exclusive(State())) && Noted(old(current), reqs, unreq0) && Compatible(reqs, old(current)) ==>
              Exclusive(State())
    {
      hide Reached, Exclusive, Honoured, Satisfied, OthersMarked, Compatible;
      hide Noted, HeldBy, Bits, Without, HonourAll, HonourCtx, StillUnrequested;
      ghost var was := State();
      ghost var ex := Exclusive(was) && Noted(was.current, reqs, unreq0);
      var todo := reqs.Keys;
      var unreq, taken := unreq0, unreq0.Values;
      chs, order := [], [];
      HonourNone(was, reqs, unreq0);
      ReachedStart(was);
      SatisfiedStart(was.current, reqs);
      if ex { ExclusiveMarks(was, reqs); }
      while todo != {}
        invariant todo <= reqs.Keys && Valid() && Reached(was, chs, State())
        invariant HeldBy(unreq, current) && unreq.Keys !! reqs.Keys && taken == unreq.Values
        invariant NoDup(order) && (forall x :: x in order <==> x in reqs && x !in todo)
        invariant SameZones(HonourAll(was, reqs, unreq0, order), State())
        invariant unreq == StillUnrequested(reqs, unreq0, order)
        invariant Satisfied(was.current, current, reqs, todo)
        invariant ex ==> Noted(current, reqs, unreq) && OthersMarked(State(), reqs)
        invariant ex && Compatible(reqs, was.current) ==> Exclusive(State())
        decreases |todo|
      {
        var r :| r in todo;
        ghost var before := State();
        ghost var new_;
        var left;
        left, taken, new_ := HonourOne(r, reqs[r], unreq, taken);
        ReachedConcat(was, chs, before, new_, State());
        HonourStep(was, before, State(), reqs, todo, r, unreq, ex);
        HonourSnoc(was, reqs, unreq0, order, r);
        HonouredSame(HonourAll(was, reqs, unreq0, order), before, State(), r, reqs[r], unreq);
        NoDupAppend(order, r);
        order := order + [r];
        chs := chs + new_;
        unreq := left;
        todo := todo - {r};
      }
    }

    /** Third pass: a free zone for everyone still without one. */
    method Fill(users: set<Name>, lo: nat, hi: nat) returns (ghost chs: seq<Change>)
      requires Valid() && hi <= MAX_CT_ZONES
      modifies this, bitmap
      ensures Valid() && Reached(old(State()), chs, State())
      ensures Filled(old(State()), State(), users, lo, hi)
      ensures forall u :: u in users && u !in current ==> Full(Bits(), lo, hi)
      ensures lo >= 1 && old(Exclusive(State())) ==> Exclusive(State())
    {
      hide Reached, Exclusive, Bits, Filled;
      ghost var was := State();
      var todo := users;
      var start := lo;
      chs := [];
      ReachedStart(was);
      FilledStart(was, users, lo, hi);
      while todo != {}
        invariant todo <= users && Valid() && Reached(was, chs, State()) && lo <= start
        invariant Filled(was, State(), users, lo, hi)
        invariant forall z :: lo <= z < start ==> z in Bits()
        invariant forall u :: u in users && u !in todo && u !in current ==> Full(Bits(), lo, hi)
        invariant lo >= 1 && Exclusive(was) ==> Exclusive(State())
        decreases |todo|
      {
        var u :| u in todo;
        todo := todo - {u};
        if u !in current {
          ghost var before := State();
          var ok;
          ok, start := AssignUnused(u, start, hi);
          if ok {
            ReachedSnoc(was, chs, before, Assign(u, start - 1));
            FilledStep(was, before, users, lo, hi, u, start - 1);
            if lo >= 1 && Exclusive(was) { AssignExclusive(before, u, start - 1); }
            chs := chs + [Assign(u, start - 1)];
          }
        }
      }
    }

    /** The whole update.  With the startup grace over and from a consistent start,
        every request is met and every other user gets a zone of its own while
        there are any; and if the requests are compatible no zone is shared. */
    method Update(users: set<Name>, lports: set<Name>, reqs: map<Name, nat>, lo: nat, hi: nat, grace: bool)
      returns (ghost chs: seq<Change>, ghost order: seq<Name>)
      requires Valid() && 1 <= lo && hi <= MAX_CT_ZONES && reqs.Keys <= users
      requires forall r :: r in reqs ==> reqs[r] <= MAX_CT_ZONES
      modifies this, bitmap
      ensures Valid() && Reached(old(State()), chs, State())
      ensures !grace && old(Exclusive(State())) ==> Outcome(old(State()), users, lports, reqs, lo, hi, order, State())
      ensures !grace && old(Exclusive(State())) ==> Allocated(State(), users, reqs, lo, hi)
      ensures !grace && old(Exclusive(State())) && Compatible(reqs, old(current)) ==> Exclusive(State())
      ensures Undisturbed(old(current), current, users, lports, reqs, lo, hi, grace)
    {
      hide Reached, Exclusive, Compatible, Satisfied, Filled, OthersMarked, Noted, Undisturbed;
      hide Allocated, HeldBy, Bits, Pruned, Unrequested, Outcome, HonourAll;
      ghost var was := State();
      var unreq;
      ghost var chs1, chs2, chs3;
      unreq, chs1 := Prune(users, lports, reqs, lo, hi, grace);
      ghost var c1 := State();
      PrunedFacts(was.current, users, lports, reqs, lo, hi, grace);
      chs2, order := Honour(reqs, unreq);
      ghost var c2 := State();
      chs3 := Fill(users, lo, hi);
      ReachedConcat(was, chs1, c1, chs2, c2);
      ReachedConcat(was, chs1 + chs2, c2, chs3, State());
      chs := chs1 + chs2 + chs3;
      UndisturbedAtLast(was, c1, c2, State(), users, lports, reqs, lo, hi, grace, unreq, order);
      if !grace && Exclusive(was) {
        AllocatedAtLast(c1, c2, State(), users, reqs, lo, hi);
        OutcomeIs(was, c1, c2, State(), users, lports, reqs, lo, hi, order);
      }
    }

    // ---------- The database ----------

    /** Writes every change that has reached the database stage. */
    method Commit(db: Db) returns (db': Db)
      modifies this
      ensures db' == Written(db, old(pending)) && pending == MarkSent(old(pending)) && current == old(current)
    {
      hide Written, MarkSent, WrittenFor;
      ghost var was := pending;
      var p := pending;
      var todo := p.Keys;
      db' := db;
      WrittenStart(was, db);
      while todo != {}
        invariant todo <= was.Keys && WrittenFor(was, todo, p, db, db') && current == old(current)
        decreases |todo|
      {
        var n :| n in todo;
        WrittenStep(was, todo, p, db, db', n);
        todo := todo - {n};
        var e := p[n];
        if Due(e) {
          if e.add { db' := db'[n := e.z.zone]; } else { db' := db' - {n}; }
          p := p[n := e.(stage := DbSent)];
        }
      }
      WrittenAll(was, p, db, db');
      pending := p;
    }

    method ClearCommittedEntries()
      modifies this
      ensures pending == ClearCommitted(old(pending)) && current == old(current)
    {
      var todo := pending.Keys;
      while todo != {}
        invariant todo <= pending.Keys <= old(pending).Keys && current == old(current)
        invariant forall n :: n in old(pending) && n !in todo ==> (n in pending <==> !old(pending)[n].stage.DbSent?)
        invariant forall n :: n in pending ==> pending[n] == old(pending)[n]
        decreases |todo|
      {
        var n :| n in todo;
        todo := todo - {n};
        if pending[n].stage.DbSent? { pending := pending - {n}; }
      }
    }

    method ClearBitmap()
      requires Valid()
      modifies bitmap
      ensures Bits() == {0}
    {
      forall i | 0 <= i < bitmap.Length { bitmap[i] := false; }
      SetBit(0, true);
    }

    method PlaceOne(n: Name, z: nat, ghost placed: map<Name, Zone>, ghost cur: map<Name, Zone>)
      requires Valid() && z <= MAX_CT_ZONES && n !in placed && current == cur + placed && Bits() == {0} + Zones(placed)
      modifies this, bitmap
      ensures Valid() && pending == old(pending)
      ensures var m := placed[n := Zone(z, NO_LIMIT)]; current == cur + m && Bits() == {0} + Zones(m)
    {
      ZonesGrow(placed, n, z);
      AddZone(n, z, false);
    }

    method PlaceLog(ghost cur: map<Name, Zone>, ghost db: Db) returns (ghost placed: map<Name, Zone>)
      requires Valid() && (forall n :: n in pending ==> pending[n].z.zone <= MAX_CT_ZONES) && current == cur
      requires Bits() == {0}
      modifies this, bitmap
      ensures Valid() && pending == old(pending)
      ensures Placed(placed, pending, db, pending.Keys, {}) && current == cur + placed && Bits() == {0} + Zones(placed)
    {
      hide Bits, Zones, Placed;
      ghost var p := pending;
      placed := map[];
      NoZones();
      PlacedStart(p, db);
      var todo := pending.Keys;
      while todo != {}
        invariant todo <= p.Keys && pending == p && Valid()
        invariant Placed(placed, p, db, p.Keys - todo, {}) && current == cur + placed && Bits() == {0} + Zones(placed)
        decreases |todo|
      {
        var n :| n in todo;
        PlacedFromLog(placed, p, db, todo, n);
        todo := todo - {n};
        if pending[n].add {
          PlaceOne(n, pending[n].z.zone, placed, cur);
          placed := placed[n := Zone(p[n].z.zone, NO_LIMIT)];
        }
      }
      assert p.Keys - {} == p.Keys;
    }

    method PlaceDb(db: Db, ghost cur: map<Name, Zone>, ghost placed0: map<Name, Zone>)
      returns (ghost placed: map<Name, Zone>)
      requires Valid() && Placed(placed0, pending, db, pending.Keys, {})
      requires current == cur + placed0 && Bits() == {0} + Zones(placed0)
      modifies this, bitmap
      ensures Valid() && pending == old(pending)
      ensures Placed(placed, pending, db, pending.Keys, db.Keys) && current == cur + placed
      ensures Bits() == {0} + Zones(placed)
    {
      hide Bits, Zones, Placed;
      ghost var p := pending;
      placed := placed0;
      assert db.Keys - db.Keys == {};
      var todo := db.Keys;
      while todo != {}
        invariant todo <= db.Keys && pending == p && Valid()
        invariant Placed(placed, p, db, p.Keys, db.Keys - todo) && current == cur + placed
        invariant Bits() == {0} + Zones(placed)
        decreases |todo|
      {
        var n :| n in todo;
        PlacedFromDb(placed, p, db, todo, n);
        todo := todo - {n};
        if n !in pending {
          PlaceOne(n, db[n] % (MAX_CT_ZONES + 1), placed, cur);
          placed := placed[n := Zone(db[n] % (MAX_CT_ZONES + 1), NO_LIMIT)];
        }
      }
      assert db.Keys - {} == db.Keys;
    }

    /** Clears the bitmap, then puts in place the pending additions and what the
        database has for names with nothing pending. */
    method RestoreZones(db: Db)
      requires Valid() && forall n :: n in pending ==> pending[n].z.zone <= MAX_CT_ZONES
      modifies this, bitmap
      ensures Valid() && pending == old(pending)
      ensures current == Restore(old(State()), db).current && Bits() == Restore(old(State()), db).bits
    {
      hide Bits, Zones, Placed, Restored;
      ghost var p, cur := pending, current;
      ClearBitmap();
      ghost var placed := PlaceLog(cur, db);
      placed := PlaceDb(db, cur, placed);
      PlacedAll(placed, p, db);
    }
  }

  lemma PlacedAll(m: map<Name, Zone>, p: map<Name, Pending>, db: Db)
    requires Placed(m, p, db, p.Keys, db.Keys)
    ensures m == Restored(p, db)
    ensures Zones(m) == set n | n in Restored(p, db) :: Restored(p, db)[n].zone
  {
    assert m == Restored(p, db);
  }

  /** A transaction that has come to all names but those in `todo`. */
  ghost predicate WrittenFor(was: map<Name, Pending>, todo: set<Name>, p: map<Name, Pending>, db: Db, db': Db) {
    && p.Keys == was.Keys
    && (forall n :: n in was ==> p[n] == if n !in todo && Due(was[n]) then was[n].(stage := DbSent) else was[n])
    && (forall n :: n in was && n !in todo && Due(was[n]) ==>
          (n in db' <==> was[n].add) && (n in db' ==> db'[n] == was[n].z.zone))
    && (forall n :: !(n in was && n !in todo && Due(was[n])) ==>
          (n in db' <==> n in db) && (n in db' ==> db'[n] == db[n]))
  }

  lemma WrittenStart(was: map<Name, Pending>, db: Db)
    ensures WrittenFor(was, was.Keys, was, db, db)
  {
  }

  lemma WrittenStep(was: map<Name, Pending>, todo: set<Name>, p: map<Name, Pending>, db: Db, db': Db, n: Name)
    requires WrittenFor(was, todo, p, db, db') && n in todo && n in was
    ensures n in p && p[n] == was[n]
    ensures Due(p[n]) ==>
              WrittenFor(was, todo - {n}, p[n := p[n].(stage := DbSent)], db,
                         if p[n].add then db'[n := p[n].z.zone] else db' - {n})
    ensures !Due(p[n]) ==> WrittenFor(was, todo - {n}, p, db, db')
  {
  }

  lemma WrittenAll(was: map<Name, Pending>, p: map<Name, Pending>, db: Db, db': Db)
    requires WrittenFor(was, {}, p, db, db')
    ensures db' == Written(db, was) && p == MarkSent(was)
  {
  }

  lemma NoZones()
    ensures Zones(map[]) == {}
  {
  }

  /** The part of the restored zones that comes from these names. */
  ghost predicate Placed(m: map<Name, Zone>, p: map<Name, Pending>, db: Db, fromLog: set<Name>, fromDb: set<Name>) {
    && (forall n :: n in m <==> (n in fromLog && n in p && p[n].add) || (n in fromDb && n in db && n !in p))
    && (forall n :: n in m ==>
          m[n] == Zone(if n in p then p[n].z.zone else if n in db then db[n] % (MAX_CT_ZONES + 1) else 0, NO_LIMIT))
  }

  lemma PlacedStart(p: map<Name, Pending>, db: Db)
    ensures Placed(map[], p, db, p.Keys - p.Keys, {})
  {
  }

  lemma PlacedFromLog(m: map<Name, Zone>, p: map<Name, Pending>, db: Db, todo: set<Name>, n: Name)
    requires Placed(m, p, db, p.Keys - todo, {}) && n in todo && n in p
    ensures n !in m
    ensures Placed(if p[n].add then m[n := Zone(p[n].z.zone, NO_LIMIT)] else m, p, db, p.Keys - (todo - {n}), {})
  {
  }

  lemma PlacedFromDb(m: map<Name, Zone>, p: map<Name, Pending>, db: Db, todo: set<Name>, n: Name)
    requires Placed(m, p, db, p.Keys, db.Keys - todo) && n in todo && n in db
    ensures n !in p ==> n !in m
    ensures Placed(if n !in p then m[n := Zone(db[n] % (MAX_CT_ZONES + 1), NO_LIMIT)] else m,
                   p, db, p.Keys, db.Keys - (todo - {n}))
  {
  }

  lemma ZonesGrow(m: map<Name, Zone>, n: Name, z: nat)
    requires n !in m
    ensures Zones(m[n := Zone(z, NO_LIMIT)]) == Zones(m) + {z}
  {
    var m' := m[n := Zone(z, NO_LIMIT)];
    forall y | y in Zones(m) ensures y in Zones(m') {
      var k :| k in m && m[k].zone == y;
      assert k in m' && m'[k].zone == y;
    }
    assert n in m';
  }


  /** Only newcomers' zones have their bits set. */
  ghost predicate BitsGrown(was: Ctx, c: Ctx) {
    forall z :: z in c.bits && z !in was.bits ==>
        exists n :: n in c.current && n !in was.current && c.current[n].zone == z
  }

  lemma BitsGrownStep(was: Ctx, c: Ctx, u: Name, z: nat)
    requires BitsGrown(was, c) && u !in c.current && u !in was.current
    ensures BitsGrown(was, ZoneAdd(c, u, z, true))
  {
    hide AddPending;
    var c' := ZoneAdd(c, u, z, true);
    forall y | y in c'.bits && y !in was.bits
      ensures exists n :: n in c'.current && n !in was.current && c'.current[n].zone == y
    {
      if y == z {
        assert u in c'.current && c'.current[u].zone == z;
      } else {
        var n :| n in c.current && n !in was.current && c.current[n].zone == y;
        assert n in c'.current;
      }
    }
  }

  /** The third pass only adds: free zones in range, each to one newcomer. */
  ghost predicate Filled(was: Ctx, c: Ctx, users: set<Name>, lo: nat, hi: nat) {
    && was.bits <= c.bits
    && BitsGrown(was, c)
    && (forall n :: n in was.current ==> n in c.current && c.current[n] == was.current[n])
    && (forall n :: n in c.current && n !in was.current ==>
          n in users && lo <= c.current[n].zone <= hi && c.current[n].zone !in was.bits && c.current[n].zone in c.bits)
    && (forall a, b :: a in c.current && b in c.current && a != b && a !in was.current && b !in was.current
          ==> c.current[a].zone != c.current[b].zone)
  }

  lemma FilledStart(c: Ctx, users: set<Name>, lo: nat, hi: nat)
    ensures Filled(c, c, users, lo, hi)
  {
  }

  lemma FilledStep(was: Ctx, c: Ctx, users: set<Name>, lo: nat, hi: nat, u: Name, z: nat)
    requires Filled(was, c, users, lo, hi) && u in users && u !in c.current && lo <= z <= hi && z !in c.bits
    ensures Filled(was, ZoneAdd(c, u, z, true), users, lo, hi)
  {
    hide AddPending, BitsGrown;
    BitsGrownStep(was, c, u, z);
  }

  /** The fill keeps zones exclusive. */
  lemma FilledExclusive(was: Ctx, c: Ctx, users: set<Name>, lo: nat, hi: nat)
    requires Filled(was, c, users, lo, hi) && Exclusive(was) && 1 <= lo && hi <= MAX_CT_ZONES
    ensures Exclusive(c)
  {
    FilledInjective(was, c, users, lo, hi);
    FilledBits(was, c, users, lo, hi);
  }

  lemma FilledInjective(was: Ctx, c: Ctx, users: set<Name>, lo: nat, hi: nat)
    requires Filled(was, c, users, lo, hi) && Exclusive(was)
    ensures Injective(c.current)
  {
    assert forall n :: n in was.current ==> was.current[n].zone in was.bits by {
      assert forall n :: n in was.current ==> was.current[n].zone in Zones(was.current);
    }
  }

  lemma FilledBits(was: Ctx, c: Ctx, users: set<Name>, lo: nat, hi: nat)
    requires Filled(was, c, users, lo, hi) && Exclusive(was)
    ensures c.bits == {0} + Zones(c.current)
  {
    forall z ensures z in c.bits <==> z in {0} + Zones(c.current) {
      if z in was.bits && z != 0 {
        var n :| n in was.current && was.current[n].zone == z;
        assert n in c.current && c.current[n].zone == z;
      }
      if z in Zones(c.current) {
        var n :| n in c.current && c.current[n].zone == z;
        if n in was.current { assert z in Zones(was.current); }
      }
    }
  }

  /** The first pass has come to all names but those in `todo`. */
  ghost predicate Pruning(was: map<Name, Zone>, users: set<Name>, lports: set<Name>, reqs: map<Name, nat>, lo: nat,
                          hi: nat, grace: bool,
                          todo: set<Name>, cur: map<Name, Zone>, unreq: map<Name, nat>) {
    && cur.Keys <= was.Keys
    && (forall n :: n in was && n !in todo ==>
          (n in cur <==> Stays(n, was[n].zone, users, lports, reqs, lo, hi, grace)))
    && (forall n :: n in was && n in todo ==> n in cur)
    && (forall n :: n in cur ==> cur[n] == was[n])
    && (forall n :: n in unreq <==> n in cur && n !in todo && n in users && n !in reqs)
    && (forall n :: n in unreq ==> unreq[n] == cur[n].zone)
  }

  lemma PruningStart(was: map<Name, Zone>, users: set<Name>, lports: set<Name>, reqs: map<Name, nat>, lo: nat, hi: nat,
                     grace: bool)
    ensures Pruning(was, users, lports, reqs, lo, hi, grace, was.Keys, was, map[])
  {
  }

  lemma PruningStep(was: map<Name, Zone>, users: set<Name>, lports: set<Name>, reqs: map<Name, nat>, lo: nat, hi: nat,
                    grace: bool,
                    todo: set<Name>, cur: map<Name, Zone>, unreq: map<Name, nat>, n: Name)
    requires Pruning(was, users, lports, reqs, lo, hi, grace, todo, cur, unreq) && n in todo && n in cur
    ensures var held := n in users && n !in reqs && lo <= cur[n].zone <= hi;
            var gone := if n !in users then !(grace && n in lports) else n !in reqs && !(lo <= cur[n].zone <= hi);
            Pruning(was, users, lports, reqs, lo, hi, grace, todo - {n},
                    if gone then cur - {n} else cur, if held then unreq[n := cur[n].zone] else unreq)
  {
  }

  lemma PruningDone(was: map<Name, Zone>, users: set<Name>, lports: set<Name>, reqs: map<Name, nat>, lo: nat, hi: nat,
                    grace: bool,
                    cur: map<Name, Zone>, unreq: map<Name, nat>)
    requires Pruning(was, users, lports, reqs, lo, hi, grace, {}, cur, unreq)
    ensures cur == Pruned(was, users, lports, reqs, lo, hi, grace) && unreq == Unrequested(cur, users, reqs)
  {
  }

  lemma PrunedFacts(m: map<Name, Zone>, users: set<Name>, lports: set<Name>, reqs: map<Name, nat>, lo: nat, hi: nat,
                    grace: bool)
    ensures var p := Pruned(m, users, lports, reqs, lo, hi, grace);
            var unreq := Unrequested(p, users, reqs);
            && HeldBy(unreq, p) && unreq.Keys !! reqs.Keys
            && (!grace ==> p.Keys <= users && Noted(p, reqs, unreq))
            && (!grace ==> forall n :: n in p && n !in reqs ==> lo <= p[n].zone <= hi)
            && (Compatible(reqs, m) ==> Compatible(reqs, p))
            && (reqs.Keys <= users && Compatible(reqs, p) ==> Compatible(reqs, m))
  {
  }

  lemma AllocatedAtLast(c1: Ctx, c2: Ctx, c: Ctx, users: set<Name>, reqs: map<Name, nat>, lo: nat, hi: nat)
    requires Exclusive(c1) && c1.current.Keys <= users && reqs.Keys <= users
    requires forall n :: n in c1.current && n !in reqs ==> lo <= c1.current[n].zone <= hi
    requires Satisfied(c1.current, c2.current, reqs, {}) && OthersMarked(c2, reqs)
    requires Filled(c2, c, users, lo, hi)
    requires forall u :: u in users && u !in c.current ==> Full(c.bits, lo, hi)
    ensures Allocated(c, users, reqs, lo, hi)
  {
    forall a, b | a in c.current && b in c.current && a != b && a !in reqs && b !in reqs
      ensures c.current[a].zone != c.current[b].zone
    {
      if a in c2.current && b in c2.current {
        assert a in c1.current && b in c1.current;
      }
    }
  }


  /** After honouring all requests but those in `todo`: those honoured have their
      zone, nobody else has a zone it did not have. */
  ghost predicate Satisfied(was: map<Name, Zone>, cur: map<Name, Zone>, reqs: map<Name, nat>, todo: set<Name>) {
    && (forall r :: r in reqs && r !in todo ==> r in cur && cur[r].zone == reqs[r])
    && (forall r :: r in todo ==> (r in cur <==> r in was))
    && (forall n :: n in cur && (n !in reqs || n in todo) ==> n in was && cur[n] == was[n])
  }

  lemma SatisfiedStart(was: map<Name, Zone>, reqs: map<Name, nat>)
    ensures Satisfied(was, was, reqs, reqs.Keys)
  {
  }

  /** All who hold a zone without having requested one are in `unreq`. */
  ghost predicate Noted(cur: map<Name, Zone>, reqs: map<Name, nat>, unreq: map<Name, nat>) {
    forall n :: n in cur && n !in reqs ==> n in unreq
  }

  ghost predicate OthersMarked(c: Ctx, reqs: map<Name, nat>) {
    forall n :: n in c.current && n !in reqs ==> c.current[n].zone in c.bits
  }

  lemma ExclusiveMarks(c: Ctx, reqs: map<Name, nat>)
    requires Exclusive(c)
    ensures OthersMarked(c, reqs)
  {
    forall n | n in c.current ensures c.current[n].zone in Zones(c.current) {}
  }

  lemma HonourStep(was: Ctx, c: Ctx, c': Ctx, reqs: map<Name, nat>, todo: set<Name>, r: Name, unreq: map<Name, nat>,
                   ex: bool)
    requires r in todo && todo <= reqs.Keys && Honoured(c, c', r, reqs[r], unreq)
    requires HeldBy(unreq, c.current) && unreq.Keys !! reqs.Keys && Satisfied(was.current, c.current, reqs, todo)
    requires ex ==> Exclusive(was) && Noted(c.current, reqs, unreq) && OthersMarked(c, reqs)
    requires ex && Compatible(reqs, was.current) ==> Exclusive(c)
    ensures var left := Without(unreq, reqs[r]);
            && HeldBy(left, c'.current) && left.Keys !! reqs.Keys
            && Satisfied(was.current, c'.current, reqs, todo - {r})
            && (ex ==> Noted(c'.current, reqs, left) && OthersMarked(c', reqs))
            && (ex && Compatible(reqs, was.current) ==> Exclusive(c'))
  {
    var z := reqs[r];
    var left := Without(unreq, z);
    forall n | n in c'.current && n != r
      ensures n in c.current && c'.current[n] == c.current[n] && n !in Holders(unreq, z)
    {
    }
    assert forall n :: n in left ==> n !in Holders(unreq, z);
    if ex {
      forall n | n in c'.current && n !in reqs ensures n in left && c'.current[n].zone in c'.bits {
        assert n in unreq && n in was.current && c.current[n] == was.current[n];
      }
      if Compatible(reqs, was.current) {
        forall n | n in c.current && n != r && c.current[n].zone == z ensures n in unreq {
        }
        HonourExclusive(c, c', r, z, unreq);
      }
    }
  }


  lemma WithoutValues(unreq: map<Name, nat>, z: nat)
    ensures Without(unreq, z).Values == unreq.Values - {z}
  {
    forall y | y in unreq.Values - {z} ensures y in Without(unreq, z).Values {
      var n :| n in unreq && unreq[n] == y;
      assert n in Without(unreq, z);
    }
  }

  /** What honouring one request does to the zones and the bitmap. */
  ghost predicate Honoured(c: Ctx, c': Ctx, r: Name, z: nat, unreq: map<Name, nat>) {
    && c'.current == (c.current - Holders(unreq, z))[r := Zone(z, NO_LIMIT)]
    && c'.bits == (if r in c.current && c.current[r].zone != z then c.bits - {c.current[r].zone} else c.bits) + {z}
  }

  /** One request honoured, as far as zones and bitmap go. */
  ghost function HonourCtx(c: Ctx, r: Name, z: nat, unreq: map<Name, nat>): Ctx {
    c.(current := (c.current - Holders(unreq, z))[r := Zone(z, NO_LIMIT)],
       bits := (if r in c.current && c.current[r].zone != z then c.bits - {c.current[r].zone} else c.bits) + {z})
  }

  ghost function HonourAll(c: Ctx, reqs: map<Name, nat>, unreq: map<Name, nat>, order: seq<Name>): Ctx
    requires forall r :: r in order ==> r in reqs
    decreases |order|
  {
    if order == [] then c
    else
      var z := reqs[order[0]];
      HonourAll(HonourCtx(c, order[0], z, unreq), reqs, Without(unreq, z), order[1..])
  }

  ghost predicate Order(order: seq<Name>, reqs: map<Name, nat>) {
    NoDup(order) && forall r :: r in order <==> r in reqs
  }

  /** Who still holds an unrequested zone after those requests. */
  ghost function StillUnrequested(reqs: map<Name, nat>, unreq: map<Name, nat>, order: seq<Name>): map<Name, nat>
    requires forall r :: r in order ==> r in reqs
    decreases |order|
  {
    if order == [] then unreq else StillUnrequested(reqs, Without(unreq, reqs[order[0]]), order[1..])
  }

  lemma {:induction false} HonourSnoc(c: Ctx, reqs: map<Name, nat>, unreq: map<Name, nat>, order: seq<Name>, r: Name)
    requires (forall x :: x in order ==> x in reqs) && r in reqs
    ensures var left := StillUnrequested(reqs, unreq, order);
            && HonourAll(c, reqs, unreq, order + [r]) == HonourCtx(HonourAll(c, reqs, unreq, order), r, reqs[r], left)
            && StillUnrequested(reqs, unreq, order + [r]) == Without(left, reqs[r])
    decreases |order|
  {
    hide HonourCtx, Without;
    if order == [] {
      assert order + [r] == [r] && [r][1..] == [];
      var c' := HonourCtx(c, r, reqs[r], unreq);
      assert HonourAll(c', reqs, Without(unreq, reqs[r]), []) == c';
      assert StillUnrequested(reqs, Without(unreq, reqs[r]), []) == Without(unreq, reqs[r]);
    } else {
      var z := reqs[order[0]];
      assert (order + [r])[0] == order[0] && (order + [r])[1..] == order[1..] + [r];
      HonourSnoc(HonourCtx(c, order[0], z, unreq), reqs, Without(unreq, z), order[1..], r);
    }
  }

  lemma HonourNone(c: Ctx, reqs: map<Name, nat>, unreq: map<Name, nat>)
    ensures HonourAll(c, reqs, unreq, []) == c && StillUnrequested(reqs, unreq, []) == unreq
  {
  }

  lemma HonouredSame(d: Ctx, c: Ctx, c': Ctx, r: Name, z: nat, unreq: map<Name, nat>)
    requires SameZones(d, c) && Honoured(c, c', r, z, unreq)
    ensures SameZones(HonourCtx(d, r, z, unreq), c')
  {
  }

  /** Equal but for the log. */
  ghost predicate SameZones(c: Ctx, d: Ctx) { c.(pending := d.pending) == d }

  lemma HonourExclusive(c: Ctx, c': Ctx, r: Name, z: nat, unreq: map<Name, nat>)
    requires Exclusive(c) && Honoured(c, c', r, z, unreq) && HeldBy(unreq, c.current) && 1 <= z <= MAX_CT_ZONES
    requires forall n :: n in c.current && n != r && c.current[n].zone == z ==> n in unreq
    ensures Exclusive(c')
  {
    forall n | n in c'.current && n != r
      ensures n in c.current && c'.current[n] == c.current[n] && c'.current[n].zone != z
    {
      assert n !in Holders(unreq, z);
    }
    forall y ensures y in c'.bits <==> y in {0} + Zones(c'.current) {
      if y in c'.bits && y != z && y != 0 {
        var n :| n in c.current && c.current[n].zone == y;
        assert n in c'.current;
      }
      if y in Zones(c'.current) && y != z {
        var n :| n in c'.current && c'.current[n].zone == y;
        assert n != r && c.current[n].zone in Zones(c.current);
      }
      if y == z { assert c'.current[r].zone == z; }
    }
  }


  lemma RemoveBits(c: Ctx, n: Name)
    requires n in c.current
    ensures ZoneRemove(c, n).bits == c.bits - {c.current[n].zone}
  {
  }

  ghost predicate HeldBy(unreq: map<Name, nat>, cur: map<Name, Zone>) {
    forall n :: n in unreq ==> n in cur && cur[n].zone == unreq[n]
  }

  ghost function Holders(unreq: map<Name, nat>, z: nat): set<Name> { set n | n in unreq && unreq[n] == z }

  ghost function Without(unreq: map<Name, nat>, z: nat): map<Name, nat> {
    map n | n in unreq && unreq[n] != z :: unreq[n]
  }


  /** Whether the first pass leaves a user its zone. */
  predicate Stays(n: Name, zone: nat, users: set<Name>, lports: set<Name>, reqs: map<Name, nat>, lo: nat, hi: nat,
                  grace: bool) {
    if n !in users then grace && n in lports else n in reqs || lo <= zone <= hi
  }

  ghost function Pruned(m: map<Name, Zone>, users: set<Name>, lports: set<Name>, reqs: map<Name, nat>, lo: nat,
                        hi: nat, grace: bool)
    : map<Name, Zone>
  {
    map n | n in m && Stays(n, m[n].zone, users, lports, reqs, lo, hi, grace) :: m[n]
  }

  /** The zones after the first pass, once the startup grace is over. */
  ghost function PrunedCtx(c: Ctx, users: set<Name>, lports: set<Name>, reqs: map<Name, nat>, lo: nat, hi: nat): Ctx {
    var p := Pruned(c.current, users, lports, reqs, lo, hi, false);
    Ctx({0} + Zones(p), map[], p)
  }

  /** The zones after the second pass, if it walks the requests in this order. */
  ghost function HonouredCtx(c: Ctx, users: set<Name>, lports: set<Name>, reqs: map<Name, nat>, lo: nat, hi: nat,
                             order: seq<Name>): Ctx
    requires Order(order, reqs)
  {
    var c1 := PrunedCtx(c, users, lports, reqs, lo, hi);
    HonourAll(c1, reqs, Unrequested(c1.current, users, reqs), order)
  }

  /** What the three passes may leave, after this order. */
  ghost predicate Outcome(was: Ctx, users: set<Name>, lports: set<Name>, reqs: map<Name, nat>, lo: nat, hi: nat,
                          order: seq<Name>, c: Ctx) {
    Order(order, reqs) && Filled(HonouredCtx(was, users, lports, reqs, lo, hi, order), c, users, lo, hi)
  }

  /** Who is not asked to give its zone up, and asks for none, keeps it; and nobody
      gets one that asked for none. */
  lemma {:induction false} HonourAllKeeps(c: Ctx, reqs: map<Name, nat>, unreq: map<Name, nat>, order: seq<Name>,
                                          n: Name)
    requires (forall r :: r in order ==> r in reqs) && n !in reqs
    ensures var e := HonourAll(c, reqs, unreq, order).current;
            && (n in e ==> n in c.current)
            && (n in c.current && (n !in unreq || unreq[n] !in reqs.Values) ==> n in e && e[n] == c.current[n])
    decreases |order|
  {
    if order != [] {
      assert order[0] in order;
      var z := reqs[order[0]];
      assert z in reqs.Values;
      HonourAllKeeps(HonourCtx(c, order[0], z, unreq), reqs, Without(unreq, z), order[1..], n);
    }
  }

  lemma UndisturbedAtLast(was: Ctx, c1: Ctx, c2: Ctx, c: Ctx, users: set<Name>, lports: set<Name>,
                          reqs: map<Name, nat>, lo: nat, hi: nat, grace: bool, unreq: map<Name, nat>, order: seq<Name>)
    requires c1.current == Pruned(was.current, users, lports, reqs, lo, hi, grace) && reqs.Keys <= users
    requires unreq == Unrequested(c1.current, users, reqs)
    requires Order(order, reqs) && SameZones(HonourAll(c1, reqs, unreq, order), c2) && Filled(c2, c, users, lo, hi)
    ensures Undisturbed(was.current, c.current, users, lports, reqs, lo, hi, grace)
  {
    hide HonourAll;
    forall n | n in was.current && n !in reqs
      ensures n in c2.current ==> n in c1.current
      ensures n in c1.current && (n !in unreq || unreq[n] !in reqs.Values) ==>
              n in c2.current && c2.current[n] == c1.current[n]
    {
      HonourAllKeeps(c1, reqs, unreq, order, n);
    }
  }

  lemma {:induction false} HonourAllSame(c: Ctx, d: Ctx, reqs: map<Name, nat>, unreq: map<Name, nat>, order: seq<Name>)
    requires SameZones(c, d) && forall r :: r in order ==> r in reqs
    ensures SameZones(HonourAll(c, reqs, unreq, order), HonourAll(d, reqs, unreq, order))
    decreases |order|
  {
    if order != [] {
      var z := reqs[order[0]];
      assert order[0] in order;
      HonourAllSame(HonourCtx(c, order[0], z, unreq), HonourCtx(d, order[0], z, unreq), reqs,
                    Without(unreq, z), order[1..]);
    }
  }

  lemma FilledSame(was: Ctx, d: Ctx, c: Ctx, users: set<Name>, lo: nat, hi: nat)
    requires SameZones(was, d) && Filled(d, c, users, lo, hi)
    ensures Filled(was, c, users, lo, hi)
  {
  }

  /** The context after the first pass is the specified one, but for the log. */
  lemma OutcomeIs(was: Ctx, c1: Ctx, c2: Ctx, c: Ctx, users: set<Name>, lports: set<Name>, reqs: map<Name, nat>,
                  lo: nat, hi: nat, order: seq<Name>)
    requires Exclusive(c1) && c1.current == Pruned(was.current, users, lports, reqs, lo, hi, false)
    requires Order(order, reqs) && SameZones(HonourAll(c1, reqs, Unrequested(c1.current, users, reqs), order), c2)
    requires Filled(c2, c, users, lo, hi)
    ensures Outcome(was, users, lports, reqs, lo, hi, order, c)
  {
    hide Filled, HonourAll, Pruned, Unrequested;
    var d := PrunedCtx(was, users, lports, reqs, lo, hi);
    HonourAllSame(d, c1, reqs, Unrequested(c1.current, users, reqs), order);
    FilledSame(HonouredCtx(was, users, lports, reqs, lo, hi, order), c2, c, users, lo, hi);
  }

  ghost function Unrequested(m: map<Name, Zone>, users: set<Name>, reqs: map<Name, nat>): map<Name, nat> {
    map n | n in m && n in users && n !in reqs :: m[n].zone
  }
}
