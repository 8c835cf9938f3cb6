/** Conntrack zone assignment: the zones in use, the zone of each user, and the
    log of changes on their way to the switch and to the database. */
module CtZone {

  const MAX_CT_ZONES: nat := 65535
  const NO_LIMIT: int := -1

  type Name = string

  datatype Zone = Zone(zone: nat, limit: int)

  /** The stages a change goes through, in order. */
  datatype Stage = OfQueued | OfSent | DbQueued | DbSent

  function Rank(s: Stage): nat {
    match s
    case OfQueued => 0
    case OfSent => 1
    case DbQueued => 2
    case DbSent => 3
  }

  function MinStage(a: Stage, b: Stage): Stage { if Rank(a) <= Rank(b) then a else b }

  datatype Pending = Pending(z: Zone, add: bool, stage: Stage)

  /** `bits` is the bitmap of allocated zones. */
  datatype Ctx = Ctx(bits: set<nat>, pending: map<Name, Pending>, current: map<Name, Zone>)

  /** One entry per name; a new change never moves the entry forward. */
  function AddPending(p: map<Name, Pending>, stage: Stage, z: Zone, add: bool, name: Name): map<Name, Pending> {
    p[name := Pending(z, add, if name in p then MinStage(p[name].stage, stage) else stage)]
  }

  function ZoneAdd(c: Ctx, name: Name, zone: nat, setPending: bool): Ctx {
    var z := Zone(zone, NO_LIMIT);
    Ctx(c.bits + {zone},
        if setPending then AddPending(c.pending, OfQueued, z, true, name) else c.pending,
        c.current[name := z])
  }

  function ZoneRemove(c: Ctx, name: Name): Ctx {
    if name !in c.current then c
    else
      var z := c.current[name];
      Ctx(c.bits - {z.zone}, AddPending(c.pending, OfQueued, z, false, name), c.current - {name})
  }

  /** Sets a limit; the database has to learn it, the switch need not be flushed. */
  function LimitUpdate(c: Ctx, name: Name, limit: int): Ctx {
    if name !in c.current || c.current[name].limit == limit then c
    else
      var z := c.current[name].(limit := limit);
      c.(current := c.current[name := z], pending := AddPending(c.pending, DbQueued, z, true, name))
  }

  // ---------- The small steps everything is made of ----------

  datatype Change =
    | Remove(name: Name)
    | Assign(name: Name, zone: nat)
    | Confirm(name: Name)
    | Limit(name: Name, limit: int)

  /** `Confirm` sets anew, without a flush, the zone a user already has. */
  function Apply1(c: Ctx, ch: Change): Ctx {
    match ch
    case Remove(n) => ZoneRemove(c, n)
    case Assign(n, z) => ZoneAdd(c, n, z, true)
    case Confirm(n) => if n in c.current then ZoneAdd(c, n, c.current[n].zone, false) else c
    case Limit(n, l) => LimitUpdate(c, n, l)
  }

  function Apply(c: Ctx, chs: seq<Change>): Ctx
    decreases |chs|
  {
    if chs == [] then c else Apply(Apply1(c, chs[0]), chs[1..])
  }

  lemma {:induction false} ApplySnoc(c: Ctx, chs: seq<Change>, ch: Change)
    ensures Apply(c, chs + [ch]) == Apply1(Apply(c, chs), ch)
    decreases |chs|
  {
    if chs == [] {
      assert chs + [ch] == [ch] && [ch][1..] == [];
      assert Apply(Apply1(c, ch), []) == Apply1(c, ch);
    } else {
      assert (chs + [ch])[0] == chs[0] && (chs + [ch])[1..] == chs[1..] + [ch];
      ApplySnoc(Apply1(c, chs[0]), chs[1..], ch);
    }
  }

  lemma {:induction false} ApplyConcat(c: Ctx, a: seq<Change>, b: seq<Change>)
    ensures Apply(c, a + b) == Apply(Apply(c, a), b)
    decreases |a|
  {
    if a == [] {
      assert a + b == b;
    } else {
      assert (a + b)[1..] == a[1..] + b;
      ApplyConcat(Apply1(c, a[0]), a[1..], b);
    }
  }

  // ---------- The database ----------

  /** The `ct-zone-` entries of the bridge's external ids. */
  type Db = map<Name, nat>

  predicate Due(p: Pending) { p.stage.DbQueued? || p.stage.DbSent? }

  /** What a transaction writes: every change that has reached the database
      stage, whether or not it was sent before. */
  function Written(db: Db, p: map<Name, Pending>): Db {
    map n | n in db.Keys + p.Keys && (if n in p && Due(p[n]) then p[n].add else n in db)
      :: if n in p && Due(p[n]) then p[n].z.zone else db[n]
  }

  function MarkSent(p: map<Name, Pending>): map<Name, Pending> {
    map n | n in p :: if Due(p[n]) then p[n].(stage := DbSent) else p[n]
  }

  function ClearCommitted(p: map<Name, Pending>): map<Name, Pending> {
    map n | n in p && !p[n].stage.DbSent? :: p[n]
  }

  // ---------- Restore ----------

  /** The zones a restore puts in place: pending additions, and what the database
      has for names with nothing pending. */
  function Restored(p: map<Name, Pending>, db: Db): map<Name, Zone> {
    map n | n in p.Keys + db.Keys && (n in p ==> p[n].add)
      :: Zone(if n in p then p[n].z.zone else db[n] % (MAX_CT_ZONES + 1), NO_LIMIT)
  }

  function Restore(c: Ctx, db: Db): Ctx {
    var m := c.current + Restored(c.pending, db);
    Ctx({0} + set n | n in Restored(c.pending, db) :: Restored(c.pending, db)[n].zone, c.pending, m)
  }
}
