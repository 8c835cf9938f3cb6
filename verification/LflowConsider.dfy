/** Compilation of one logical flow through the cache (consider_logical_flow__ in
    ovn/controller/lflow.c).  The expression compiler is a record of functions
    that also say which resources they read, the encoding of the actions among them;
    rows and states of the world are known by numbers. */
module LflowConsider {
  import opened Common
  import opened LflowCache

  type Row = nat
  type Env = nat

  datatype Dep =
    | AddrSet(name: string)
    | PortGroup(name: string)
    | Template(name: string)
    | Port(name: string)
    | Multicast(name: string)

  datatype Actions = Actions(ok: bool, templates: set<string>)

  datatype Converted = Converted(expr: Option<Expr>, addrSets: set<string>, portGroups: set<string>,
                                 templates: set<string>)

  datatype Compiled = Compiled(matches: seq<ExprMatch>, nConjs: nat, deps: set<Dep>)

  datatype Compiler = Compiler(
    local: Env -> bool,
    ioPort: Row -> Option<string>,
    related: (Env, string) -> bool,
    actions: (Row, Env) -> Actions,
    convert: (Row, Env) -> Converted,
    toMatches: (Expr, Env) -> Compiled,
    encode: (Row, Env) -> set<Dep>,
    header: nat,
    exprSize: Expr -> nat,
    matchSize: seq<ExprMatch> -> nat)

  function Templates(ts: set<string>): set<Dep> {
    set t | t in ts :: Template(t)
  }

  function Referred(cv: Converted): set<Dep> {
    (set a | a in cv.addrSets :: AddrSet(a)) + (set g | g in cv.portGroups :: PortGroup(g))
  }

  /** What compiling reads is all that it depends on: a conversion that records
      nothing, for a row whose actions record nothing, gives the same anywhere,
      and so do matches that are made without reading anything. */
  ghost predicate ReadsRecorded(k: Compiler) {
    && (forall row, env, env' :: k.actions(row, env).templates == {} && Plain(k.convert(row, env)) ==>
          k.convert(row, env') == k.convert(row, env))
    && (forall expr, env, env' :: k.toMatches(expr, env).deps == {} ==>
          k.toMatches(expr, env') == k.toMatches(expr, env))
  }

  predicate Plain(cv: Converted) {
    cv.addrSets == {} && cv.portGroups == {} && cv.templates == {}
  }

  // ---- Conjunction ids ----

  function Shifted(m: ExprMatch, ofs: nat): ExprMatch {
    m.(conjId := if m.conjId.Some? then Some(m.conjId.value + ofs) else None,
       conjunctions := seq(|m.conjunctions|, i requires 0 <= i < |m.conjunctions| => m.conjunctions[i] + ofs))
  }

  /** The matches with their conjunction ids moved to where `start` says. */
  function Prepared(t: Compiled, start: nat): seq<ExprMatch> {
    if t.nConjs == 0 || start == 0 then t.matches
    else seq(|t.matches|, i requires 0 <= i < |t.matches| => Shifted(t.matches[i], start - 1))
  }

  // ---- Compilation without a cache ----

  /** `encoding` is read besides `deps` once the flow is installed. */
  datatype Outcome = Outcome(flow: Option<Compiled>, deps: set<Dep>, encoding: set<Dep>)

  datatype Prelude = Stop(deps: set<Dep>) | Go(deps: set<Dep>, templates: set<string>)

  /** What is checked before the cache is asked. */
  function Before(k: Compiler, row: Row, env: Env): Prelude {
    var io := if k.ioPort(row).Some? then {Port(k.ioPort(row).value)} else {};
    var acts := k.actions(row, env);
    if !k.local(env) then Stop({})
    else if k.ioPort(row).Some? && !k.related(env, k.ioPort(row).value) then Stop(io)
    else if !acts.ok then Stop(io + Templates(acts.templates))
    else Go(io, acts.templates)
  }

  /** The flow's matches and everything that was read to get them. */
  function Cold(k: Compiler, row: Row, env: Env): Outcome {
    match Before(k, row, env)
    case Stop(d) => Outcome(None, d, {})
    case Go(d, ts) =>
      var cv := k.convert(row, env);
      var read := d + Templates(ts + cv.templates) + Referred(cv);
      if cv.expr.None? then Outcome(None, read, {})
      else
        var t := k.toMatches(cv.expr.value, env);
        if t.matches == [] then Outcome(None, read + t.deps, {})
        else Outcome(Some(t), read + t.deps, k.encode(row, env))
  }

  // ---- Compilation through the cache ----

  /** What the run depends on besides its arguments: whether the cached conjunction
      ids can be had again, the first of the newly allocated ids (0: none left),
      and the entry found. */
  datatype Choices = Choices(specified: bool, alloc: nat, hit: Option<Entry>)

  /** The cache after the lookup, the entry then offered to it, the flow's matches
      and what was read. */
  datatype Result = Result(kept: Cache, offer: Option<Entry>, flows: Option<seq<ExprMatch>>, deps: set<Dep>)

  /** Cached matches whose conjunction ids are taken are dropped. */
  predicate Drops(h: Option<Entry>, specified: bool) {
    h.Some? && h.value.value.MatchesValue? && h.value.value.nConjs > 0 && !specified
  }

  function Usable(ch: Choices): Option<Entry> {
    if Drops(ch.hit, ch.specified) then None else ch.hit
  }

  function MatchesEntry(k: Compiler, uuid: nat, t: Compiled, start: nat): Entry {
    var ms := Prepared(t, start);
    Entry(uuid, k.header + (if t.nConjs > 0 then k.matchSize(ms) else 0),
          MatchesValue(ms, t.nConjs, if t.nConjs > 0 then start else 0))
  }

  function ExprEntry(k: Compiler, uuid: nat, e: Expr): Entry {
    Entry(uuid, k.header + k.exprSize(e), ExprValue(e))
  }

  /** What a compilation that missed the cache offers to it: matches if nothing has
      been recorded for the flow, else the expression if it is free of address
      sets, port groups and templates. */
  function Offer(k: Compiler, enabled: bool, uuid: nat, cv: Converted, t: Compiled, start: nat, templates: set<string>,
                 recorded: set<Dep>): Option<Entry>
    requires cv.expr.Some?
  {
    if !enabled || cv.addrSets != {} || cv.portGroups != {} || templates != {} then None
    else if recorded == {} then Some(MatchesEntry(k, uuid, t, start))
    else Some(ExprEntry(k, uuid, cv.expr.value))
  }

  /** Compilation of an expression, fresh or from the cache. */
  function Compile(k: Compiler, c: Cache, known: set<Dep>, uuid: nat, row: Row, env: Env, d: set<Dep>, ts: set<string>,
                   cv: Converted, missed: bool, alloc: nat): Result {
    var read := d + Templates(ts + cv.templates) + Referred(cv);
    if cv.expr.None? then Result(c, None, None, read)
    else
      var t := k.toMatches(cv.expr.value, env);
      if t.matches == [] || (t.nConjs > 0 && alloc == 0) then Result(c, None, None, read + t.deps)
      else
        var recorded := known + d + Referred(cv) + t.deps + k.encode(row, env);
        var offer := if missed then Offer(k, c.cfg.enabled, uuid, cv, t, alloc, ts + cv.templates, recorded) else None;
        Result(c, offer, Some(Prepared(t, alloc)), read + t.deps + k.encode(row, env))
  }

  /** `known` is what has been recorded for the flow before. */
  function Consider(k: Compiler, c: Cache, known: set<Dep>, uuid: nat, row: Row, env: Env, ch: Choices): Result {
    match Before(k, row, env)
    case Stop(d) => Result(c, None, None, d)
    case Go(d, ts) =>
      var h := Usable(ch);
      var c := if Drops(ch.hit, ch.specified) then Step(c, Deleting(uuid, ch.hit)) else c;
      if h.None? then Compile(k, c, known, uuid, row, env, d, ts, k.convert(row, env), true, ch.alloc)
      else if h.value.value.ExprValue? then
        Compile(k, c, known, uuid, row, env, d, ts, Converted(Some(h.value.value.expr), {}, {}, {}), false, ch.alloc)
      else Result(c, None, Some(h.value.value.matches), d + Templates(ts) + k.encode(row, env))
  }

  function CacheAfter(r: Result, victim: Entry): Cache {
    if r.offer.Some? then Add(r.kept, r.offer.value, victim) else r.kept
  }

  ghost predicate LegalVictim(r: Result, victim: Entry) {
    r.offer.Some? && Evicts(r.kept, r.offer.value) ==> victim in r.kept.exprs
  }

  // ---- Soundness of what is cached ----

  function All(c: Cache): multiset<Entry> {
    c.exprs + c.matches
  }

  /** At most one entry per flow. */
  ghost predicate Distinct(c: Cache) {
    && (forall e :: e in All(c) ==> All(c)[e] == 1)
    && (forall e, f :: e in All(c) && f in All(c) && e.uuid == f.uuid ==> e == f)
  }

  /** x is what the row's match converts to, anywhere, without reading anything. */
  ghost predicate ConvertsTo(k: Compiler, row: Row, x: Expr) {
    forall env :: k.convert(row, env) == Converted(Some(x), {}, {}, {})
  }

  ghost predicate CompilesTo(k: Compiler, x: Expr, t: Compiled) {
    t.deps == {} && t.matches != [] && forall env :: k.toMatches(x, env) == t
  }

  ghost predicate MatchesSound(k: Compiler, row: Row, v: Value, x: Expr, t: Compiled)
    requires v.MatchesValue?
  {
    && ConvertsTo(k, row, x) && CompilesTo(k, x, t)
    && t.nConjs == v.nConjs && v.matches == Prepared(t, v.conjIdOfs) && (t.nConjs > 0 ==> v.conjIdOfs > 0)
  }

  ghost predicate EntrySound(k: Compiler, row: Row, e: Entry) {
    match e.value
    case ExprValue(x) => ConvertsTo(k, row, x)
    case MatchesValue(_, _, _) => exists x, t :: MatchesSound(k, row, e.value, x, t)
  }

  ghost predicate Sound(k: Compiler, c: Cache, rows: map<nat, Row>) {
    Distinct(c) && forall e :: e in All(c) ==> e.uuid in rows && EntrySound(k, rows[e.uuid], e)
  }

  // ---- Transparency ----

  /** The start of the conjunction ids in what was produced. */
  function Start(ch: Choices): nat {
    var h := Usable(ch);
    if h.Some? && h.value.value.MatchesValue? then h.value.value.conjIdOfs else ch.alloc
  }

  /** The match with every conjunction id moved by so much, and nothing else. */
  ghost predicate MovedMatch(m: ExprMatch, was: ExprMatch, ofs: int) {
    && m.fields == was.fields
    && (m.conjId.Some? <==> was.conjId.Some?)
    && (m.conjId.Some? ==> m.conjId.value == was.conjId.value + ofs)
    && |m.conjunctions| == |was.conjunctions|
    && forall j :: 0 <= j < |m.conjunctions| ==> m.conjunctions[j] == was.conjunctions[j] + ofs
  }

  ghost predicate MovedBy(ms: seq<ExprMatch>, was: seq<ExprMatch>, ofs: int) {
    |ms| == |was| && forall i :: 0 <= i < |ms| ==> MovedMatch(ms[i], was[i], ofs)
  }

  /** Ids are counted from 1; there is nothing to move without conjunctions. */
  ghost function Offset(t: Compiled, start: nat): int { if t.nConjs == 0 then 0 else start - 1 }

  lemma PreparedMoves(t: Compiled, start: nat)
    requires t.nConjs > 0 ==> start > 0
    ensures MovedBy(Prepared(t, start), t.matches, Offset(t, start))
  {
  }

  /** The result is that of a cold compile, but for where the conjunction ids
      start; it fails to install the flow only if the cold compile does or there
      are no ids left.  The encoding is read exactly when the flow is installed. */
  ghost predicate LikeCold(k: Compiler, row: Row, env: Env, ch: Choices, r: Result) {
    var cold := Cold(k, row, env);
    && r.deps == cold.deps + (if r.flows.Some? then cold.encoding else {})
    && (r.flows.Some? ==>
          && cold.flow.Some? && (cold.flow.value.nConjs > 0 ==> Start(ch) > 0)
          && MovedBy(r.flows.value, cold.flow.value.matches, Offset(cold.flow.value, Start(ch))))
    && (r.flows.None? ==> cold.flow.None? || (cold.flow.value.nConjs > 0 && Start(ch) == 0))
  }

  lemma CompileCold(k: Compiler, c: Cache, known: set<Dep>, uuid: nat, row: Row, env: Env, d: set<Dep>,
                    ts: set<string>, cv: Converted, missed: bool, ch: Choices)
    requires Before(k, row, env) == Go(d, ts) && cv == k.convert(row, env)
    requires Start(ch) == ch.alloc
    ensures LikeCold(k, row, env, ch, Compile(k, c, known, uuid, row, env, d, ts, cv, missed, ch.alloc))
  {
    hide Before, Templates, Referred, Prepared, Offer, Start, MovedBy;
    if cv.expr.Some? {
      var t := k.toMatches(cv.expr.value, env);
      if t.nConjs == 0 || ch.alloc > 0 { PreparedMoves(t, ch.alloc); }
    }
  }

  lemma NothingRead(d: set<Dep>, ts: set<string>, x: Expr)
    ensures d + Templates(ts) == d + Templates(ts + {}) + Referred(Converted(Some(x), {}, {}, {}))
  {
    assert ts + {} == ts;
    assert Referred(Converted(Some(x), {}, {}, {})) == {};
  }

  /** Through a sound cache, a flow compiles to what it compiles to without one. */
  lemma Transparent(k: Compiler, c: Cache, rows: map<nat, Row>, known: set<Dep>, uuid: nat, env: Env, ch: Choices)
    requires Sound(k, c, rows) && uuid in rows && Found(c, uuid, ch.hit)
    ensures LikeCold(k, rows[uuid], env, ch, Consider(k, c, known, uuid, rows[uuid], env, ch))
  {
    hide Distinct, Compile, LikeCold, Prepared, Templates, Referred;
    var row := rows[uuid];
    match Before(k, row, env)
    case Stop(d) => Stopped(k, c, row, env, d, ch);
    case Go(d, ts) =>
      var h := Usable(ch);
      var c1 := if Drops(ch.hit, ch.specified) then Step(c, Deleting(uuid, ch.hit)) else c;
      if h.None? {
        CompileCold(k, c1, known, uuid, row, env, d, ts, k.convert(row, env), true, ch);
      } else {
        assert h.value in All(c);
        if h.value.value.ExprValue? {
          var cv := Converted(Some(h.value.value.expr), {}, {}, {});
          assert cv == k.convert(row, env);
          CompileCold(k, c1, known, uuid, row, env, d, ts, cv, false, ch);
        } else {
          var x, t :| MatchesSound(k, row, h.value.value, x, t);
          MatchesCold(k, c1, row, env, d, ts, h.value.value, x, t, ch);
        }
      }
  }

  lemma Stopped(k: Compiler, c: Cache, row: Row, env: Env, d: set<Dep>, ch: Choices)
    requires Before(k, row, env) == Stop(d)
    ensures LikeCold(k, row, env, ch, Result(c, None, None, d))
  {
  }

  lemma MatchesCold(k: Compiler, c: Cache, row: Row, env: Env, d: set<Dep>, ts: set<string>, v: Value, x: Expr,
                    t: Compiled, ch: Choices)
    requires Before(k, row, env) == Go(d, ts) && v.MatchesValue? && MatchesSound(k, row, v, x, t)
    requires Usable(ch).Some? && Usable(ch).value.value == v
    ensures LikeCold(k, row, env, ch, Result(c, None, Some(v.matches), d + Templates(ts) + k.encode(row, env)))
  {
    hide Before, Templates, Referred, Prepared, MovedBy;
    NothingRead(d, ts, x);
    PreparedMoves(t, v.conjIdOfs);
    assert k.convert(row, env) == Converted(Some(x), {}, {}, {});
    assert k.toMatches(x, env) == t;
    assert Cold(k, row, env).deps == d + Templates(ts) + {};
  }

  // ---- Soundness is kept ----

  lemma OfferSound(k: Compiler, row: Row, env: Env, uuid: nat, d: set<Dep>, ts: set<string>, known: set<Dep>,
                   start: nat)
    requires ReadsRecorded(k) && Before(k, row, env) == Go(d, ts)
    requires var cv := k.convert(row, env); cv.expr.Some? && k.toMatches(cv.expr.value, env).matches != []
    requires k.toMatches(k.convert(row, env).expr.value, env).nConjs > 0 ==> start > 0
    ensures var cv := k.convert(row, env);
            var t := k.toMatches(cv.expr.value, env);
            var recorded := known + d + Referred(cv) + t.deps + k.encode(row, env);
            var o := Offer(k, true, uuid, cv, t, start, ts + cv.templates, recorded);
            o.Some? ==> EntrySound(k, row, o.value) && o.value.uuid == uuid
  {
    hide Prepared, Referred;
    var cv := k.convert(row, env);
    var t := k.toMatches(cv.expr.value, env);
    var recorded := known + d + Referred(cv) + t.deps + k.encode(row, env);
    var o := Offer(k, true, uuid, cv, t, start, ts + cv.templates, recorded);
    if o.Some? {
      var x := cv.expr.value;
      assert ts == {} && cv.templates == {} by {
        assert forall s :: s in ts ==> s in ts + cv.templates;
        assert forall s :: s in cv.templates ==> s in ts + cv.templates;
      }
      assert k.actions(row, env).templates == ts;
      assert cv == Converted(Some(x), {}, {}, {});
      assert ConvertsTo(k, row, x);
      if o.value.value.MatchesValue? {
        assert t.deps == {} by { assert forall y :: y in t.deps ==> y in recorded; }
        assert CompilesTo(k, x, t);
        PreparedNone(t, start);
        assert MatchesSound(k, row, o.value.value, x, t);
      }
    }
  }

  lemma PreparedNone(t: Compiled, start: nat)
    ensures t.nConjs == 0 ==> Prepared(t, start) == Prepared(t, 0)
  {
  }

  lemma AddedAll(c: Cache, e: Entry, victim: Entry)
    requires Counted(c) && !Refuses(c, e) && (Evicts(c, e) ==> victim in c.exprs)
    ensures All(Add(c, e, victim)) == (if Evicts(c, e) then All(c) - multiset{victim} else All(c)) + multiset{e}
  {
    hide SizeSum;
    if Evicts(c, e) {
      RemovedAll(c, victim);
    }
  }

  lemma PlusSound(k: Compiler, c: Cache, d: Cache, rows: map<nat, Row>, e: Entry)
    requires Sound(k, c, rows) && All(d) == All(c) + multiset{e}
    requires e.uuid in rows && EntrySound(k, rows[e.uuid], e) && forall f :: f in All(c) ==> f.uuid != e.uuid
    ensures Sound(k, d, rows)
  {
    hide EntrySound, All;
  }

  lemma AddSound(k: Compiler, c: Cache, rows: map<nat, Row>, e: Entry, victim: Entry)
    requires Sound(k, c, rows) && Counted(c) && (Evicts(c, e) ==> victim in c.exprs)
    requires e.uuid in rows && EntrySound(k, rows[e.uuid], e) && forall f :: f in All(c) ==> f.uuid != e.uuid
    ensures Sound(k, Add(c, e, victim), rows)
  {
    hide EntrySound, Sound, Counted, Refuses;
    if !Refuses(c, e) {
      AddedAll(c, e, victim);
      var c1 := if Evicts(c, e) then c.(exprs := c.exprs - multiset{victim}) else c;
      assert All(c1) == if Evicts(c, e) then All(c) - multiset{victim} else All(c);
      LessSound(k, c, c1, rows);
      PlusSound(k, c1, Add(c, e, victim), rows, e);
    }
  }

  lemma LessSound(k: Compiler, c: Cache, d: Cache, rows: map<nat, Row>)
    requires Sound(k, c, rows) && All(d) <= All(c)
    ensures Sound(k, d, rows)
  {
    hide EntrySound;
    forall e | e in All(d) ensures e in All(c) && All(d)[e] == 1 {
      assert All(d)[e] <= All(c)[e];
    }
  }

  lemma RemovedAll(c: Cache, e: Entry)
    requires Counted(c) && e in All(c)
    ensures All(Removed(c, e)) == All(c) - multiset{e}
  {
    hide SizeSum;
  }

  lemma TrimmedAll(c: Cache)
    ensures All(Trimmed(c, false)) == All(c) && Trimmed(c, false).cfg.enabled == c.cfg.enabled
  {
  }

  lemma OnlyOne(c: Cache, e: Entry, f: Entry)
    requires Distinct(c) && e in All(c) && f in All(c) - multiset{e}
    ensures f.uuid != e.uuid
  {
    hide All;
    assert f in All(c);
    assert All(c)[e] == 1;
  }

  lemma DropSound(k: Compiler, c: Cache, rows: map<nat, Row>, uuid: nat, hit: Option<Entry>)
    requires Sound(k, c, rows) && CacheOk(c) && Found(c, uuid, hit)
    ensures var d := Step(c, Deleting(uuid, hit)); Sound(k, d, rows) && CacheOk(d)
    ensures var d := Step(c, Deleting(uuid, hit));
            d.cfg.enabled == c.cfg.enabled && (c.cfg.enabled ==> forall f :: f in All(d) ==> f.uuid != uuid)
  {
    hide EntrySound, SizeSum, CacheOk, Counted, Removed, Trimmed, Distinct;
    StepOk(c, Deleting(uuid, hit));
    if hit.Some? {
      CacheCounted(c);
      var d := Trimmed(Removed(c, hit.value), false);
      RemovedAll(c, hit.value);
      RemovedOn(c, hit.value);
      TrimmedAll(Removed(c, hit.value));
      LessSound(k, c, d, rows);
      forall f | f in All(d) ensures f.uuid != uuid {
        OnlyOne(c, hit.value, f);
      }
    }
  }

  lemma RemovedOn(c: Cache, e: Entry)
    ensures Removed(c, e).cfg.enabled == c.cfg.enabled
  {
  }

  /** MAIN RESULT.  Compiling through the cache leaves it sound, with one entry per
      flow at most. */
  lemma ConsiderSound(k: Compiler, c: Cache, rows: map<nat, Row>, known: set<Dep>, uuid: nat, env: Env, ch: Choices,
                      victim: Entry)
    requires ReadsRecorded(k) && Sound(k, c, rows) && CacheOk(c) && uuid in rows && Found(c, uuid, ch.hit)
    requires LegalVictim(Consider(k, c, known, uuid, rows[uuid], env, ch), victim)
    ensures var c' := CacheAfter(Consider(k, c, known, uuid, rows[uuid], env, ch), victim);
            Sound(k, c', rows) && CacheOk(c')
  {
    hide Sound, CacheOk, Counted, Consider, Add, ReadsRecorded, EntrySound, Found, Step, Evicts, All;
    var row := rows[uuid];
    var r := Consider(k, c, known, uuid, row, env, ch);
    DropSound(k, c, rows, uuid, ch.hit);
    KeptIs(k, c, known, uuid, row, env, ch);
    if r.offer.Some? {
      Offered(k, c, known, uuid, row, env, ch);
      AddOk(r.kept, r.offer.value, victim);
      CacheCounted(r.kept);
      AddSound(k, r.kept, rows, r.offer.value, victim);
    }
  }

  lemma KeptIs(k: Compiler, c: Cache, known: set<Dep>, uuid: nat, row: Row, env: Env, ch: Choices)
    ensures var r := Consider(k, c, known, uuid, row, env, ch); r.kept == c || r.kept == Step(c, Deleting(uuid, ch.hit))
  {
    hide Templates, Referred, Prepared, Offer, Step;
  }

  /** What is offered is sound, and no entry of the flow is left then. */
  lemma Offered(k: Compiler, c: Cache, known: set<Dep>, uuid: nat, row: Row, env: Env, ch: Choices)
    requires ReadsRecorded(k) && Found(c, uuid, ch.hit)
    requires var d := Step(c, Deleting(uuid, ch.hit));
             d.cfg.enabled == c.cfg.enabled && (c.cfg.enabled ==> forall f :: f in All(d) ==> f.uuid != uuid)
    requires Consider(k, c, known, uuid, row, env, ch).offer.Some?
    ensures var r := Consider(k, c, known, uuid, row, env, ch);
            && r.offer.value.uuid == uuid && EntrySound(k, row, r.offer.value)
            && forall f :: f in All(r.kept) ==> f.uuid != uuid
  {
    hide Templates, Referred, Prepared, ReadsRecorded, EntrySound, Offer, All, Step, Before, Start;
    match Before(k, row, env)
    case Go(d, ts) =>
      var cv := k.convert(row, env);
      var c1 := if Drops(ch.hit, ch.specified) then Step(c, Deleting(uuid, ch.hit)) else c;
      NothingDeleted(c, uuid);
      OfferEnabled(k, c1.cfg.enabled, uuid, cv, k.toMatches(cv.expr.value, env), ch.alloc, ts + cv.templates,
                   known + d + Referred(cv) + k.toMatches(cv.expr.value, env).deps + k.encode(row, env));
      OfferSound(k, row, env, uuid, d, ts, known, ch.alloc);
  }

  lemma NothingDeleted(c: Cache, uuid: nat)
    ensures Step(c, Deleting(uuid, None)) == c
  {
  }

  lemma OfferEnabled(k: Compiler, enabled: bool, uuid: nat, cv: Converted, t: Compiled, start: nat,
                     templates: set<string>, recorded: set<Dep>)
    requires cv.expr.Some?
    ensures Offer(k, enabled, uuid, cv, t, start, templates, recorded).Some? ==> enabled
  {
  }

  // ---- Runs ----

  datatype World = World(cache: Cache, deps: map<nat, set<Dep>>, rows: map<nat, Row>)

  datatype Happening =
    | Considering(uuid: nat, env: Env, ch: Choices, victim: Entry)
    | Managing(ev: Event)
    | Changing(uuid: nat, row: Row)
    | Forgetting(uuid: nat)

  function KnownOf(w: World, uuid: nat): set<Dep> {
    if uuid in w.deps then w.deps[uuid] else {}
  }

  function Considered(w: World, k: Compiler, uuid: nat, env: Env, ch: Choices): Result
    requires uuid in w.rows
  {
    Consider(k, w.cache, KnownOf(w, uuid), uuid, w.rows[uuid], env, ch)
  }

  /** A row's text changes only while the flow is not cached; otherwise the cache is
      only managed, never written from outside. */
  ghost predicate Possible(k: Compiler, w: World, h: Happening) {
    match h
    case Considering(uuid, env, ch, victim) =>
      uuid in w.rows && Found(w.cache, uuid, ch.hit) && LegalVictim(Considered(w, k, uuid, env, ch), victim)
    case Managing(ev) => !ev.Adding? && Legal(w.cache, ev)
    case Changing(uuid, _) => forall e :: e in All(w.cache) ==> e.uuid != uuid
    case Forgetting(_) => true
  }

  ghost function Happen(k: Compiler, w: World, h: Happening): World
    requires Possible(k, w, h)
  {
    match h
    case Considering(uuid, env, ch, victim) =>
      var r := Considered(w, k, uuid, env, ch);
      w.(cache := CacheAfter(r, victim), deps := w.deps[uuid := KnownOf(w, uuid) + r.deps])
    case Managing(ev) => w.(cache := Step(w.cache, ev))
    case Changing(uuid, row) => w.(rows := w.rows[uuid := row])
    case Forgetting(uuid) => w.(deps := w.deps - {uuid})
  }

  ghost predicate PossibleRun(k: Compiler, w: World, hs: seq<Happening>)
    decreases |hs|
  {
    hs == [] || (Possible(k, w, hs[0]) && PossibleRun(k, Happen(k, w, hs[0]), hs[1..]))
  }

  ghost function After(k: Compiler, w: World, hs: seq<Happening>): World
    requires PossibleRun(k, w, hs)
    decreases |hs|
  {
    if hs == [] then w else After(k, Happen(k, w, hs[0]), hs[1..])
  }

  ghost predicate WorldOk(k: Compiler, w: World) {
    CacheOk(w.cache) && Sound(k, w.cache, w.rows)
  }

  lemma ManagedSound(k: Compiler, c: Cache, rows: map<nat, Row>, ev: Event)
    requires Sound(k, c, rows) && CacheOk(c) && !ev.Adding? && Legal(c, ev)
    ensures Sound(k, Step(c, ev), rows) && CacheOk(Step(c, ev))
  {
    hide EntrySound, Sound, CacheOk, All, Step, Found;
    StepOk(c, ev);
    if ev.Deleting? {
      DropSound(k, c, rows, ev.uuid, ev.found);
    } else {
      ManagedAll(c, ev);
      LessSound(k, c, Step(c, ev), rows);
    }
  }

  lemma ManagedAll(c: Cache, ev: Event)
    requires !ev.Adding? && !ev.Deleting?
    ensures All(Step(c, ev)) <= All(c)
  {
  }

  lemma HappenOk(k: Compiler, w: World, h: Happening)
    requires ReadsRecorded(k) && WorldOk(k, w) && Possible(k, w, h)
    ensures WorldOk(k, Happen(k, w, h))
  {
    hide ReadsRecorded, CacheOk, EntrySound, Consider, Found;
    match h
    case Considering(uuid, env, ch, victim) =>
      ConsiderSound(k, w.cache, w.rows, KnownOf(w, uuid), uuid, env, ch, victim);
    case Managing(ev) => ManagedSound(k, w.cache, w.rows, ev);
    case Changing(_, _) =>
    case Forgetting(_) =>
  }

  lemma CreatedSound(k: Compiler)
    ensures WorldOk(k, World(Created(), map[], map[]))
  {
    hide CacheOk, EntrySound;
    CreatedOk();
    assert All(Created()) == multiset{};
  }

  lemma {:induction false} RunSound(k: Compiler, w: World, hs: seq<Happening>)
    requires ReadsRecorded(k) && WorldOk(k, w) && PossibleRun(k, w, hs)
    ensures WorldOk(k, After(k, w, hs))
    decreases |hs|
  {
    hide ReadsRecorded, WorldOk, Possible, Happen;
    if hs != [] {
      HappenOk(k, w, hs[0]);
      RunSound(k, Happen(k, w, hs[0]), hs[1..]);
    }
  }

  /** MAIN RESULT.  Start from a new cache and let flows be compiled, rows change
      while they are not cached, and the cache be switched, flushed, trimmed and
      pruned in any order: whatever is compiled next comes out as it would without
      a cache, but for where its conjunction ids start, and with the same
      dependencies recorded. */
  lemma TransparentRun(k: Compiler, hs: seq<Happening>, uuid: nat, env: Env, ch: Choices)
    requires ReadsRecorded(k) && PossibleRun(k, World(Created(), map[], map[]), hs)
    requires var w := After(k, World(Created(), map[], map[]), hs); uuid in w.rows && Found(w.cache, uuid, ch.hit)
    ensures var w := After(k, World(Created(), map[], map[]), hs);
            LikeCold(k, w.rows[uuid], env, ch, Considered(w, k, uuid, env, ch))
  {
    hide ReadsRecorded, Possible, PossibleRun, After, Happen, LikeCold, Consider, Found, CacheOk, Sound;
    var w0 := World(Created(), map[], map[]);
    CreatedSound(k);
    RunSound(k, w0, hs);
    var w := After(k, w0, hs);
    Transparent(k, w.cache, w.rows, KnownOf(w, uuid), uuid, env, ch);
  }

  /** Two compilations of one flow, whatever was cached for either, differ only in
      where their conjunction ids start; without conjunctions not at all. */
  lemma SameUpToIds(k: Compiler, row: Row, env: Env, ch1: Choices, r1: Result, ch2: Choices, r2: Result)
    requires LikeCold(k, row, env, ch1, r1) && LikeCold(k, row, env, ch2, r2) && r1.flows.Some? && r2.flows.Some?
    ensures r1.deps == r2.deps
    ensures Cold(k, row, env).flow.value.nConjs > 0 ==>
              MovedBy(r2.flows.value, r1.flows.value, Start(ch2) - Start(ch1))
    ensures Cold(k, row, env).flow.value.nConjs == 0 ==> r1.flows == r2.flows
  {
    hide Cold, MovedMatch;
    var t, a, b := Cold(k, row, env).flow.value, r1.flows.value, r2.flows.value;
    forall i | 0 <= i < |a| ensures MovedMatch(b[i], a[i], Offset(t, Start(ch2)) - Offset(t, Start(ch1))) {
      MovedTwice(t.matches[i], a[i], Offset(t, Start(ch1)), b[i], Offset(t, Start(ch2)));
    }
    if t.nConjs == 0 {
      forall i | 0 <= i < |a| ensures a[i] == b[i] { MovedNowhere(b[i], a[i]); }
      assert a == b;
    }
  }

  lemma MovedTwice(m: ExprMatch, a: ExprMatch, x: int, b: ExprMatch, y: int)
    requires MovedMatch(a, m, x) && MovedMatch(b, m, y)
    ensures MovedMatch(b, a, y - x)
  {
  }

  lemma MovedNowhere(b: ExprMatch, a: ExprMatch)
    requires MovedMatch(b, a, 0)
    ensures a == b
  {
    assert a.conjunctions == b.conjunctions;
  }

  /** The ids of a match lie in this range. */
  ghost predicate IdsIn(m: ExprMatch, from: int, to: int) {
    && (m.conjId.Some? ==> from <= m.conjId.value <= to)
    && forall j :: 0 <= j < |m.conjunctions| ==> from <= m.conjunctions[j] <= to
  }

  /** If the compiler counts its ids from 1 to their number, those of an installed flow
      fill the range that starts where they were allocated, cached or not: flows with
      ranges of their own never share an id. */
  lemma OwnIds(k: Compiler, row: Row, env: Env, ch: Choices, r: Result)
    requires LikeCold(k, row, env, ch, r) && r.flows.Some?
    requires var t := Cold(k, row, env).flow.value; forall m :: m in t.matches ==> IdsIn(m, 1, t.nConjs)
    ensures var n := Cold(k, row, env).flow.value.nConjs;
            n > 0 ==> forall m :: m in r.flows.value ==> IdsIn(m, Start(ch), Start(ch) + n - 1)
  {
    hide Cold;
    var t := Cold(k, row, env).flow.value;
    forall m | m in r.flows.value && t.nConjs > 0 ensures IdsIn(m, Start(ch), Start(ch) + t.nConjs - 1) {
      var i :| 0 <= i < |r.flows.value| && r.flows.value[i] == m;
      assert MovedMatch(m, t.matches[i], Offset(t, Start(ch))) && t.matches[i] in t.matches;
    }
  }

  // ---- The imperative form ----

  class LflowContext {
    const k: Compiler
    const cache: LflowCache
    var deps: map<nat, set<Dep>>

    constructor (k: Compiler, cache: LflowCache)
      ensures this.k == k && this.cache == cache && deps == map[]
    {
      this.k, this.cache, deps := k, cache, map[];
    }

    function Known(uuid: nat): set<Dep>
      reads this
    {
      if uuid in deps then deps[uuid] else {}
    }

    method Record(uuid: nat, ds: set<Dep>)
      modifies this
      ensures Known(uuid) == old(Known(uuid)) + ds
      ensures forall u :: u != uuid ==> Known(u) == old(Known(u))
    {
      deps := deps[uuid := Known(uuid) + ds];
    }

    /** The answers of the conjunction-id allocator are arguments. */
    method ConsiderFlow(uuid: nat, row: Row, env: Env, specified: bool, alloc: nat)
      returns (flows: Option<seq<ExprMatch>>, ghost ch: Choices, ghost victim: Entry)
      requires CacheOk(cache.View()) && Distinct(cache.View())
      modifies this, cache
      ensures ch.specified == specified && ch.alloc == alloc
      ensures Before(k, row, env).Go? ==> Found(old(cache.View()), uuid, ch.hit)
      ensures var r := Consider(k, old(cache.View()), old(Known(uuid)), uuid, row, env, ch);
              && LegalVictim(r, victim) && cache.View() == CacheAfter(r, victim) && flows == r.flows
              && Known(uuid) == old(Known(uuid)) + r.deps
      ensures forall u :: u != uuid ==> Known(u) == old(Known(u))
    {
      hide CacheOk, Counted, Distinct, Found, Compile, Before, Templates, Add, Step, Evicts;
      flows := None;
      ch := Choices(specified, alloc, None);
      victim := Entry(0, 0, ExprValue(0));
      var pre := Check(uuid, row, env);
      if pre.Stop? {
        return;
      }
      var lcv, hit := Lookup(uuid, specified);
      ch := ch.(hit := hit);
      if lcv.Some? && lcv.value.value.MatchesValue? {
        flows := Some(lcv.value.value.matches);
        Record(uuid, k.encode(row, env));
        Record(uuid, Templates(pre.templates));
        return;
      }
      RecordedBefore(k, cache.View(), old(Known(uuid)), uuid, row, env, pre.deps, pre.templates,
                     if lcv.Some? then Converted(Some(lcv.value.value.expr), {}, {}, {}) else k.convert(row, env),
                     lcv.None?, alloc);
      flows, victim := FromExpr(uuid, row, env, lcv, pre.templates, alloc);
    }

    method Check(uuid: nat, row: Row, env: Env) returns (pre: Prelude)
      modifies this
      ensures pre == Before(k, row, env) && Known(uuid) == old(Known(uuid)) + pre.deps
      ensures forall u :: u != uuid ==> Known(u) == old(Known(u))
    {
      hide Templates;
      if !k.local(env) {
        return Stop({});
      }
      var io := k.ioPort(row);
      var read := {};
      if io.Some? {
        read := {Port(io.value)};
        Record(uuid, read);
        if !k.related(env, io.value) {
          return Stop(read);
        }
      }
      var acts := k.actions(row, env);
      if !acts.ok {
        Record(uuid, Templates(acts.templates));
        return Stop(read + Templates(acts.templates));
      }
      return Go(read, acts.templates);
    }

    /** Asks the cache; drops matches whose conjunction ids cannot be had again. */
    method Lookup(uuid: nat, specified: bool) returns (lcv: Option<Entry>, ghost hit: Option<Entry>)
      requires CacheOk(cache.View()) && Distinct(cache.View())
      modifies cache
      ensures Found(old(cache.View()), uuid, hit) && CacheOk(cache.View())
      ensures lcv == if Drops(hit, specified) then None else hit
      ensures cache.View() == if Drops(hit, specified) then Step(old(cache.View()), Deleting(uuid, hit))
              else old(cache.View())
    {
      hide CacheOk, Counted, Distinct, Found, Step;
      lcv := cache.Get(uuid);
      hit := lcv;
      if lcv.Some? && lcv.value.value.MatchesValue? && lcv.value.value.nConjs > 0 && !specified {
        ghost var found := cache.Delete(uuid);
        FoundOnce(old(cache.View()), uuid, found, lcv);
        lcv := None;
      }
    }

    /** The rest of the compilation, once matches have not been found. */
    method FromExpr(uuid: nat, row: Row, env: Env, lcv: Option<Entry>, refs: set<string>, alloc: nat)
      returns (flows: Option<seq<ExprMatch>>, ghost victim: Entry)
      requires CacheOk(cache.View()) && (lcv.Some? ==> lcv.value.value.ExprValue?)
      modifies this, cache
      ensures var cv := if lcv.Some? then Converted(Some(lcv.value.value.expr), {}, {}, {}) else k.convert(row, env);
              var r := Compile(k, old(cache.View()), old(Known(uuid)), uuid, row, env, {}, refs, cv, lcv.None?, alloc);
              && LegalVictim(r, victim) && cache.View() == CacheAfter(r, victim) && flows == r.flows
              && Known(uuid) == old(Known(uuid)) + r.deps
      ensures forall u :: u != uuid ==> Known(u) == old(Known(u))
    {
      hide CacheOk, Counted, Templates, Referred, Prepared, Add, Evicts, Offer;
      flows := None;
      victim := Entry(0, 0, ExprValue(0));
      var templates := refs;
      var cv := Converted(None, {}, {}, {});
      if lcv.Some? {
        cv := cv.(expr := Some(lcv.value.value.expr));
        NothingRead({}, refs, cv.expr.value);
        assert Referred(cv) == {} by { NothingReferred(cv); }
        assert refs + {} == refs;
      } else {
        cv := k.convert(row, env);
        templates := templates + cv.templates;
        Record(uuid, Referred(cv));
        if cv.expr.None? {
          Record(uuid, Templates(templates));
          assert {} + Templates(templates) + Referred(cv) == Referred(cv) + Templates(templates);
          return;
        }
      }
      ghost var known, t := Known(uuid), k.toMatches(cv.expr.value, env);
      assert known == old(Known(uuid)) + Referred(cv) && templates == refs + cv.templates;
      ghost var enc, read := k.encode(row, env), {} + Templates(templates) + Referred(cv) + t.deps;
      assert old(Known(uuid)) + {} + Referred(cv) + t.deps + enc == known + t.deps + enc;
      assert old(Known(uuid)) + read == known + t.deps + {} + Templates(templates);
      assert old(Known(uuid)) + (read + enc) == known + t.deps + enc + Templates(templates);
      flows, victim := Finish(uuid, row, env, cv, lcv.None?, templates, alloc);
    }

    /** From the expression on. */
    method Finish(uuid: nat, row: Row, env: Env, cv: Converted, missed: bool, templates: set<string>, alloc: nat)
      returns (flows: Option<seq<ExprMatch>>, ghost victim: Entry)
      requires CacheOk(cache.View()) && cv.expr.Some?
      modifies this, cache
      ensures var t := k.toMatches(cv.expr.value, env);
              var none := t.matches == [] || (t.nConjs > 0 && alloc == 0);
              var enc := if none then {} else k.encode(row, env);
              var recorded := old(Known(uuid)) + t.deps + enc;
              var offer := if none || !missed then None
                           else Offer(k, old(cache.View()).cfg.enabled, uuid, cv, t, alloc, templates, recorded);
              && (offer.Some? && Evicts(old(cache.View()), offer.value) ==> victim in old(cache.View()).exprs)
              && cache.View() == (if offer.Some? then Add(old(cache.View()), offer.value, victim)
                                  else old(cache.View()))
              && flows == (if none then None else Some(Prepared(t, alloc)))
              && Known(uuid) == recorded + Templates(templates)
      ensures forall u :: u != uuid ==> Known(u) == old(Known(u))
    {
      hide CacheOk, Templates, Prepared, Add, Evicts, MatchesEntry, ExprEntry;
      flows := None;
      victim := Entry(0, 0, ExprValue(0));
      var cached := missed && cache.cfg.enabled && cv.addrSets == {} && cv.portGroups == {} && templates == {};
      var t := k.toMatches(cv.expr.value, env);
      Record(uuid, t.deps);
      if t.matches == [] {
        Record(uuid, Templates(templates));
        return;
      }
      if t.nConjs > 0 && alloc == 0 {
        Record(uuid, Templates(templates));
        return;
      }
      flows := Some(Prepared(t, alloc));
      Record(uuid, k.encode(row, env));
      if cached {
        if Known(uuid) == {} {
          var added;
          added, victim := cache.AddEntry(MatchesEntry(k, uuid, t, alloc));
        } else {
          var added;
          added, victim := cache.AddEntry(ExprEntry(k, uuid, cv.expr.value));
        }
      }
      Record(uuid, Templates(templates));
    }
  }

  lemma NothingReferred(cv: Converted)
    requires Plain(cv)
    ensures Referred(cv) == {}
  {
  }

  /** It does not matter whether what the prelude read is already recorded. */
  lemma RecordedBefore(k: Compiler, c: Cache, known: set<Dep>, uuid: nat, row: Row, env: Env, d: set<Dep>,
                       ts: set<string>, cv: Converted, missed: bool, alloc: nat)
    ensures var r := Compile(k, c, known + d, uuid, row, env, {}, ts, cv, missed, alloc);
            var q := Compile(k, c, known, uuid, row, env, d, ts, cv, missed, alloc);
            r.(deps := q.deps) == q && q.deps == d + r.deps
  {
    hide Templates, Referred, Prepared, Offer;
    var enc := k.encode(row, env);
    var read := {} + Templates(ts + cv.templates) + Referred(cv);
    var read' := d + Templates(ts + cv.templates) + Referred(cv);
    assert read' == d + read;
    if cv.expr.Some? {
      var t := k.toMatches(cv.expr.value, env);
      assert read' + t.deps == d + (read + t.deps) && read' + t.deps + enc == d + (read + t.deps + enc);
      assert known + d + {} + Referred(cv) + t.deps + enc == known + d + Referred(cv) + t.deps + enc;
    }
  }

  lemma FoundOnce(c: Cache, uuid: nat, r: Option<Entry>, q: Option<Entry>)
    requires Distinct(c) && Found(c, uuid, r) && Found(c, uuid, q)
    ensures r == q
  {
  }
}
