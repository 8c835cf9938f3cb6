/** The logical flow cache (ovn/controller/lflow-cache.c): expressions and matches
    per logical flow, bounded in number and in memory.  The two hash maps are
    multisets: nothing in the cache itself keeps a flow from being added twice. */
module LflowCache {
  import opened Common

  /** A match of a compiled flow, with the conjunction it completes, if any, and
      the conjunctions it is part of. */
  datatype ExprMatch = ExprMatch(fields: nat, conjId: Option<nat>, conjunctions: seq<nat>)

  /** An expression tree, known by a number. */
  type Expr = nat

  datatype Value = ExprValue(expr: Expr) | MatchesValue(matches: seq<ExprMatch>, nConjs: nat, conjIdOfs: nat)

  datatype Entry = Entry(uuid: nat, size: nat, value: Value)

  datatype Settings = Settings(enabled: bool, capacity: nat, maxMem: nat, trimLimit: nat, trimPerc: nat)

  datatype Cache = Cache(
    exprs: multiset<Entry>,
    matches: multiset<Entry>,
    n: int,
    mem: int,
    highWatermark: int,
    trimCount: nat,
    cfg: Settings)

  function Created(): Cache {
    Cache(multiset{}, multiset{}, 0, 0, 0, 0, Settings(false, 0, 0, 0, 0))
  }

  ghost function SizeSum(m: multiset<Entry>): nat
    decreases |m|
  {
    if m == multiset{} then 0 else var e :| e in m; e.size + SizeSum(m - multiset{e})
  }

  /** The sum does not depend on the order in which the entries are taken. */
  lemma {:induction false} SizeSplit(m: multiset<Entry>, e: Entry)
    requires e in m
    ensures SizeSum(m) == e.size + SizeSum(m - multiset{e})
    decreases |m|
  {
    var f :| f in m && SizeSum(m) == f.size + SizeSum(m - multiset{f});
    if f != e {
      SizeSplit(m - multiset{f}, e);
      assert m - multiset{f} - multiset{e} == m - multiset{e} - multiset{f};
      SizeSplit(m - multiset{e}, f);
    }
  }

  lemma SizeAdd(m: multiset<Entry>, e: Entry)
    ensures SizeSum(m + multiset{e}) == SizeSum(m) + e.size
  {
    SizeSplit(m + multiset{e}, e);
    assert m + multiset{e} - multiset{e} == m;
  }

  /** The counters are exact. */
  ghost predicate Counted(c: Cache) {
    && (forall e :: e in c.exprs ==> e.value.ExprValue?)
    && (forall e :: e in c.matches ==> e.value.MatchesValue?)
    && c.n == |c.exprs| + |c.matches|
    && c.mem == SizeSum(c.exprs) + SizeSum(c.matches)
    && c.n <= c.highWatermark
  }

  /** What holds of a cache between two calls. */
  ghost predicate CacheOk(c: Cache) {
    && Counted(c)
    && c.n <= c.cfg.capacity
    && c.mem <= c.cfg.maxMem
    && (!c.cfg.enabled ==> c.exprs == multiset{} && c.matches == multiset{})
  }

  // ---- The operations ----

  function Removed(c: Cache, e: Entry): Cache {
    c.(n := c.n - 1,
       mem := c.mem - e.size,
       exprs := if e.value.ExprValue? then c.exprs - multiset{e} else c.exprs,
       matches := if e.value.ExprValue? then c.matches else c.matches - multiset{e})
  }

  /** Unless forced, trims only a cache that was once larger than the limit and now
      holds at most the given share of what it held then. */
  function Trimmed(c: Cache, force: bool): Cache {
    if !force && (c.highWatermark <= c.cfg.trimLimit || c.n > c.highWatermark * c.cfg.trimPerc / 100) then c
    else c.(highWatermark := c.n, trimCount := c.trimCount + 1)
  }

  function Flushed(c: Cache): Cache {
    Trimmed(c.(exprs := multiset{}, matches := multiset{}, n := 0, mem := 0), true)
  }

  function Enabled(c: Cache, enabled: bool, capacity: nat, maxKb: nat, trimLimit: nat, trimPerc: nat): Cache {
    var perc := if trimPerc > 100 then 100 else trimPerc;
    var flush := (c.cfg.enabled && !enabled) || capacity < c.n || maxKb * 1024 < c.mem;
    var trim := c.cfg.enabled && (c.cfg.trimLimit != trimLimit || c.cfg.trimPerc != perc);
    var d := c.(cfg := Settings(enabled, capacity, maxKb * 1024, trimLimit, perc));
    if flush then Flushed(d) else if trim then Trimmed(d, false) else d
  }

  /** An entry is refused when the cache is off, when there is no memory for it,
      or when the cache is full and there is nothing less important to evict. */
  predicate Refuses(c: Cache, e: Entry) {
    || !c.cfg.enabled
    || e.size + c.mem > c.cfg.maxMem
    || (c.n == c.cfg.capacity && (e.value.ExprValue? || |c.exprs| == 0))
  }

  predicate Evicts(c: Cache, e: Entry) {
    !Refuses(c, e) && c.n == c.cfg.capacity
  }

  function Inserted(c: Cache, e: Entry): Cache {
    c.(n := c.n + 1,
       mem := c.mem + e.size,
       highWatermark := if c.n + 1 > c.highWatermark then c.n + 1 else c.highWatermark,
       exprs := if e.value.ExprValue? then c.exprs + multiset{e} else c.exprs,
       matches := if e.value.ExprValue? then c.matches else c.matches + multiset{e})
  }

  /** The victim is the expression evicted if one has to be. */
  function Add(c: Cache, e: Entry, victim: Entry): Cache {
    if Refuses(c, e) then c
    else
      Inserted(if Evicts(c, e) then Removed(c, victim) else c, e)
  }

  /** A lookup finds an entry of the flow if there is one, an expression first. */
  ghost predicate Found(c: Cache, uuid: nat, r: Option<Entry>) {
    && (r.None? <==> !c.cfg.enabled || forall e :: e in c.exprs + c.matches ==> e.uuid != uuid)
    && (r.Some? ==>
          && r.value.uuid == uuid
          && (r.value in c.exprs || (r.value in c.matches && forall e :: e in c.exprs ==> e.uuid != uuid)))
  }

  // ---- Runs ----

  datatype Event =
    | Enabling(enabled: bool, capacity: nat, maxKb: nat, trimLimit: nat, trimPerc: nat)
    | Adding(e: Entry, victim: Entry)
    | Deleting(uuid: nat, found: Option<Entry>)
    | Flushing
    | Trimming

  ghost predicate Legal(c: Cache, ev: Event) {
    match ev
    case Adding(e, v) => Evicts(c, e) ==> v in c.exprs
    case Deleting(uuid, r) => Found(c, uuid, r)
    case _ => true
  }

  function Step(c: Cache, ev: Event): Cache {
    match ev
    case Enabling(on, cap, kb, limit, perc) => Enabled(c, on, cap, kb, limit, perc)
    case Adding(e, v) => Add(c, e, v)
    case Deleting(_, r) => if r.None? then c else Trimmed(Removed(c, r.value), false)
    case Flushing => Flushed(c)
    case Trimming => Trimmed(c, true)
  }

  ghost predicate LegalRun(c: Cache, evs: seq<Event>)
    decreases |evs|
  {
    evs == [] || (Legal(c, evs[0]) && LegalRun(Step(c, evs[0]), evs[1..]))
  }

  function Run(c: Cache, evs: seq<Event>): Cache
    decreases |evs|
  {
    if evs == [] then c else Run(Step(c, evs[0]), evs[1..])
  }

  lemma RemovedOk(c: Cache, e: Entry)
    requires Counted(c) && e in c.exprs + c.matches
    ensures Counted(Removed(c, e))
    ensures CacheOk(c) ==> CacheOk(Removed(c, e))
    ensures c.n > 0 && c.mem >= e.size
  {
    hide SizeSum;
    if e in c.exprs { SizeSplit(c.exprs, e); } else { SizeSplit(c.matches, e); }
  }

  lemma AddOk(c: Cache, e: Entry, victim: Entry)
    requires CacheOk(c) && (Evicts(c, e) ==> victim in c.exprs)
    ensures CacheOk(Add(c, e, victim))
  {
    hide SizeSum;
    if !Refuses(c, e) {
      if Evicts(c, e) { RemovedOk(c, victim); }
      var d := if Evicts(c, e) then Removed(c, victim) else c;
      SizeAdd(d.exprs, e);
      SizeAdd(d.matches, e);
    }
  }

  lemma TrimmedOk(c: Cache, force: bool)
    requires CacheOk(c)
    ensures CacheOk(Trimmed(c, force))
  {
  }

  lemma EnabledOk(c: Cache, on: bool, capacity: nat, maxKb: nat, trimLimit: nat, trimPerc: nat)
    requires CacheOk(c)
    ensures CacheOk(Enabled(c, on, capacity, maxKb, trimLimit, trimPerc))
  {
    hide SizeSum, Flushed, Trimmed;
    var perc := if trimPerc > 100 then 100 else trimPerc;
    var d := c.(cfg := Settings(on, capacity, maxKb * 1024, trimLimit, perc));
    FlushedOk(d);
    if d.n <= d.cfg.capacity && d.mem <= d.cfg.maxMem && !(c.cfg.enabled && !on) {
      TrimmedOk(d, false);
    }
  }

  /** MAIN RESULT.  Over every run of the cache's calls the counters are exact and
      within their bounds, and a cache that is off is empty. */
  lemma {:induction false} AccountingExact(c: Cache, evs: seq<Event>)
    requires CacheOk(c) && LegalRun(c, evs)
    ensures CacheOk(Run(c, evs))
    decreases |evs|
  {
    hide CacheOk, Add, Removed, Trimmed, Enabled, Flushed;
    if evs != [] {
      StepOk(c, evs[0]);
      AccountingExact(Step(c, evs[0]), evs[1..]);
    }
  }

  lemma StepOk(c: Cache, ev: Event)
    requires CacheOk(c) && Legal(c, ev)
    ensures CacheOk(Step(c, ev))
  {
    hide SizeSum, Add, Removed, Trimmed, Enabled, Flushed, Counted;
    match ev
    case Enabling(on, cap, kb, limit, perc) => EnabledOk(c, on, cap, kb, limit, perc);
    case Adding(e, v) => AddOk(c, e, v);
    case Deleting(_, r) =>
      if r.Some? {
        RemovedOk(c, r.value);
        TrimmedOk(Removed(c, r.value), false);
      }
    case Flushing => FlushedOk(c);
    case Trimming => TrimmedOk(c, true);
  }

  lemma FlushedOk(c: Cache)
    ensures CacheOk(Flushed(c))
  {
  }

  lemma EmptyCounts(c: Cache)
    requires Counted(c) && c.exprs == multiset{} && c.matches == multiset{}
    ensures c.n == 0 && c.mem == 0
  {
  }

  /** The settings do not bear on the counts. */
  lemma CountedStill(c: Cache, cfg: Settings)
    requires CacheOk(c)
    ensures Counted(c.(cfg := cfg))
  {
  }

  lemma CacheCounted(c: Cache)
    requires CacheOk(c)
    ensures Counted(c)
  {
  }

  lemma CreatedOk()
    ensures CacheOk(Created())
  {
  }

  /** Matches are never evicted to make room: an addition keeps them
      all, and it costs at most one expression, only when the cache is full and
      what is added is matches. */
  lemma MatchesNotEvicted(c: Cache, e: Entry, victim: Entry)
    requires CacheOk(c) && (Evicts(c, e) ==> victim in c.exprs)
    ensures var d := Add(c, e, victim);
            && c.matches <= d.matches
            && (c.exprs <= d.exprs || (Evicts(c, e) && e.value.MatchesValue? && d.exprs + multiset{victim} == c.exprs))
            && (d == c || e in d.exprs + d.matches)
  {
    hide SizeSum;
  }

  lemma RemovedFields(c: Cache, e: Entry)
    ensures var r := Removed(c, e);
            && r.n == c.n - 1 && r.mem == c.mem - e.size
            && r.highWatermark == c.highWatermark && r.trimCount == c.trimCount && r.cfg == c.cfg
    ensures e.value.ExprValue? ==> Removed(c, e).exprs == c.exprs - multiset{e} && Removed(c, e).matches == c.matches
    ensures !e.value.ExprValue? ==> Removed(c, e).matches == c.matches - multiset{e} && Removed(c, e).exprs == c.exprs
  {
  }

  class LflowCache {
    var exprs: multiset<Entry>
    var matches: multiset<Entry>
    var n: int
    var mem: int
    var highWatermark: int
    var trimCount: nat
    var cfg: Settings

    ghost function View(): Cache
      reads this
    {
      Cache(exprs, matches, n, mem, highWatermark, trimCount, cfg)
    }

    constructor ()
      ensures View() == Created()
    {
      exprs, matches, n, mem, highWatermark := multiset{}, multiset{}, 0, 0, 0;
      trimCount, cfg := 0, Settings(false, 0, 0, 0, 0);
    }

    method DeleteEntry(e: Entry)
      requires Counted(View()) && e in exprs + matches
      modifies this
      ensures View() == Removed(old(View()), e) && Counted(View())
    {
      hide Counted, CacheOk, Removed, SizeSum;
      RemovedOk(View(), e);
      RemovedFields(View(), e);
      if e.value.ExprValue? {
        exprs := exprs - multiset{e};
      } else {
        matches := matches - multiset{e};
      }
      n := n - 1;
      mem := mem - e.size;
    }

    method Trim(force: bool)
      requires Counted(View())
      modifies this
      ensures View() == Trimmed(old(View()), force) && Counted(View())
    {
      var upper := highWatermark * cfg.trimPerc / 100;
      if !force && (highWatermark <= cfg.trimLimit || n > upper) {
        return;
      }
      highWatermark := n;
      trimCount := trimCount + 1;
    }

    method Flush()
      requires Counted(View())
      modifies this
      ensures View() == Flushed(old(View())) && Counted(View())
    {
      hide SizeSum;
      while exprs != multiset{}
        invariant Counted(View())
        invariant View().(exprs := multiset{}, n := 0, mem := 0) == old(View()).(exprs := multiset{}, n := 0, mem := 0)
        decreases |exprs|
      {
        var e :| e in exprs;
        DeleteEntry(e);
      }
      while matches != multiset{}
        invariant Counted(View()) && exprs == multiset{}
        invariant View().(matches := multiset{}, n := 0, mem := 0)
                  == old(View()).(exprs := multiset{}, matches := multiset{}, n := 0, mem := 0)
        decreases |matches|
      {
        var e :| e in matches;
        DeleteEntry(e);
      }
      EmptyCounts(View());
      Trim(true);
    }

    method Enable(on: bool, cap: nat, maxKb: nat, limit: nat, perc: nat)
      requires CacheOk(View())
      modifies this
      ensures View() == Enabled(old(View()), on, cap, maxKb, limit, perc) && CacheOk(View())
    {
      hide Counted, CacheOk, Flushed, Trimmed;
      EnabledOk(View(), on, cap, maxKb, limit, perc);
      CountedStill(View(), Settings(on, cap, maxKb * 1024, limit, if perc > 100 then 100 else perc));
      var p := if perc > 100 then 100 else perc;
      var needFlush, needTrim := false, false;
      if (cfg.enabled && !on) || cap < n || maxKb * 1024 < mem {
        needFlush := true;
      } else if cfg.enabled && (cfg.trimLimit != limit || cfg.trimPerc != p) {
        needTrim := true;
      }
      cfg := Settings(on, cap, maxKb * 1024, limit, p);
      if needFlush {
        Flush();
      } else if needTrim {
        Trim(false);
      }
    }

    /** Evicts an expression, whichever comes first, to make room for matches. */
    method MakeRoom(forMatches: bool) returns (made: bool, ghost victim: Option<Entry>)
      requires CacheOk(View())
      modifies this
      ensures made <==> forMatches && |old(exprs)| > 0
      ensures made ==>
                && victim.Some? && victim.value in old(exprs)
                && View() == Removed(old(View()), victim.value) && CacheOk(View())
      ensures !made ==> View() == old(View())
    {
      victim := None;
      if forMatches {
        if |exprs| > 0 {
          var e :| e in exprs;
          DeleteEntry(e);
          return true, Some(e);
        }
      }
      return false, None;
    }

    /** The size of an entry includes its header. */
    method AddEntry(e: Entry) returns (added: bool, ghost victim: Entry)
      requires CacheOk(View())
      modifies this
      ensures Evicts(old(View()), e) ==> victim in old(exprs)
      ensures View() == Add(old(View()), e, victim) && CacheOk(View())
      ensures added <==> !Refuses(old(View()), e)
    {
      hide SizeSum;
      hide Counted, CacheOk, Inserted, Removed;
      victim := e;
      ghost var was := View();
      if !cfg.enabled {
        return false, e;
      }
      if e.size + mem > cfg.maxMem {
        return false, e;
      }
      if n == cfg.capacity {
        var made, v := MakeRoom(e.value.MatchesValue?);
        if !made {
          return false, e;
        }
        victim := v.value;
      }
      AddOk(was, e, victim);
      Insert(e);
      added := true;
    }

    method Insert(e: Entry)
      modifies this
      ensures View() == Inserted(old(View()), e)
    {
      ghost var was := View();
      mem := mem + e.size;
      n := n + 1;
      highWatermark := if n > highWatermark then n else highWatermark;
      if e.value.ExprValue? {
        exprs := exprs + multiset{e};
        assert View() == Inserted(was, e);
      } else {
        matches := matches + multiset{e};
        assert View() == Inserted(was, e);
      }
    }

    method Get(uuid: nat) returns (r: Option<Entry>)
      ensures Found(View(), uuid, r)
    {
      if !cfg.enabled {
        return None;
      }
      var todo := exprs;
      while todo != multiset{}
        invariant todo <= exprs && forall e :: e in exprs && e !in todo ==> e.uuid != uuid
        decreases |todo|
      {
        var e :| e in todo;
        if e.uuid == uuid {
          return Some(e);
        }
        todo := todo - multiset{e};
      }
      todo := matches;
      while todo != multiset{}
        invariant todo <= matches && forall e :: e in matches && e !in todo ==> e.uuid != uuid
        decreases |todo|
      {
        var e :| e in todo;
        if e.uuid == uuid {
          return Some(e);
        }
        todo := todo - multiset{e};
      }
      return None;
    }

    method Delete(uuid: nat) returns (ghost found: Option<Entry>)
      requires CacheOk(View())
      modifies this
      ensures Found(old(View()), uuid, found) && CacheOk(View())
      ensures View() == Step(old(View()), Deleting(uuid, found))
    {
      hide SizeSum, Counted, CacheOk, Removed, Trimmed;
      CacheCounted(View());
      var r := Get(uuid);
      found := r;
      StepOk(View(), Deleting(uuid, found));
      if r.Some? {
        DeleteEntry(r.value);
        Trim(false);
      }
    }
  }
}
