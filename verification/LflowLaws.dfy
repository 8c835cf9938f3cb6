/** What the logical flow cache takes in, keeps and gives back, and what a compilation
    reads, said of the settings, the sizes and the compiler's answers alone. */
module LflowLaws {
  import opened Common
  import opened LflowCache
  import opened LflowConsider

  // ---- The cache ----

  /** There is a way to take the entry in: the cache is on, its memory suffices, and
      there is room, or for matches an expression to give way. */
  ghost predicate Accepts(c: Cache, e: Entry) {
    && c.cfg.enabled && c.mem + e.size <= c.cfg.maxMem
    && (c.n < c.cfg.capacity || (e.value.MatchesValue? && c.exprs != multiset{}))
  }

  /** An entry is added iff the cache can take it in; only a full cache gives anything
      up for it, and then one expression. */
  lemma AddExact(c: Cache, e: Entry, victim: Entry)
    requires CacheOk(c) && (Evicts(c, e) ==> victim in c.exprs)
    ensures All(Add(c, e, victim)) ==
            if !Accepts(c, e) then All(c)
            else if c.n < c.cfg.capacity then All(c) + multiset{e}
            else All(c) - multiset{victim} + multiset{e}
    ensures Accepts(c, e) && c.n >= c.cfg.capacity ==> victim in c.exprs
  {
    hide SizeSum;
    CacheCounted(c);
    NoExprs(c);
    if !Refuses(c, e) { AddedAll(c, e, victim); }
  }

  lemma NoExprs(c: Cache)
    ensures |c.exprs| == 0 <==> c.exprs == multiset{}
  {
  }

  /** Memory is trimmed on demand, or if the cache once held more entries than the
      limit and now holds no more than the given share of them, in percent. */
  lemma TrimExact(c: Cache, force: bool)
    requires c.highWatermark >= 0
    ensures var trims := force || (c.highWatermark > c.cfg.trimLimit && 100 * c.n <= c.highWatermark * c.cfg.trimPerc);
            Trimmed(c, force) == if trims then c.(highWatermark := c.n, trimCount := c.trimCount + 1) else c
  {
    Share(c.n, c.highWatermark * c.cfg.trimPerc);
  }

  lemma Share(n: int, x: int)
    ensures n <= x / 100 <==> 100 * n <= x
  {
  }

  /** New settings empty the cache iff they switch it off or it is too large for them. */
  lemma EnableExact(c: Cache, on: bool, capacity: nat, maxKb: nat, trimLimit: nat, trimPerc: nat)
    requires CacheOk(c)
    ensures var d := Enabled(c, on, capacity, maxKb, trimLimit, trimPerc);
            && All(d) == (if !on || c.n > capacity || c.mem > maxKb * 1024 then multiset{} else All(c))
            && d.cfg.enabled == on && d.cfg.capacity == capacity && d.cfg.maxMem == maxKb * 1024
            && d.cfg.trimLimit == trimLimit && d.cfg.trimPerc == if trimPerc <= 100 then trimPerc else 100
  {
    hide SizeSum;
  }

  // ---- A compilation without a cache ----

  /** How far a compilation gets: the datapath is local, and the port the match names,
      if it names one, is related. */
  ghost predicate Concerns(k: Compiler, row: Row, env: Env) {
    k.local(env) && (k.ioPort(row).Some? ==> k.related(env, k.ioPort(row).value))
  }

  ghost predicate Acts(k: Compiler, row: Row, env: Env) { Concerns(k, row, env) && k.actions(row, env).ok }

  ghost predicate Converts(k: Compiler, row: Row, env: Env) { Acts(k, row, env) && k.convert(row, env).expr.Some? }

  /** A flow is installed iff it concerns this chassis, its actions are good, its match
      converts and anything matches. */
  lemma ColdExact(k: Compiler, row: Row, env: Env, t: Compiled)
    ensures Cold(k, row, env).flow == Some(t) <==>
            Converts(k, row, env) && t == k.toMatches(k.convert(row, env).expr.value, env) && t.matches != []
    ensures Cold(k, row, env).encoding == if Cold(k, row, env).flow.Some? then k.encode(row, env) else {}
  {
  }

  /** What it depends on: the port that the match names; the templates of the actions;
      the address sets, port groups and templates of the match; and what turning the
      expression into matches reads.  Each only if the compilation gets that far. */
  lemma ColdReads(k: Compiler, row: Row, env: Env, d: Dep)
    ensures d in Cold(k, row, env).deps <==>
            || (k.local(env) && k.ioPort(row).Some? && d == Port(k.ioPort(row).value))
            || (Concerns(k, row, env) && d.Template? && d.name in k.actions(row, env).templates)
            || (&& Acts(k, row, env)
                && var cv := k.convert(row, env);
                || (d.Template? && d.name in cv.templates)
                || (d.AddrSet? && d.name in cv.addrSets)
                || (d.PortGroup? && d.name in cv.portGroups))
            || (Converts(k, row, env) && d in k.toMatches(k.convert(row, env).expr.value, env).deps)
  {
  }

  // ---- A compilation through the cache ----

  /** The cached matches cannot be used: they have conjunctions whose ids are taken. */
  ghost predicate Outdated(ch: Choices) {
    match ch.hit
    case Some(Entry(_, _, MatchesValue(_, n, _))) => n > 0 && !ch.specified
    case _ => false
  }

  /** What is found is used and stays, unless it is outdated; then it goes. */
  lemma HitUsed(k: Compiler, c: Cache, known: set<Dep>, uuid: nat, row: Row, env: Env, ch: Choices)
    requires Acts(k, row, env) && CacheOk(c) && Found(c, uuid, ch.hit) && ch.hit.Some?
    ensures var r := Consider(k, c, known, uuid, row, env, ch);
            if Outdated(ch) then All(r.kept) == All(c) - multiset{ch.hit.value}
            else
              && r.kept == c && r.offer.None?
              && (ch.hit.value.value.MatchesValue? ==> r.flows == Some(ch.hit.value.value.matches))
  {
    hide Templates, Referred, Prepared, Offer, SizeSum, Removed, Trimmed;
    var e := ch.hit.value;
    CacheCounted(c);
    assert e in All(c);
    RemovedAll(c, e);
    TrimmedAll(Removed(c, e));
  }

  /** The match and the actions refer to no address set, port group or template. */
  ghost predicate Fixed(k: Compiler, row: Row, env: Env) {
    var cv := k.convert(row, env);
    cv.addrSets == {} && cv.portGroups == {} && cv.templates == {} && k.actions(row, env).templates == {}
  }

  /** A flow that was compiled from its text and installed is offered to the cache iff
      the cache is on and the text is fixed.  It is offered as matches if it depends on
      nothing at all, now or before, and else as an expression. */
  lemma OfferedIff(k: Compiler, c: Cache, known: set<Dep>, uuid: nat, row: Row, env: Env, ch: Choices)
    requires ch.hit.None? && Consider(k, c, known, uuid, row, env, ch).flows.Some?
    ensures var r := Consider(k, c, known, uuid, row, env, ch);
            var t := k.toMatches(k.convert(row, env).expr.value, env);
            && r.kept == c
            && (r.offer.Some? <==> c.cfg.enabled && Fixed(k, row, env))
            && (r.offer.Some? ==>
                  && r.offer.value.uuid == uuid
                  && if known + r.deps == {}
                     then && r.offer.value.value ==
                             MatchesValue(r.flows.value, t.nConjs, if t.nConjs > 0 then ch.alloc else 0)
                          && r.offer.value.size == k.header + if t.nConjs > 0 then k.matchSize(r.flows.value) else 0
                     else && r.offer.value.value == ExprValue(k.convert(row, env).expr.value)
                          && r.offer.value.size == k.header + k.exprSize(k.convert(row, env).expr.value))
  {
    hide Prepared;
    var cv := k.convert(row, env);
    var ts := k.actions(row, env).templates;
    assert ts + cv.templates == {} <==> ts == {} && cv.templates == {} by {
      assert forall s :: s in ts || s in cv.templates <==> s in ts + cv.templates;
    }
    if Fixed(k, row, env) { FixedReads(k, row, env, cv, ts); }
  }

  lemma FixedReads(k: Compiler, row: Row, env: Env, cv: Converted, ts: set<string>)
    requires cv.addrSets == {} && cv.portGroups == {} && cv.templates == {} && ts == {}
    ensures Referred(cv) == {} && Templates(ts + cv.templates) == {}
  {
  }
}
