/** When a switch of generation lists is safe: exactly when nothing that matters was
    left on the old list. */
module FlowLeftovers {
  import opened Common
  import opened OpenFlow
  import opened Seqs
  import opened FlowTable
  import opened FlowIndex
  import opened FlowRefinement
  import opened FlowOrder

  /** A populate does not touch a flow that is on the active list and not due
      for a visit. */
  lemma UnvisitedKept(s: System, h: bool, k: Key, ol: seq<Key>, op_: seq<Key>)
    requires Fit(s) && Legal(s, Populate(ol, op_))
    requires k in Half(s, h).flows && Half(s, h).flows[k].list == Half(s, h).active && k !in Half(s, h).modified
    requires k !in Half(s, !h).flows && Half(s, !h).modified <= Half(s, !h).flows.Keys
    ensures SameAt(s.sw, Step(s, Populate(ol, op_)).sw, k)
  {
    hide PopulateOldMsgs, HandleAllMsgs, PopulateOld, ApplyAll, PopulateModified, Linked, FlowOk;
    FitPopulates(s.l);
    FitPopulates(s.p);
    forall g ensures k !in Half(s, g).lists[Old(Half(s, g))] && k !in PopulateOld(Half(s, g)).modified {
      PopulateOldEffect(Half(s, g));
      PopulateOldSwitch(Half(s, g), s.sw);
    }
    PopulateOldSwitch(s.l, s.sw);
    PopulateOldSwitch(s.p, s.sw);
    HandledKeys(PopulateOld(s.l), ol);
    HandledKeys(PopulateOld(s.p), op_);
    ApplyAllFrame(s.sw, PopulateMsgs(s.l, s.p, ol, op_), k);
  }

  /** An add that repeats an action already at the front of its slot. */
  lemma FrontKnown(f: Flow) returns (a: Action)
    requires FlowOk(f) && HasActions(f)
    ensures a in ActSet(f) && MatchingAction(f, a.acts) == Some(a)
  {
    if f.normal.Some? {
      a := f.normal.value;
    } else if f.allow != [] {
      a := f.allow[0];
      assert a in f.allow;
    } else if f.drop != [] {
      a := f.drop[0];
      assert a in f.drop;
    } else {
      a := f.conj[0];
      assert a in f.conj;
    }
    ClassesExclusive(a.acts);
  }

  // ---------- What books mean ----------

  /** Forgetting what has lapsed does not change what is meant. */
  lemma MeansKept(b: Book)
    ensures Means(BookKeep(b, IsLive())) == Means(b)
  {
    forall c: Kind ensures LiveOfKind(BookKeep(b, IsLive()), c) == LiveOfKind(b, c) {
      var p := (x: Asked) => KindOf(x.acts) == c && x.live;
      FilterTwice(b.others, IsLive(), p, p);
    }
  }

  lemma LapsedNothing(b: Book)
    ensures Means(Lapsed(b)) == None
  {
    LapsedMeans(Lapsed(b));
  }

  lemma {:induction false} AskHas(s: seq<Asked>, uuid: Uuid, acts: Ofpacts)
    ensures Asked(uuid, acts, true) in Ask(s, uuid, acts)
  {
    if s != [] && s[0].acts != acts {
      AskHas(s[1..], uuid, acts);
    }
  }

  lemma AddMeans(b: Book, acts: Ofpacts, uuid: Uuid)
    ensures Means(BookAdd(b, acts, uuid)).Some?
  {
    if KindOf(acts) != Normal {
      AskHas(b.others, uuid, acts);
      assert Asked(uuid, acts, true) in LiveOfKind(BookAdd(b, acts, uuid), KindOf(acts));
    }
  }

  // ---------- The condition ----------

  /** Whatever is asked from here on, populates will make the switch exact. */
  ghost predicate SafeFrom(s: System, ll: Ledger, lp: Ledger) {
    forall ops: seq<Op> :: LegalRun(s, ops) && ops != [] && ops[|ops| - 1].Populate?
      ==> Exact(Run(s, ops).sw, LedgerRun(ll, true, ops), LedgerRun(lp, false, ops))
  }

  lemma SomePopulate(s: System) returns (ol: seq<Key>, op_: seq<Key>)
    requires Fit(s)
    ensures Legal(s, Populate(ol, op_)) && LegalRun(s, [Populate(ol, op_)])
    ensures Run(s, [Populate(ol, op_)]) == Step(s, Populate(ol, op_))
  {
    FitPopulates(s.l);
    FitPopulates(s.p);
    ol := SomeOrder(PopulateOld(s.l).modified);
    op_ := SomeOrder(PopulateOld(s.p).modified);
  }

  lemma OneStepLedgers(ll: Ledger, lp: Ledger, op: Op)
    ensures LedgerRun(ll, true, [op]) == LedgerStep(ll, true, op)
    ensures LedgerRun(lp, false, [op]) == LedgerStep(lp, false, op)
  {
  }

  /** After a switch of lists the key means nothing in either half. */
  lemma SwitchedMeans(s: System, ll: Ledger, lp: Ledger, h: bool, k: Key)
    requires Booked(s, ll, lp) && k !in Half(s, !h).flows
    ensures var op := SwitchTables(h);
            Means(BookAt(LedgerStep(ll, true, op), k)) == None && Means(BookAt(LedgerStep(lp, false, op), k)) == None
  {
    hide Means, Lapsed;
    LapsedMeans(NO_BOOK);
    LapsedNothing(BookAt(ll, k));
    LapsedNothing(BookAt(lp, k));
    assert HoldsAt(Half(s, !h), k, BookAt(if h then lp else ll, k));
  }

  lemma PopulateMeans(l: Ledger, h: bool, k: Key, ol: seq<Key>, op_: seq<Key>)
    ensures Means(BookAt(LedgerStep(l, h, Populate(ol, op_)), k)) == Means(BookAt(l, k))
  {
    hide Means, BookKeep;
    MeansKept(BookAt(l, k));
    NoneKept();
  }

  /** A leftover flow that is not idle can be made to show: by a populate straight
      after the switch of lists if its key is on the switch, else by an add that
      repeats one of its actions and a populate. */
  lemma LeftoverShows(s: System, ll: Ledger, lp: Ledger, h: bool, k: Key)
    requires SysOk(s) && Booked(s, ll, lp) && k in Half(s, h).lists[Old(Half(s, h))]
    requires !Idle(s.sw, k, Half(s, h).flows[k])
    ensures var op := SwitchTables(h); !SafeFrom(Step(s, op), LedgerStep(ll, true, op), LedgerStep(lp, false, op))
  {
    hide Legal, Linked, PopulateMsgs, PopulateOld, PopulateModified, ActSet;
    hide FlowOk, LegalRun, Run, Means, LedgerStep, Books;
    var t := Half(s, h);
    var s1 := Step(s, SwitchTables(h));
    var t1 := SwitchLists(t);
    var l1, l2 := LedgerStep(ll, true, SwitchTables(h)), LedgerStep(lp, false, SwitchTables(h));
    SwitchCore(t);
    assert k in t.flows && t.flows[k].list == t1.active && k !in Half(s, !h).flows;
    SwitchedMeans(s, ll, lp, h, k);
    if k in s.sw {
      var ol, op_ := SomePopulate(s1);
      UnvisitedKept(s1, h, k, ol, op_);
      PopulateShows(s1, l1, l2, k, ol, op_);
    } else {
      var a := FrontKnown(t.flows[k]);
      assert Touched(t1, k) == t1.flows[k] && Known(t1, k, a.acts, a.uuid);
      var add := AddOflow(h, k, a.acts, a.cookie, a.uuid);
      var s2 := Step(s1, add);
      AddCore(t1, k, a.acts, a.cookie, a.uuid);
      AddShape(t1, k, a.acts, a.cookie, a.uuid);
      assert k !in Half(s2, h).modified;
      var ol, op_ := SomePopulate(s2);
      UnvisitedKept(s2, h, k, ol, op_);
      AddIsLegal(s1, add);
      AddThenPopulate(s1, l1, l2, add, ol, op_);
    }
  }

  lemma PopulateShows(s: System, l1: Ledger, l2: Ledger, k: Key, ol: seq<Key>, op_: seq<Key>)
    requires Fit(s) && Legal(s, Populate(ol, op_)) && LegalRun(s, [Populate(ol, op_)])
    requires Run(s, [Populate(ol, op_)]) == Step(s, Populate(ol, op_)) && k in Step(s, Populate(ol, op_)).sw
    requires Means(BookAt(l1, k)) == None && Means(BookAt(l2, k)) == None
    ensures !SafeFrom(s, l1, l2)
  {
    hide Means, Legal, Step, LegalRun, Run, LedgerStep, LedgerRun;
    var ops := [Populate(ol, op_)];
    OneStepLedgers(l1, l2, ops[0]);
    PopulateMeans(l1, true, k, ol, op_);
    PopulateMeans(l2, false, k, ol, op_);
    assert !Exact(Run(s, ops).sw, LedgerRun(l1, true, ops), LedgerRun(l2, false, ops));
  }

  lemma AddIsLegal(s: System, add: Op)
    requires Fit(s) && add.AddOflow? && add.key !in Half(s, !add.logical).flows
    ensures Legal(s, add)
  {
  }

  lemma AddThenPopulate(s: System, l1: Ledger, l2: Ledger, add: Op, ol: seq<Key>, op_: seq<Key>)
    requires Fit(s) && add.AddOflow? && Legal(s, add) && Fit(Step(s, add)) && Legal(Step(s, add), Populate(ol, op_))
    requires add.key !in Step(Step(s, add), Populate(ol, op_)).sw
    ensures !SafeFrom(s, l1, l2)
  {
    hide Legal, Step, CoreOk, Means, BookAdd;
    var pop := Populate(ol, op_);
    var ops := [add, pop];
    var s2 := Step(s, add);
    assert ops[1..] == [pop] && [pop][1..] == [];
    assert LegalRun(Step(s2, pop), []) && LegalRun(s2, ops[1..]) && LegalRun(s, ops);
    assert Run(s2, ops[1..]) == Run(Step(s2, pop), []) == Step(s2, pop);
    assert Run(s, ops) == Step(s2, pop);
    var m1, m2 := LedgerStep(l1, true, add), LedgerStep(l2, false, add);
    OneStepLedgers(m1, m2, pop);
    assert LedgerRun(l1, true, ops) == LedgerStep(m1, true, pop)
        && LedgerRun(l2, false, ops) == LedgerStep(m2, false, pop);
    AddMeans(BookAt(if add.logical then l1 else l2, add.key), add.acts, add.uuid);
    PopulateMeans(m1, true, add.key, ol, op_);
    PopulateMeans(m2, false, add.key, ol, op_);
    assert !Exact(Run(s, ops).sw, LedgerRun(l1, true, ops), LedgerRun(l2, false, ops));
  }

  /** MAIN RESULT.  The condition on a switch of lists is exact: every populate after
      it, whatever comes in between, leaves the switch exact iff every leftover flow
      is idle. */
  lemma SwitchExact(s: System, ll: Ledger, lp: Ledger, h: bool)
    requires SysOk(s) && Booked(s, ll, lp)
    ensures var op := SwitchTables(h);
            LeftoversIdle(Half(s, h), s.sw) <==>
                SafeFrom(Step(s, op), LedgerStep(ll, true, op), LedgerStep(lp, false, op))
  {
    hide HalfOk, Quiet, Books, Idle, Exact, LedgerStep;
    HalfIsTable(s.l, s.sw);
    HalfIsTable(s.p, s.sw);
    var op := SwitchTables(h);
    var s1, l1, l2 := Step(s, op), LedgerStep(ll, true, op), LedgerStep(lp, false, op);
    if LeftoversIdle(Half(s, h), s.sw) {
      StepBooked(s, ll, lp, op);
      forall ops: seq<Op> | LegalRun(s1, ops) && ops != [] && ops[|ops| - 1].Populate?
        ensures Exact(Run(s1, ops).sw, LedgerRun(l1, true, ops), LedgerRun(l2, false, ops))
      {
        RunBooked(s1, l1, l2, ops);
        QuietExact(Run(s1, ops), LedgerRun(l1, true, ops), LedgerRun(l2, false, ops));
      }
    } else {
      var k :| k in Half(s, h).lists[Old(Half(s, h))] && !Idle(s.sw, k, Half(s, h).flows[k]);
      LeftoverShows(s, ll, lp, h, k);
    }
  }

  // ---------- Two switches without a populate ----------

  /** The condition can fail: a flow is asked for and installed, and two switches of
      lists follow each other.  The run up to the second switch is legal, the flow
      is left over, and populates can no longer be relied on. */
  lemma SecondSwitchUnsafe(k: Key, acts: Ofpacts, cookie: nat, uuid: Uuid)
    ensures var ops := FirstOps(k, acts, cookie, uuid) + [SwitchTables(true)];
            && LegalRun(INITIAL, ops)
            && var s := Run(INITIAL, ops);
            var ll, lp := LedgerRun(map[], true, ops), LedgerRun(map[], false, ops);
            var again := SwitchTables(true);
            && SysOk(s) && Booked(s, ll, lp) && !LeftoversIdle(s.l, s.sw)
            && !SafeFrom(Step(s, again), LedgerStep(ll, true, again), LedgerStep(lp, false, again))
  {
    hide Visited, OneFlow, HalfOk, Books, SafeFrom, LedgerStep, LedgerRun, CoreOk;
    var first, swap := FirstOps(k, acts, cookie, uuid), SwitchTables(true);
    FirstFlow(k, acts, cookie, uuid);
    var s2 := Run(INITIAL, first);
    InitialBooked();
    RunBooked(INITIAL, map[], map[], first);
    HalfIsTable(s2.l, s2.sw);
    HalfIsTable(s2.p, s2.sw);
    var s3 := Step(s2, swap);
    assert Legal(s2, swap);
    RunSnoc(INITIAL, first, swap);
    var ops := first + [swap];
    RunBooked(INITIAL, map[], map[], ops);
    assert k in s3.l.lists[Old(s3.l)] && k in s3.sw;
    SwitchExact(s3, LedgerRun(map[], true, ops), LedgerRun(map[], false, ops), true);
  }

  lemma {:induction false} RunSnoc(s: System, ops: seq<Op>, op: Op)
    requires LegalRun(s, ops) && Fit(Run(s, ops)) && Legal(Run(s, ops), op)
    ensures LegalRun(s, ops + [op]) && Run(s, ops + [op]) == Step(Run(s, ops), op)
    decreases |ops|
  {
    hide Legal, Step, CoreOk;
    if ops == [] {
      assert ops + [op] == [op] && [op][1..] == [];
      assert LegalRun(Step(s, op), []);
    } else {
      assert (ops + [op])[1..] == ops[1..] + [op];
      RunSnoc(Step(s, ops[0]), ops[1..], op);
    }
  }
}
