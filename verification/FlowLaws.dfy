/** What a switch comes to hold for one flow, said of the requests themselves: by the
    shape of their actions and the order in which they were made. */
module FlowLaws {
  import opened Common
  import opened OpenFlow
  import opened Seqs
  import opened FlowTable
  import opened FlowIndex
  import opened FlowRefinement
  import opened FlowOrder
  import Q = FlowQuiescence
  import W = FlowOwners

  type Request = Q.Request

  // ---- The law ----

  ghost predicate Drops(r: Request) { r.acts == [] }

  ghost predicate Allows(r: Request) { exists t: nat :: r.acts == [Resubmit(t)] }

  ghost predicate Conjoins(r: Request) { exists i :: 0 <= i < |r.acts| && r.acts[i].Conjunction? }

  ghost predicate Rules(r: Request) { !Drops(r) && !Allows(r) && !Conjoins(r) }

  ghost function InOrder(reqs: seq<Request>): Ofpacts {
    if reqs == [] then [] else reqs[0].acts + InOrder(reqs[1..])
  }

  ghost predicate NoneRules(reqs: seq<Request>) { forall i :: 0 <= i < |reqs| ==> !Rules(reqs[i]) }

  ghost predicate IsLast(reqs: seq<Request>, i: nat) {
    i < |reqs| && Rules(reqs[i]) && forall j :: i < j < |reqs| ==> !Rules(reqs[j])
  }

  ghost predicate LastRules(reqs: seq<Request>, acts: Ofpacts) {
    exists i: nat :: IsLast(reqs, i) && acts == reqs[i].acts
  }

  ghost predicate NoneAllows(reqs: seq<Request>) { forall i :: 0 <= i < |reqs| ==> !Allows(reqs[i]) }

  ghost predicate FirstAllows(reqs: seq<Request>, acts: Ofpacts) {
    exists i ::
      && 0 <= i < |reqs| && Allows(reqs[i]) && acts == reqs[i].acts
      && forall j :: 0 <= j < i ==> !Allows(reqs[j])
  }

  ghost predicate NoneDrops(reqs: seq<Request>) { forall i :: 0 <= i < |reqs| ==> !Drops(reqs[i]) }

  /** Of requests for one flow by any number of owners: the last one that is neither a
      drop nor a resubmit alone nor part of a conjunction; else the first resubmit; else
      a drop; else all together in order. */
  ghost predicate Right(reqs: seq<Request>, acts: Ofpacts) {
    if !NoneRules(reqs) then LastRules(reqs, acts)
    else if !NoneAllows(reqs) then FirstAllows(reqs, acts)
    else if !NoneDrops(reqs) then acts == []
    else acts == InOrder(reqs)
  }

  ghost predicate NoneTwice(reqs: seq<Request>) {
    forall i, j :: 0 <= i < j < |reqs| ==> reqs[i].uuid != reqs[j].uuid || reqs[i].acts != reqs[j].acts
  }

  lemma KindShape(r: Request)
    ensures Drops(r) <==> KindOf(r.acts) == Drop
    ensures Allows(r) <==> KindOf(r.acts) == Allow
    ensures Conjoins(r) <==> KindOf(r.acts) == Conj
    ensures Rules(r) <==> KindOf(r.acts) == Normal
  {
    var acts := r.acts;
    if |acts| == 1 && acts[0].Resubmit? { assert acts == [Resubmit(acts[0].table)]; }
    if Conjoins(r) {
      var i :| 0 <= i < |acts| && acts[i].Conjunction?;
      assert acts[i] in acts;
    }
    if x :| x in acts && x.Conjunction? {
      var i :| 0 <= i < |acts| && acts[i] == x;
    }
  }

  // ---- The book of such requests ----

  ghost function BookOf(reqs: seq<Request>): Book {
    if reqs == [] then NO_BOOK
    else
      var n := |reqs| - 1;
      BookAdd(BookOf(reqs[..n]), reqs[n].acts, reqs[n].uuid)
  }

  /** The requests that are not normal, as entries in order. */
  ghost function Others(reqs: seq<Request>): seq<Asked> {
    if reqs == [] then []
    else
      var n := |reqs| - 1;
      Others(reqs[..n]) + if Rules(reqs[n]) then [] else [Asked(reqs[n].uuid, reqs[n].acts, true)]
  }

  lemma {:induction false} OthersFrom(reqs: seq<Request>, x: Asked)
    requires x in Others(reqs)
    ensures exists i :: 0 <= i < |reqs| && reqs[i].uuid == x.uuid && reqs[i].acts == x.acts
  {
    var n := |reqs| - 1;
    if x in Others(reqs[..n]) {
      OthersFrom(reqs[..n], x);
      var i :| 0 <= i < n && reqs[..n][i].uuid == x.uuid && reqs[..n][i].acts == x.acts;
      assert reqs[i].uuid == x.uuid;
    } else {
      assert reqs[n].uuid == x.uuid;
    }
  }

  lemma {:induction false} AskAppends(s: seq<Asked>, uuid: Uuid, acts: Ofpacts)
    requires forall x :: x in s ==> x.uuid != uuid || x.acts != acts
    ensures Ask(s, uuid, acts) == s + [Asked(uuid, acts, true)]
  {
    if s != [] && s[0].acts != acts {
      AskAppends(s[1..], uuid, acts);
      assert s == [s[0]] + s[1..];
    } else if s != [] {
      assert s[0] in s;
    }
  }

  lemma {:induction false} BookOthers(reqs: seq<Request>)
    requires NoneTwice(reqs)
    ensures BookOf(reqs).others == Others(reqs)
  {
    hide KindOf, Rules;
    if reqs != [] {
      var n := |reqs| - 1;
      var r, init := reqs[n], reqs[..n];
      BookOthers(init);
      KindShape(r);
      forall x | x in Others(init) ensures x.uuid != r.uuid || x.acts != r.acts {
        OthersFrom(init, x);
        var i :| 0 <= i < n && init[i].uuid == x.uuid && init[i].acts == x.acts;
        assert reqs[i] == init[i];
      }
      AskAppends(Others(init), r.uuid, r.acts);
    }
  }

  /** The normal entry is the last request that rules. */
  ghost predicate NormalIs(b: Option<Asked>, reqs: seq<Request>) {
    if NoneRules(reqs) then b.None?
    else exists i: nat :: IsLast(reqs, i) && b == Some(Asked(reqs[i].uuid, reqs[i].acts, true))
  }

  lemma {:induction false} BookNormal(reqs: seq<Request>)
    ensures NormalIs(BookOf(reqs).normal, reqs)
  {
    hide KindOf, Rules, Ask;
    if reqs != [] {
      var n := |reqs| - 1;
      var r, init := reqs[n], reqs[..n];
      BookNormal(init);
      KindShape(r);
      assert forall i :: 0 <= i < n ==> init[i] == reqs[i];
      if Rules(r) {
        assert IsLast(reqs, n);
      } else if !NoneRules(reqs) {
        assert !NoneRules(init);
        var i: nat :| IsLast(init, i) && BookOf(init).normal == Some(Asked(init[i].uuid, init[i].acts, true));
        assert IsLast(reqs, i);
      }
    }
  }

  // ---- What the book means ----

  /** If none rules, the entries are the requests in order. */
  lemma {:induction false} OthersAll(reqs: seq<Request>)
    requires NoneRules(reqs)
    ensures |Others(reqs)| == |reqs|
    ensures forall i :: 0 <= i < |reqs| ==> Others(reqs)[i] == Asked(reqs[i].uuid, reqs[i].acts, true)
  {
    hide Rules;
    if reqs != [] {
      var n := |reqs| - 1;
      assert forall i :: 0 <= i < n ==> reqs[..n][i] == reqs[i];
      OthersAll(reqs[..n]);
    }
  }

  lemma {:induction false} OthersLive(reqs: seq<Request>)
    ensures forall x :: x in Others(reqs) ==> x.live
  {
    hide Rules;
    if reqs != [] { OthersLive(reqs[..|reqs| - 1]); }
  }

  /** The first allowing request comes first among the allowing entries. */
  lemma {:induction false} FilterFirst(s: seq<Asked>, p: Asked -> bool, i: nat)
    requires i < |s| && p(s[i]) && forall j :: 0 <= j < i ==> !p(s[j])
    ensures Filter(s, p) != [] && Filter(s, p)[0] == s[i]
  {
    if i > 0 { FilterFirst(s[1..], p, i - 1); }
  }

  lemma {:induction false} LeastIndex(s: seq<Asked>, p: Asked -> bool, k: nat) returns (i: nat)
    requires k < |s| && p(s[k])
    ensures i < |s| && p(s[i]) && forall j :: 0 <= j < i ==> !p(s[j])
  {
    i := 0;
    while !p(s[i])
      invariant i <= k && forall j :: 0 <= j < i ==> !p(s[j])
      decreases k - i
    {
      i := i + 1;
    }
  }

  lemma {:induction false} JoinedOthers(s: seq<Asked>, reqs: seq<Request>)
    requires |s| == |reqs| && forall i :: 0 <= i < |s| ==> s[i].acts == reqs[i].acts
    ensures Joined(s) == InOrder(reqs)
  {
    if s != [] { JoinedOthers(s[1..], reqs[1..]); }
  }

  lemma OthersOf(reqs: seq<Request>, c: Kind)
    requires NoneRules(reqs)
    ensures var s, p := Others(reqs), OfLive(c);
            && |s| == |reqs|
            && (forall i :: 0 <= i < |s| ==> (p(s[i]) <==> KindOf(reqs[i].acts) == c) && s[i].acts == reqs[i].acts)
            && ((forall i :: 0 <= i < |s| ==> KindOf(reqs[i].acts) != c) <==> Filter(s, p) == [])
  {
    hide KindOf, Rules;
    var s, p := Others(reqs), OfLive(c);
    OthersAll(reqs);
    if forall i :: 0 <= i < |s| ==> KindOf(reqs[i].acts) != c {
      FilterNone(s, p);
    } else {
      var i :| 0 <= i < |s| && KindOf(reqs[i].acts) == c;
      assert p(s[i]);
      var j := LeastIndex(s, p, i);
      FilterFirst(s, p, j);
    }
  }

  lemma KindsOf(reqs: seq<Request>)
    requires NoneRules(reqs)
    ensures forall i :: 0 <= i < |reqs| ==>
              && (Allows(reqs[i]) <==> KindOf(reqs[i].acts) == Allow)
              && (Drops(reqs[i]) <==> KindOf(reqs[i].acts) == Drop)
              && KindOf(reqs[i].acts) != Normal
  {
    hide KindOf, Rules, Allows, Drops, Conjoins;
    forall i | 0 <= i < |reqs|
      ensures Allows(reqs[i]) <==> KindOf(reqs[i].acts) == Allow
      ensures Drops(reqs[i]) <==> KindOf(reqs[i].acts) == Drop
      ensures KindOf(reqs[i].acts) != Normal
    {
      KindShape(reqs[i]);
    }
  }

  /** Something allows iff there is a live entry that does, and the first is the first. */
  lemma AllowsFirst(reqs: seq<Request>)
    requires NoneRules(reqs)
    ensures var s := Filter(Others(reqs), OfLive(Allow));
            if NoneAllows(reqs) then s == [] else s != [] && FirstAllows(reqs, s[0].acts)
  {
    hide KindOf, Others, Rules, Allows, Drops, Filter, NoneRules;
    var s, p := Others(reqs), OfLive(Allow);
    KindsOf(reqs);
    OthersOf(reqs, Allow);
    if !NoneAllows(reqs) {
      var k :| 0 <= k < |reqs| && Allows(reqs[k]);
      var i := LeastIndex(s, p, k);
      FilterFirst(s, p, i);
      assert Allows(reqs[i]) && forall j :: 0 <= j < i ==> !Allows(reqs[j]);
    }
  }

  /** If nothing allows or drops, everything is joined in order. */
  lemma AllConj(reqs: seq<Request>)
    requires NoneRules(reqs) && NoneAllows(reqs)
    ensures NoneDrops(reqs) <==> Filter(Others(reqs), OfLive(Drop)) == []
    ensures NoneDrops(reqs) ==>
              Filter(Others(reqs), OfLive(Conj)) == Others(reqs) && Joined(Others(reqs)) == InOrder(reqs)
  {
    hide KindOf, Others, Rules, Allows, Drops, Filter, NoneRules, Joined, InOrder;
    KindsOf(reqs);
    OthersOf(reqs, Drop);
    OthersOf(reqs, Conj);
    if NoneDrops(reqs) {
      forall x | x in Others(reqs) ensures OfLive(Conj)(x) {
        var i :| 0 <= i < |reqs| && Others(reqs)[i] == x;
        assert KindOf(reqs[i].acts) == Conj;
      }
      FilterAll(Others(reqs), OfLive(Conj));
      JoinedOthers(Others(reqs), reqs);
    }
  }

  lemma MeansOthers(reqs: seq<Request>, b: Book)
    requires reqs != [] && NoneRules(reqs) && b == Book(None, Others(reqs))
    ensures Means(b).Some? && Right(reqs, Means(b).value)
  {
    hide KindOf, Others, NoneRules, NoneAllows, NoneDrops, InOrder, Joined, Filter, FirstAllows, OfLive;
    OthersAll(reqs);
    AllowsFirst(reqs);
    if NoneAllows(reqs) { AllConj(reqs); }
  }

  /** The actions of the book are the right ones; an empty book has none. */
  ghost predicate Settles(reqs: seq<Request>, m: Option<Ofpacts>) {
    if reqs == [] then m.None? else m.Some? && Right(reqs, m.value)
  }

  lemma MeansRight(reqs: seq<Request>, b: Book)
    requires b.others == Others(reqs) && NormalIs(b.normal, reqs)
    ensures Settles(reqs, Means(b))
  {
    hide KindOf, Rules, Right, Filter;
    if NoneRules(reqs) {
      if reqs == [] {
        assert b == NO_BOOK;
        LapsedMeans(b);
      } else {
        MeansOthers(reqs, b);
      }
    } else {
      var i: nat :| IsLast(reqs, i) && b.normal == Some(Asked(reqs[i].uuid, reqs[i].acts, true));
      LastIsRight(reqs, i);
    }
  }

  lemma LastIsRight(reqs: seq<Request>, i: nat)
    requires IsLast(reqs, i)
    ensures reqs != [] && Right(reqs, reqs[i].acts)
  {
    hide Rules;
    assert LastRules(reqs, reqs[i].acts);
  }

  // ---- What is left without one owner ----

  /** The last request that rules is the owner's. */
  ghost predicate RuledBy(reqs: seq<Request>, u: Uuid) { exists i: nat :: IsLast(reqs, i) && reqs[i].uuid == u }

  ghost function Kept(u: Uuid, ruled: bool): Request -> bool {
    (r: Request) => r.uuid != u && (ruled ==> !Rules(r))
  }

  /** The requests that stay when an owner goes.  Requests that rule replace each other,
      so if the owner's was the last there is none to go back to. */
  ghost function Left(reqs: seq<Request>, u: Uuid): seq<Request> { Filter(reqs, Kept(u, RuledBy(reqs, u))) }

  lemma {:induction false} LeftOthers(reqs: seq<Request>, u: Uuid, ruled: bool)
    ensures Others(Filter(reqs, Kept(u, ruled))) == Filter(Others(reqs), AskedByOther(u))
  {
    hide Rules, Filter;
    if reqs == [] {
      FilterNone(reqs, Kept(u, ruled));
      FilterNone(Others(reqs), AskedByOther(u));
    } else {
      var n, p := |reqs| - 1, Kept(u, ruled);
      var r, init := reqs[n], reqs[..n];
      LeftOthers(init, u, ruled);
      assert reqs == init + [r];
      FilterAppend(init, r, p);
      var x := Asked(r.uuid, r.acts, true);
      FilterAppend(Others(init), x, AskedByOther(u));
      OthersSnoc(Filter(init, p), r);
      OthersSnoc(init, r);
      assert Filter(init, p) + [] == Filter(init, p);
      assert Filter(Others(init), AskedByOther(u)) + [] == Filter(Others(init), AskedByOther(u));
    }
  }

  lemma OthersSnoc(reqs: seq<Request>, r: Request)
    ensures Others(reqs + [r]) == if Rules(r) then Others(reqs) else Others(reqs) + [Asked(r.uuid, r.acts, true)]
  {
    hide Rules;
    assert (reqs + [r])[..|reqs|] == reqs;
  }

  lemma {:induction false} LastKept(reqs: seq<Request>, u: Uuid, i: nat)
    requires IsLast(reqs, i) && reqs[i].uuid != u
    ensures NormalIs(Some(Asked(reqs[i].uuid, reqs[i].acts, true)), Filter(reqs, Kept(u, false)))
    decreases |reqs|
  {
    hide Rules, Filter;
    var n, p := |reqs| - 1, Kept(u, false);
    var r, init := reqs[n], reqs[..n];
    assert reqs == init + [r];
    FilterAppend(init, r, p);
    var kept, was := Filter(reqs, p), Filter(init, p);
    if i == n {
      assert IsLast(kept, |was|);
    } else {
      assert IsLast(init, i);
      LastKept(init, u, i);
      assert !NoneRules(was) by { assert init[i] in was; }
      var j: nat :| IsLast(was, j) && was[j].uuid == reqs[i].uuid && was[j].acts == reqs[i].acts;
      assert IsLast(kept, j);
    }
  }

  lemma OneLast(reqs: seq<Request>, i: nat, j: nat)
    requires IsLast(reqs, i) && IsLast(reqs, j)
    ensures i == j
  {
  }

  lemma LeftNormal(reqs: seq<Request>, u: Uuid, b: Option<Asked>)
    requires NormalIs(b, reqs)
    ensures NormalIs(if b.Some? && b.value.uuid != u then b else None, Left(reqs, u))
  {
    hide Rules, Filter;
    if NoneRules(reqs) {
      forall i | 0 <= i < |Left(reqs, u)| ensures !Rules(Left(reqs, u)[i]) {
        assert Left(reqs, u)[i] in reqs;
      }
    } else {
      var i: nat :| IsLast(reqs, i) && b == Some(Asked(reqs[i].uuid, reqs[i].acts, true));
      if reqs[i].uuid == u {
        assert RuledBy(reqs, u);
        assert NoneRules(Left(reqs, u)) by { assert forall r :: r in Left(reqs, u) ==> !Rules(r); }
      } else {
        if RuledBy(reqs, u) {
          var j: nat :| IsLast(reqs, j) && reqs[j].uuid == u;
          OneLast(reqs, i, j);
        }
        LastKept(reqs, u, i);
      }
    }
  }

  // ---- Runs ----

  lemma {:induction false} LedgerSnoc(l: Ledger, h: bool, ops: seq<Op>, op: Op)
    ensures LedgerRun(l, h, ops + [op]) == LedgerStep(LedgerRun(l, h, ops), h, op)
    decreases |ops|
  {
    hide LedgerStep;
    if ops == [] {
      assert ops + [op] == [op] && [op][1..] == [];
    } else {
      assert (ops + [op])[1..] == ops[1..] + [op];
      LedgerSnoc(LedgerStep(l, h, ops[0]), h, ops[1..], op);
    }
  }

  lemma {:induction false} AddsBooked(k: Key, reqs: seq<Request>)
    requires forall r :: r in reqs ==> r.key == k
    ensures var l := LedgerRun(map[], true, Q.AddOps(true, reqs)); l.Keys <= {k} && BookAt(l, k) == BookOf(reqs)
    ensures LedgerRun(map[], false, Q.AddOps(true, reqs)) == map[]
  {
    hide BookAdd;
    if reqs != [] {
      var n := |reqs| - 1;
      var r, init := reqs[n], reqs[..n];
      assert r in reqs;
      var op := AddOflow(true, r.key, r.acts, r.cookie, r.uuid);
      assert Q.AddOps(true, reqs) == Q.AddOps(true, init) + [op];
      LedgerSnoc(map[], true, Q.AddOps(true, init), op);
      LedgerSnoc(map[], false, Q.AddOps(true, init), op);
      AddsBooked(k, init);
    }
  }

  lemma NormalLive(b: Option<Asked>, reqs: seq<Request>)
    requires NormalIs(b, reqs) && b.Some?
    ensures b.value.live
  {
    hide IsLast;
  }

  lemma AllLive(reqs: seq<Request>)
    requires NoneTwice(reqs)
    ensures BookKeep(BookOf(reqs), IsLive()) == BookOf(reqs)
  {
    hide BookOf, NormalIs, NoneTwice, Filter;
    BookOthers(reqs);
    BookNormal(reqs);
    OthersLive(reqs);
    FilterAll(Others(reqs), IsLive());
    var b := BookOf(reqs);
    if b.normal.Some? { NormalLive(b.normal, reqs); }
    assert b == Book(b.normal, b.others);
  }

  /** The switch holds the flow with the right actions and nothing else. */
  ghost predicate OnSwitch(sw: Switch, k: Key, reqs: seq<Request>) {
    if reqs == [] then sw == map[] else sw.Keys == {k} && Right(reqs, sw[k].acts)
  }

  lemma NothingMeant()
    ensures Means(NO_BOOK) == None
  {
    LapsedMeans(NO_BOOK);
  }

  lemma ExactOne(sw: Switch, l: Ledger, k: Key, reqs: seq<Request>)
    requires Exact(sw, l, map[]) && l.Keys <= {k} && Settles(reqs, Means(BookAt(l, k)))
    ensures OnSwitch(sw, k, reqs)
  {
    hide Means, Right;
    NothingMeant();
    assert forall j :: j in sw <==> Means(BookAt(l, j)).Some?;
    assert forall j :: j != k ==> BookAt(l, j) == NO_BOOK;
  }

  lemma CanPopulate(ops: seq<Op>)
    requires LegalRun(INITIAL, ops)
    ensures exists ol, op :: LegalRun(INITIAL, ops + [Populate(ol, op)])
  {
    hide LegalRun, Run, Legal, Step, HalfOk, CoreOk;
    InitialBooked();
    RunBooked(INITIAL, map[], map[], ops);
    var s := Run(INITIAL, ops);
    HalfIsTable(s.l, s.sw);
    HalfIsTable(s.p, s.sw);
    var op := SomePopulate(s);
    W.OneStep(s, op);
    Q.RunAppend(INITIAL, ops, [op]);
    assert op == Populate(op.orderL, op.orderP);
  }

  lemma SomePopulate(s: System) returns (op: Op)
    requires Fit(s)
    ensures op.Populate? && Legal(s, op)
  {
    FitPopulates(s.l);
    FitPopulates(s.p);
    var ol := SomeOrder(PopulateOld(s.l).modified);
    var oq := SomeOrder(PopulateOld(s.p).modified);
    op := Populate(ol, oq);
  }

  lemma CanRemove(ops: seq<Op>, u: Uuid)
    requires LegalRun(INITIAL, ops)
    ensures LegalRun(INITIAL, ops + [RemoveOflows(true, u)])
  {
    hide LegalRun, Run, Step, HalfOk, CoreOk;
    InitialBooked();
    RunBooked(INITIAL, map[], map[], ops);
    var s := Run(INITIAL, ops);
    HalfIsTable(s.l, s.sw);
    HalfIsTable(s.p, s.sw);
    W.OneStep(s, RemoveOflows(true, u));
    Q.RunAppend(INITIAL, ops, [RemoveOflows(true, u)]);
  }

  lemma CanAsk(k: Key, reqs: seq<Request>)
    requires forall r :: r in reqs ==> r.key == k
    ensures LegalRun(INITIAL, Q.AddOps(true, reqs))
  {
    hide HalfOk, CoreOk;
    InitialOk();
    Q.AddOpsRun(INITIAL, true, reqs);
  }

  lemma PopulatedBook(ops: seq<Op>, k: Key, ol: seq<Key>, op: seq<Key>)
    ensures var l, l' := LedgerRun(map[], true, ops), LedgerRun(map[], true, ops + [Populate(ol, op)]);
            l'.Keys == l.Keys && BookAt(l', k) == BookKeep(BookAt(l, k), IsLive())
    ensures LedgerRun(map[], false, ops) == map[] ==> LedgerRun(map[], false, ops + [Populate(ol, op)]) == map[]
  {
    hide BookKeep;
    NoneKept();
    LedgerSnoc(map[], true, ops, Populate(ol, op));
    LedgerSnoc(map[], false, ops, Populate(ol, op));
  }

  /** MAIN RESULT.  Whoever asks for one flow, in whatever order, with no request made
      twice: a populate can follow, and every one leaves on the switch that flow alone,
      with the actions of the last request that rules; else of the first resubmit;
      else none at all, to drop; else of all in order. */
  lemma Outcome(k: Key, reqs: seq<Request>)
    requires NoneTwice(reqs) && forall r :: r in reqs ==> r.key == k
    ensures exists ol, op :: LegalRun(INITIAL, Q.AddOps(true, reqs) + [Populate(ol, op)])
    ensures forall ol, op ::
              var ops := Q.AddOps(true, reqs) + [Populate(ol, op)];
              LegalRun(INITIAL, ops) ==> OnSwitch(Run(INITIAL, ops).sw, k, reqs)
  {
    hide LegalRun, Run, LedgerRun, OnSwitch, Exact, BookKeep, NoneTwice, BookOf;
    CanAsk(k, reqs);
    CanPopulate(Q.AddOps(true, reqs));
    AddsBooked(k, reqs);
    AllLive(reqs);
    BookOthers(reqs);
    BookNormal(reqs);
    MeansRight(reqs, BookOf(reqs));
    forall ol, op | LegalRun(INITIAL, Q.AddOps(true, reqs) + [Populate(ol, op)])
      ensures OnSwitch(Run(INITIAL, Q.AddOps(true, reqs) + [Populate(ol, op)]).sw, k, reqs)
    {
      var ops := Q.AddOps(true, reqs) + [Populate(ol, op)];
      SwitchRefines(ops);
      PopulatedBook(Q.AddOps(true, reqs), k, ol, op);
      ExactOne(Run(INITIAL, ops).sw, LedgerRun(map[], true, ops), k, reqs);
    }
  }

  /** The operations after which an owner has gone. */
  function GoneOps(reqs: seq<Request>, ol: seq<Key>, op: seq<Key>, u: Uuid, ol': seq<Key>, op': seq<Key>): seq<Op> {
    Q.AddOps(true, reqs) + [Populate(ol, op)] + [RemoveOflows(true, u)] + [Populate(ol', op')]
  }

  lemma GoneBook(k: Key, reqs: seq<Request>, ol: seq<Key>, op: seq<Key>, u: Uuid, ol': seq<Key>, op': seq<Key>)
    requires NoneTwice(reqs) && forall r :: r in reqs ==> r.key == k
    ensures var ops := GoneOps(reqs, ol, op, u, ol', op');
            && LedgerRun(map[], true, ops).Keys <= {k} && LedgerRun(map[], false, ops) == map[]
            && BookAt(LedgerRun(map[], true, ops), k) == BookKeep(BookOf(reqs), AskedByOther(u))
  {
    hide LedgerRun, BookKeep, NoneTwice, BookOf;
    var ops1 := Q.AddOps(true, reqs) + [Populate(ol, op)];
    var ops2 := ops1 + [RemoveOflows(true, u)];
    AddsBooked(k, reqs);
    AllLive(reqs);
    PopulatedBook(Q.AddOps(true, reqs), k, ol, op);
    LedgerSnoc(map[], true, ops1, RemoveOflows(true, u));
    LedgerSnoc(map[], false, ops1, RemoveOflows(true, u));
    NoneLeft(u);
    PopulatedBook(ops2, k, ol', op');
    StillLive(BookOf(reqs), u);
  }

  lemma NoneLeft(u: Uuid)
    ensures BookKeep(NO_BOOK, AskedByOther(u)) == NO_BOOK
  {
  }

  lemma StillLive(b: Book, u: Uuid)
    requires BookKeep(b, IsLive()) == b
    ensures BookKeep(BookKeep(b, AskedByOther(u)), IsLive()) == BookKeep(b, AskedByOther(u))
  {
    hide Filter;
    FilterSwap(b.others, AskedByOther(u), IsLive());
  }

  /** MAIN RESULT.  When one of the owners goes, the switch is left with what the
      requests that stay come to by the same rule, and with nothing if none stays. */
  lemma RemovalOutcome(k: Key, reqs: seq<Request>, u: Uuid)
    requires NoneTwice(reqs) && forall r :: r in reqs ==> r.key == k
    ensures exists ol, op, ol', op' :: LegalRun(INITIAL, GoneOps(reqs, ol, op, u, ol', op'))
    ensures forall ol, op, ol', op' ::
              var ops := GoneOps(reqs, ol, op, u, ol', op');
              LegalRun(INITIAL, ops) ==> OnSwitch(Run(INITIAL, ops).sw, k, Left(reqs, u))
  {
    hide LegalRun, Run, LedgerRun, OnSwitch, Exact, NoneTwice, BookOf, Left, Filter;
    CanAsk(k, reqs);
    CanPopulate(Q.AddOps(true, reqs));
    var ol, op :| LegalRun(INITIAL, Q.AddOps(true, reqs) + [Populate(ol, op)]);
    CanRemove(Q.AddOps(true, reqs) + [Populate(ol, op)], u);
    CanPopulate(Q.AddOps(true, reqs) + [Populate(ol, op)] + [RemoveOflows(true, u)]);
    var ol', op' :|
      LegalRun(INITIAL, Q.AddOps(true, reqs) + [Populate(ol, op)] + [RemoveOflows(true, u)] + [Populate(ol', op')]);
    assert LegalRun(INITIAL, GoneOps(reqs, ol, op, u, ol', op'));
    LeftSettles(reqs, u);
    forall ol, op, ol', op' | LegalRun(INITIAL, GoneOps(reqs, ol, op, u, ol', op'))
      ensures OnSwitch(Run(INITIAL, GoneOps(reqs, ol, op, u, ol', op')).sw, k, Left(reqs, u))
    {
      var ops := GoneOps(reqs, ol, op, u, ol', op');
      SwitchRefines(ops);
      GoneBook(k, reqs, ol, op, u, ol', op');
      ExactOne(Run(INITIAL, ops).sw, LedgerRun(map[], true, ops), k, Left(reqs, u));
    }
  }

  lemma LeftSettles(reqs: seq<Request>, u: Uuid)
    requires NoneTwice(reqs)
    ensures Settles(Left(reqs, u), Means(BookKeep(BookOf(reqs), AskedByOther(u))))
  {
    hide NoneTwice, BookOf, Filter, Settles, Means, NormalIs, Others;
    BookOthers(reqs);
    BookNormal(reqs);
    LeftOthers(reqs, u, RuledBy(reqs, u));
    LeftNormal(reqs, u, BookOf(reqs).normal);
    MeansRight(Left(reqs, u), BookKeep(BookOf(reqs), AskedByOther(u)));
  }

  /** Of two owners that resubmit to different tables, or to the same one, the first to
      ask is on the switch, and the second once the first has gone. */
  lemma FirstResubmitWins(k: Key, r1: Request, r2: Request)
    requires r1.key == r2.key == k && Allows(r1) && Allows(r2) && r1.uuid != r2.uuid
    ensures forall ol, op ::
              var ops := Q.AddOps(true, [r1, r2]) + [Populate(ol, op)];
              LegalRun(INITIAL, ops) ==> k in Run(INITIAL, ops).sw && Run(INITIAL, ops).sw[k].acts == r1.acts
    ensures forall ol, op, ol', op' ::
              var ops := GoneOps([r1, r2], ol, op, r1.uuid, ol', op');
              LegalRun(INITIAL, ops) ==> k in Run(INITIAL, ops).sw && Run(INITIAL, ops).sw[k].acts == r2.acts
  {
    hide LegalRun, Run, Right, Left;
    Outcome(k, [r1, r2]);
    RemovalOutcome(k, [r1, r2], r1.uuid);
    TwoAllow(r1, r2);
  }

  lemma TwoAllow(r1: Request, r2: Request)
    requires Allows(r1) && Allows(r2) && r1.uuid != r2.uuid
    ensures forall acts :: Right([r1, r2], acts) ==> acts == r1.acts
    ensures Left([r1, r2], r1.uuid) == [r2] && forall acts :: Right([r2], acts) ==> acts == r2.acts
  {
    hide Right, Left;
    FirstStands([r1, r2]);
    FirstStands([r2]);
    OtherLeft(r1, r2);
  }

  lemma FirstStands(reqs: seq<Request>)
    requires reqs != [] && forall r :: r in reqs ==> Allows(r)
    ensures forall acts :: Right(reqs, acts) ==> acts == reqs[0].acts
  {
    hide Allows, LastRules, InOrder;
    assert Allows(reqs[0]);
    assert NoneRules(reqs) by { assert forall i :: 0 <= i < |reqs| ==> reqs[i] in reqs; }
  }

  lemma OtherLeft(r1: Request, r2: Request)
    requires Allows(r2) && r1.uuid != r2.uuid
    ensures Left([r1, r2], r1.uuid) == [r2]
  {
    hide RuledBy, Filter, Allows;
    var p := Kept(r1.uuid, RuledBy([r1, r2], r1.uuid));
    assert [r1, r2] == [r1] + [r2] && [r2] == [r2] + [];
    FilterCons(r1, [r2], p);
    FilterCons(r2, [], p);
    FilterNone([], p);
    assert [r2] + [] == [r2] && [] + [r2] == [r2];
  }

  // ---- What is sent, and when ----

  /** The messages for a flow, by what the switch holds: none if it has the actions,
      unless they are none under a cookie of zero; a strict modify if it has the flow
      under the wanted cookie, not zero; an add otherwise; a delete if nothing is wanted. */
  lemma MessagesExact(sw: Switch, k: Key, f: Flow)
    requires Mirrors(sw, k, f)
    ensures PrepareMsgs(k, f) ==
            match Effective(f)
            case None => [DeleteStrict(k)]
            case Some(e) =>
              if k in sw && sw[k].acts == e.acts && (e.acts != [] || sw[k].cookie != 0) then []
              else if k in sw && sw[k].cookie == e.cookie != 0 then [ModifyStrict(k, e.acts)]
              else [AddFlow(k, e.acts, e.cookie)]
  {
  }

  /** What a flow wants is one of its actions as it was given, cookie and all, or if it
      has conjunctions only, those together under the cookie set aside for them. */
  lemma WantsAsGiven(f: Flow)
    ensures HasActions(f) <==> Effective(f).Some?
    ensures Effective(f).Some? ==>
              || (exists a :: a in ActSet(f) && Effective(f).value == Entry(a.acts, a.cookie))
              || (&& f.normal.None? && f.allow == [] && f.drop == []
                  && Effective(f).value == Entry(ConcatActs(f.conj), CONJ_ACT_COOKIE))
  {
    if f.normal.Some? {
      assert f.normal.value in ActSet(f);
    } else if f.allow != [] {
      assert f.allow[0] in ActSet(f);
    } else if f.drop != [] {
      assert f.drop[0] in ActSet(f);
    }
  }

  /** An addition makes a flow due for a visit iff it changes the flow, and it makes no
      other flow due. */
  lemma AddDue(t: Table, sw: Switch, k: Key, acts: Ofpacts, cookie: nat, uuid: Uuid)
    requires HalfOk(t, sw)
    ensures TwoLists(t)
    ensures var t' := Add(t, k, acts, cookie, uuid);
            && (k !in t.modified ==> (k in t'.modified <==> t'.flows != t.flows))
            && forall j :: j != k ==> (j in t'.modified <==> j in t.modified)
  {
    hide MatchingAction, UpdateActions, InvalidateAll, Unstale;
    HalfIsTable(t, sw);
    var t' := Add(t, k, acts, cookie, uuid);
    var f := Touched(t, k);
    if Known(t, k, acts, uuid) {
      NothingKnown(t.active, acts);
      if !Moves(t, k) && k !in t.modified {
        UnstaleResting(sw, k, t.flows[k], MatchingAction(f, acts).value.id);
        assert t.flows[k := t.flows[k]] == t.flows;
      } else if Moves(t, k) {
        UnstaleList(t.flows[k].(list := t.active), 0);
        UnstaleList(f, MatchingAction(f, acts).value.id);
        assert t'.flows[k].list == t.active;
      }
    } else {
      NewActionShows(t, k, acts, cookie, uuid);
    }
  }

  lemma NothingKnown(list: nat, acts: Ofpacts)
    ensures MatchingAction(EmptyFlow(list), acts).None?
  {
  }

  lemma UnstaleResting(sw: Switch, k: Key, f: Flow, id: nat)
    requires Resting(sw, k, f)
    ensures Unstale(f, id) == f
  {
    RestaleSame(f, (a: Action) => a.stale && a.id != id);
  }

  lemma UnstaleList(f: Flow, id: nat)
    ensures Unstale(f, id).list == f.list && InvalidateAll(f).list == f.list
  {
  }

  lemma NewActionShows(t: Table, k: Key, acts: Ofpacts, cookie: nat, uuid: Uuid)
    requires TableOk(t)
    ensures var f := Touched(t, k);
            k in t.flows ==> UpdateActions(f, Action(t.nextId, acts, cookie, uuid, false)) != t.flows[k]
  {
    if k in t.flows {
      var was, f := t.flows[k], Touched(t, k);
      var g := UpdateActions(f, Action(t.nextId, acts, cookie, uuid, false));
      assert |f.allow| == |was.allow| && |f.drop| == |was.drop| && |f.conj| == |was.conj|;
      if IsNormal(acts) {
        if was.normal.Some? {
          var a := was.normal.value;
          assert (a.id, a.uuid) in Tags(was);
          assert Held(t, k, a.id, a.uuid);
        }
        assert g.normal.value.id == t.nextId;
      } else {
        assert |g.allow| + |g.drop| + |g.conj| == |was.allow| + |was.drop| + |was.conj| + 1;
      }
    }
  }
}
