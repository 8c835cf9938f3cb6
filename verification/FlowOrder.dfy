/** What the switch comes to hold, to the letter.

    A ledger is the reference: under each key the requests in the order in which
    they were made.  A switch of lists lets all of them lapse, and a populate forgets
    what has lapsed.  A request made again revives in its place if its owner was the
    first to ask for those actions; if somebody else was, it is entered anew each
    time.  There are no generation lists, slots, modified sets or indexes in it. */
module FlowOrder {
  import opened Common
  import opened OpenFlow
  import opened Seqs
  import opened FlowTable
  import opened FlowIndex
  import opened FlowRefinement

  // ---------- The reference ----------

  /** What kind of request a list of actions is, by its shape: nothing at all drops, a
      resubmit alone allows, any conjunction makes it one of several, and everything
      else is normal. */
  datatype Kind = Normal | Allow | Drop | Conj

  function KindOf(acts: Ofpacts): Kind {
    if acts == [] then Drop
    else if |acts| == 1 && acts[0].Resubmit? then Allow
    else if exists x :: x in acts && x.Conjunction? then Conj
    else Normal
  }

  datatype Asked = Asked(uuid: Uuid, acts: Ofpacts, live: bool)

  datatype Book = Book(normal: Option<Asked>, others: seq<Asked>)

  const NO_BOOK := Book(None, [])

  type Ledger = map<Key, Book>

  function BookAt(l: Ledger, k: Key): Book { if k in l then l[k] else NO_BOOK }

  /** The first entry with these actions decides: if it is the owner's own it revives
      where it stands; if there is none, or it is another's, the request goes to the
      end, even if the owner has an entry further on. */
  function Ask(s: seq<Asked>, uuid: Uuid, acts: Ofpacts): seq<Asked> {
    if s == [] then [Asked(uuid, acts, true)]
    else if s[0].acts != acts then [s[0]] + Ask(s[1..], uuid, acts)
    else if s[0].uuid == uuid then [s[0].(live := true)] + s[1..]
    else s + [Asked(uuid, acts, true)]
  }

  /** Who was the first to ask for these actions. */
  function FirstAsker(s: seq<Asked>, acts: Ofpacts): Option<Uuid> {
    if s == [] then None else if s[0].acts == acts then Some(s[0].uuid) else FirstAsker(s[1..], acts)
  }

  lemma {:induction false} AskAgain(s: seq<Asked>, uuid: Uuid, acts: Ofpacts)
    ensures var again := Ask(Ask(s, uuid, acts), uuid, acts);
            if FirstAsker(s, acts) in {None, Some(uuid)} then again == Ask(s, uuid, acts)
            else again == Ask(s, uuid, acts) + [Asked(uuid, acts, true)]
                   == s + [Asked(uuid, acts, true), Asked(uuid, acts, true)]
  {
    var x := Asked(uuid, acts, true);
    if s == [] {
      assert [x] == [x] + [];
    } else if s[0].acts != acts {
      AskAgain(s[1..], uuid, acts);
      assert Ask(s, uuid, acts) == [s[0]] + Ask(s[1..], uuid, acts);
      assert Ask(s, uuid, acts)[1..] == Ask(s[1..], uuid, acts);
      assert s == [s[0]] + s[1..];
    } else if s[0].uuid != uuid {
      assert (s + [x])[0] == s[0] && s + [x] + [x] == s + [x, x];
    }
  }

  /** There is one normal action at a time, the last one asked for. */
  function BookAdd(b: Book, acts: Ofpacts, uuid: Uuid): Book {
    if KindOf(acts) == Normal then b.(normal := Some(Asked(uuid, acts, true)))
    else b.(others := Ask(b.others, uuid, acts))
  }

  function IsLive(): Asked -> bool { (x: Asked) => x.live }

  function AskedByOther(uuid: Uuid): Asked -> bool { (x: Asked) => x.uuid != uuid }

  function BookKeep(b: Book, p: Asked -> bool): Book {
    Book(if b.normal.Some? && p(b.normal.value) then b.normal else None, Filter(b.others, p))
  }

  function LapseAll(s: seq<Asked>): seq<Asked> {
    seq(|s|, i requires 0 <= i < |s| => s[i].(live := false))
  }

  function Lapsed(b: Book): Book {
    Book(if b.normal.Some? then Some(b.normal.value.(live := false)) else None, LapseAll(b.others))
  }

  function LedgerStep(l: Ledger, logical: bool, op: Op): Ledger {
    match op
    case SwitchTables(h) => if h == logical then map k | k in l :: Lapsed(l[k]) else l
    case AddOflow(h, k, acts, _, uuid) => if h == logical then l[k := BookAdd(BookAt(l, k), acts, uuid)] else l
    case RemoveOflows(h, uuid) => if h == logical then map k | k in l :: BookKeep(l[k], AskedByOther(uuid)) else l
    case Populate(_, _) => map k | k in l :: BookKeep(l[k], IsLive())
  }

  function LedgerRun(l: Ledger, logical: bool, ops: seq<Op>): Ledger
    decreases |ops|
  {
    if ops == [] then l else LedgerRun(LedgerStep(l, logical, ops[0]), logical, ops[1..])
  }

  /** Making a request a second time changes nothing iff it is a normal action, or its
      owner is the first to ask for those actions under the key. */
  lemma RepeatIdle(l: Ledger, h: bool, k: Key, acts: Ofpacts, cookie: nat, uuid: Uuid)
    ensures var op := AddOflow(h, k, acts, cookie, uuid);
            var once := LedgerStep(l, h, op);
            LedgerStep(once, h, op) == once <==>
              KindOf(acts) == Normal || FirstAsker(BookAt(l, k).others, acts) in {None, Some(uuid)}
  {
    hide Ask, FirstAsker;
    var s := BookAt(l, k).others;
    AskAgain(s, uuid, acts);
    var op := AddOflow(h, k, acts, cookie, uuid);
    var once := LedgerStep(l, h, op);
    var twice := LedgerStep(once, h, op);
    assert once[k] == BookAdd(BookAt(l, k), acts, uuid) && twice == once[k := BookAdd(once[k], acts, uuid)];
    if KindOf(acts) != Normal {
      assert twice == once <==> Ask(Ask(s, uuid, acts), uuid, acts) == Ask(s, uuid, acts);
    }
  }

  function OfKind(c: Kind): Asked -> bool { (x: Asked) => KindOf(x.acts) == c }

  function OfLive(c: Kind): Asked -> bool { (x: Asked) => KindOf(x.acts) == c && x.live }

  function LiveOfKind(b: Book, c: Kind): seq<Asked> { Filter(b.others, OfLive(c)) }

  function Joined(s: seq<Asked>): Ofpacts { if s == [] then [] else s[0].acts + Joined(s[1..]) }

  /** The actions to be installed: those of the normal action; else those of the
      first allow; else none, to drop; else all conjunctions in order. */
  function Means(b: Book): Option<Ofpacts> {
    if b.normal.Some? && b.normal.value.live then Some(b.normal.value.acts)
    else if LiveOfKind(b, Allow) != [] then Some(LiveOfKind(b, Allow)[0].acts)
    else if LiveOfKind(b, Drop) != [] then Some([])
    else if LiveOfKind(b, Conj) != [] then Some(Joined(LiveOfKind(b, Conj)))
    else None
  }

  /** The switch holds exactly the keys that mean something, with those actions; no
      key means something in both halves. */
  ghost predicate Exact(sw: Switch, ll: Ledger, lp: Ledger) {
    forall k ::
      var (m, n) := (Means(BookAt(ll, k)), Means(BookAt(lp, k)));
      && (m.None? || n.None?)
      && (k in sw <==> m.Some? || n.Some?)
      && (k in sw ==> Some(sw[k].acts) == if m.Some? then m else n)
  }

  // ---------- A table and the ledger ----------

  /** The flow keeps its requests by kind, but for the normal one. */
  function Slot(f: Flow, c: Kind): seq<Action> {
    match c
    case Normal => []
    case Allow => f.allow
    case Drop => f.drop
    case Conj => f.conj
  }

  function Seen(a: Action, on: bool): Asked { Asked(a.uuid, a.acts, on && !a.stale) }

  function View(s: seq<Action>, on: bool): seq<Asked> {
    seq(|s|, i requires 0 <= i < |s| => Seen(s[i], on))
  }

  /** The flow holds the requests of the book, slot by slot and in order. */
  ghost predicate Holds(f: Flow, on: bool, b: Book) {
    && b.normal == (if f.normal.Some? then Some(Seen(f.normal.value, on)) else None)
    && forall c: Kind :: Filter(b.others, OfKind(c)) == View(Slot(f, c), on)
  }

  /** Flows on the old list have lapsed, whatever their stale marks say. */
  ghost predicate HoldsAt(t: Table, k: Key, b: Book) {
    if k in t.flows then Holds(t.flows[k], t.flows[k].list == t.active, b) else b == NO_BOOK
  }

  ghost predicate Books(t: Table, l: Ledger) { forall k :: HoldsAt(t, k, BookAt(l, k)) }

  ghost predicate Booked(s: System, ll: Ledger, lp: Ledger) { Books(s.l, ll) && Books(s.p, lp) }

  // ---------- Sequences ----------

  lemma ViewTail(s: seq<Action>, on: bool)
    requires s != []
    ensures View(s, on) == [Seen(s[0], on)] + View(s[1..], on)
  {
  }

  lemma {:induction false} ViewFilter(s: seq<Action>, on: bool, p: Action -> bool, q: Asked -> bool)
    requires forall a :: a in s ==> p(a) == q(Seen(a, on))
    ensures View(Filter(s, p), on) == Filter(View(s, on), q)
  {
    hide View;
    if s == [] {
      assert View(s, on) == [] by { ViewNone(on); }
    } else {
      assert forall a :: a in s[1..] ==> a in s;
      ViewFilter(s[1..], on, p, q);
      ViewTail(s, on);
      assert s[0] in s;
      assert View(s, on)[1..] == View(s[1..], on);
      if p(s[0]) {
        ViewTail(Filter(s, p), on);
        assert Filter(s, p)[1..] == Filter(s[1..], p);
      } else {
        assert Filter(s, p) == Filter(s[1..], p);
      }
    }
  }

  lemma ViewNone(on: bool)
    ensures View([], on) == []
  {
  }

  lemma FilterSwap(s: seq<Asked>, p: Asked -> bool, q: Asked -> bool)
    ensures Filter(Filter(s, p), q) == Filter(Filter(s, q), p)
  {
    var r := (x: Asked) => p(x) && q(x);
    FilterTwice(s, p, q, r);
    FilterTwice(s, q, p, r);
  }

  lemma {:induction false} FilterLapse(s: seq<Asked>, c: Kind)
    ensures Filter(LapseAll(s), OfKind(c)) == LapseAll(Filter(s, OfKind(c)))
  {
    if s != [] {
      FilterLapse(s[1..], c);
      assert LapseAll(s)[1..] == LapseAll(s[1..]);
      assert LapseAll([s[0]] + Filter(s[1..], OfKind(c))) == LapseAll([s[0]]) + LapseAll(Filter(s[1..], OfKind(c)));
      assert LapseAll([s[0]]) == [LapseAll(s)[0]];
    }
  }

  lemma AskCons(x: Asked, s: seq<Asked>, uuid: Uuid, acts: Ofpacts)
    ensures Ask([x] + s, uuid, acts) ==
            if x.acts != acts then [x] + Ask(s, uuid, acts)
            else if x.uuid == uuid then [x.(live := true)] + s
            else [x] + s + [Asked(uuid, acts, true)]
  {
    assert ([x] + s)[1..] == s;
  }

  /** Asking for one kind leaves the others alone. */
  lemma {:induction false} AskFilter(s: seq<Asked>, uuid: Uuid, acts: Ofpacts, c: Kind)
    ensures Filter(Ask(s, uuid, acts), OfKind(c)) ==
            if KindOf(acts) == c then Ask(Filter(s, OfKind(c)), uuid, acts) else Filter(s, OfKind(c))
  {
    hide KindOf, Ask, Filter;
    var x, p := Asked(uuid, acts, true), OfKind(c);
    if s == [] {
      AskNothing(uuid, acts, p);
    } else {
      var y, r := s[0], s[1..];
      assert s == [y] + r;
      AskCons(y, r, uuid, acts);
      FilterCons(y, r, p);
      AskCons(y, Filter(r, p), uuid, acts);
      if y.acts != acts {
        AskFilter(r, uuid, acts, c);
        FilterCons(y, Ask(r, uuid, acts), p);
        assert [] + Filter(r, p) == Filter(r, p) && [] + Filter(Ask(r, uuid, acts), p) == Filter(Ask(r, uuid, acts), p);
      } else if y.uuid == uuid {
        FilterCons(y.(live := true), r, p);
      } else {
        FilterAppend(s, x, p);
      }
    }
  }

  lemma AskNothing(uuid: Uuid, acts: Ofpacts, p: Asked -> bool)
    ensures Ask([], uuid, acts) == [Asked(uuid, acts, true)] && Filter([], p) == []
    ensures Filter([Asked(uuid, acts, true)], p) == if p(Asked(uuid, acts, true)) then [Asked(uuid, acts, true)] else []
  {
  }

  /** A new action goes to the end of its slot. */
  lemma {:induction false} AskNew(s: seq<Action>, a: Action)
    requires !a.stale && (FindActs(s, a.acts).Some? ==> FindActs(s, a.acts).value.uuid != a.uuid)
    ensures View(s + [a], true) == Ask(View(s, true), a.uuid, a.acts)
  {
    if s == [] {
      assert s + [a] == [a];
    } else {
      ViewTail(s, true);
      assert (s + [a])[1..] == s[1..] + [a];
      ViewTail(s + [a], true);
      assert View(s, true)[1..] == View(s[1..], true);
      if s[0].acts != a.acts {
        AskNew(s[1..], a);
      } else {
        assert View(s[1..] + [a], true) == View(s[1..], true) + [Seen(a, true)];
      }
    }
  }

  /** A known action is refreshed where it is. */
  lemma {:induction false} AskKnown(s: seq<Action>, acts: Ofpacts, uuid: Uuid, id: nat)
    requires NoDupIds(s) && FindActs(s, acts).Some? && FindActs(s, acts).value.uuid == uuid
    requires FindActs(s, acts).value.id == id
    ensures View(RestaleSeq(s, (a: Action) => a.stale && a.id != id), true) == Ask(View(s, true), uuid, acts)
  {
    var p := (a: Action) => a.stale && a.id != id;
    var r := RestaleSeq(s, p);
    ViewTail(s, true);
    ViewTail(r, true);
    assert View(s, true)[1..] == View(s[1..], true);
    assert r[1..] == RestaleSeq(s[1..], p);
    if s[0].acts == acts {
      assert forall i :: 0 <= i < |s[1..]| ==> s[1..][i].id != id;
      assert RestaleSeq(s[1..], p) == s[1..];
    } else {
      AskKnown(s[1..], acts, uuid, id);
      var m := FindActs(s[1..], acts).value;
      var j :| 0 <= j < |s[1..]| && s[1..][j] == m;
      assert s[j + 1].id == id && s[0].id != id;
    }
  }

  // ---------- Each operation ----------

  /** The classes the program tells apart are the kinds. */
  lemma KindIs(acts: Ofpacts)
    ensures IsDrop(acts) <==> KindOf(acts) == Drop
    ensures IsAllow(acts) <==> KindOf(acts) == Allow
    ensures IsConj(acts) && !IsAllow(acts) && !IsDrop(acts) <==> KindOf(acts) == Conj
    ensures IsNormal(acts) <==> KindOf(acts) == Normal
  {
    if IsConj(acts) {
      var i :| 0 <= i < |acts| && acts[i].Conjunction?;
      assert acts[i] in acts;
    }
  }

  lemma RestaleOther(s: seq<Action>, id: nat)
    requires forall a :: a in s ==> a.id != id
    ensures RestaleSeq(s, (a: Action) => a.stale && a.id != id) == s
  {
    assert forall i :: 0 <= i < |s| ==> s[i] in s;
  }

  lemma TouchedHolds(t: Table, k: Key, b: Book)
    requires HoldsAt(t, k, b)
    ensures Holds(Touched(t, k), true, b)
  {
    if Moves(t, k) {
      var f, g := t.flows[k], Touched(t, k);
      forall c: Kind ensures View(Slot(g, c), true) == View(Slot(f, c), false) {
      }
    } else if k !in t.flows {
      forall c: Kind ensures Filter(b.others, OfKind(c)) == View(Slot(Touched(t, k), c), true) {
      }
    }
  }

  /** Where the action matched by an add is, and where it is not. */
  lemma KnownPlace(f: Flow, acts: Ofpacts, c: Kind)
    requires FlowOk(f) && MatchingAction(f, acts).Some?
    ensures var m := MatchingAction(f, acts).value;
            && NoDupIds(Slot(f, c))
            && (KindOf(acts) == c && c != Normal ==> FindActs(Slot(f, c), acts) == Some(m))
            && (KindOf(acts) != c || c == Normal ==> forall a :: a in Slot(f, c) ==> a.id != m.id)
  {
    ClassesExclusive(acts);
    KindIs(acts);
    MatchPlace(f, acts);
    var m := MatchingAction(f, acts).value;
    forall a | a in Slot(f, c) && KindOf(acts) != c ensures a.id != m.id {
      ClassesExclusive(a.acts);
      KindIs(a.acts);
    }
  }

  lemma UnstaleHolds(f: Flow, b: Book, acts: Ofpacts)
    requires FlowOk(f) && MatchingAction(f, acts).Some? && Holds(f, true, b)
    ensures var m := MatchingAction(f, acts).value; Holds(Unstale(f, m.id), true, BookAdd(b, acts, m.uuid))
  {
    hide FlowOk, NoDupIds, View, FindActs, KindOf, IsNormal;
    var m := MatchingAction(f, acts).value;
    var g := Unstale(f, m.id);
    MatchPlace(f, acts);
    KindIs(acts);
    forall c: Kind ensures Filter(BookAdd(b, acts, m.uuid).others, OfKind(c)) == View(Slot(g, c), true) {
      KnownPlace(f, acts, c);
      AskFilter(b.others, m.uuid, acts, c);
      assert Slot(g, c) == RestaleSeq(Slot(f, c), (a: Action) => a.stale && a.id != m.id) by {
        UnstaleSlot(f, m.id, c);
      }
      if KindOf(acts) == c && c != Normal {
        AskKnown(Slot(f, c), acts, m.uuid, m.id);
      } else {
        RestaleOther(Slot(f, c), m.id);
      }
    }
  }

  lemma UnstaleSlot(f: Flow, id: nat, c: Kind)
    ensures Slot(Unstale(f, id), c) == RestaleSeq(Slot(f, c), (a: Action) => a.stale && a.id != id)
  {
  }

  lemma UpdateSlot(f: Flow, a: Action, c: Kind)
    ensures Slot(UpdateActions(f, a), c)
         == if KindOf(a.acts) == c && c != Normal then Slot(f, c) + [a] else Slot(f, c)
    ensures KindOf(a.acts) == c && c != Normal ==> MatchingAction(f, a.acts) == FindActs(Slot(f, c), a.acts)
  {
    ClassesExclusive(a.acts);
    KindIs(a.acts);
  }

  lemma UpdateHolds(f: Flow, b: Book, a: Action)
    requires Holds(f, true, b) && !a.stale
    requires MatchingAction(f, a.acts).Some? ==> MatchingAction(f, a.acts).value.uuid != a.uuid
    ensures Holds(UpdateActions(f, a), true, BookAdd(b, a.acts, a.uuid))
  {
    hide View, FindActs, KindOf, MatchingAction;
    var g := UpdateActions(f, a);
    KindIs(a.acts);
    forall c: Kind ensures Filter(BookAdd(b, a.acts, a.uuid).others, OfKind(c)) == View(Slot(g, c), true) {
      AskFilter(b.others, a.uuid, a.acts, c);
      UpdateSlot(f, a, c);
      if KindOf(a.acts) == c && c != Normal { AskNew(Slot(f, c), a); }
    }
  }

  lemma AddBooks(t: Table, l: Ledger, k: Key, acts: Ofpacts, cookie: nat, uuid: Uuid)
    requires CoreOk(t) && Books(t, l)
    ensures Books(Add(t, k, acts, cookie, uuid), l[k := BookAdd(BookAt(l, k), acts, uuid)])
  {
    hide Holds, Unstale, UpdateActions, FlowOk, RequeuedLists, Linked;
    var t', f, b := Add(t, k, acts, cookie, uuid), Touched(t, k), BookAt(l, k);
    AddShape(t, k, acts, cookie, uuid);
    TouchedOk(t, k);
    assert HoldsAt(t, k, b);
    TouchedHolds(t, k, b);
    assert Holds(t'.flows[k], true, BookAdd(b, acts, uuid)) by {
      if Known(t, k, acts, uuid) {
        UnstaleHolds(f, b, acts);
      } else {
        UpdateHolds(f, b, Action(t.nextId, acts, cookie, uuid, false));
      }
    }
    var l' := l[k := BookAdd(b, acts, uuid)];
    forall j ensures HoldsAt(t', j, BookAt(l', j)) {
      assert HoldsAt(t, j, BookAt(l, j));
    }
  }

  lemma KeepHolds(f: Flow, on: bool, b: Book, p: Action -> bool, q: Asked -> bool)
    requires Holds(f, on, b) && forall a: Action :: p(a) == q(Seen(a, on))
    ensures Holds(Keep(f, p), on, BookKeep(b, q))
  {
    hide View, KindOf;
    forall c: Kind ensures Filter(BookKeep(b, q).others, OfKind(c)) == View(Slot(Keep(f, p), c), on) {
      FilterSwap(b.others, q, OfKind(c));
      ViewFilter(Slot(f, c), on, p, q);
    }
  }

  lemma RemoveBooks(t: Table, l: Ledger, uuid: Uuid)
    requires TableOk(t) && Books(t, l)
    ensures Books(Remove(t, uuid), map k | k in l :: BookKeep(l[k], AskedByOther(uuid)))
  {
    hide Holds, Keep, Linked, FlowOk, ActSet;
    RemoveExact(t, uuid);
    var t', l' := Remove(t, uuid), map k | k in l :: BookKeep(l[k], AskedByOther(uuid));
    forall k ensures HoldsAt(t', k, BookAt(l', k)) {
      assert HoldsAt(t, k, BookAt(l, k));
      if k in t.flows {
        KeepHolds(t.flows[k], t.flows[k].list == t.active, BookAt(l, k), NotOf(uuid), AskedByOther(uuid));
        KeepRemembers(t.flows[k], NotOf(uuid));
      }
      assert BookAt(l', k) == BookKeep(BookAt(l, k), AskedByOther(uuid));
    }
  }

  lemma LapsedHolds(f: Flow, b: Book)
    requires Holds(f, true, b)
    ensures Holds(f, false, Lapsed(b))
  {
    forall c: Kind ensures Filter(Lapsed(b).others, OfKind(c)) == View(Slot(f, c), false) {
      FilterLapse(b.others, c);
      assert View(Slot(f, c), false) == LapseAll(View(Slot(f, c), true));
    }
  }

  /** A flow without actions has an empty book, on or off. */
  lemma EmptyHolds(f: Flow, on: bool, b: Book)
    requires !HasActions(f)
    ensures Holds(f, on, b) <==> b == NO_BOOK
  {
    if Holds(f, on, b) { NoOthers(b, (x: Asked) => true); FilterAll(b.others, (x: Asked) => true); }
    if b == NO_BOOK {
      forall c: Kind ensures Filter(b.others, OfKind(c)) == View(Slot(f, c), on) {
      }
    }
  }

  /** What is in no kind is nowhere. */
  lemma NoOthers(b: Book, p: Asked -> bool)
    requires forall c: Kind :: forall x :: x in Filter(b.others, OfKind(c)) ==> !p(x)
    ensures Filter(b.others, p) == []
  {
    forall x | x in b.others ensures !p(x) {
      assert x in Filter(b.others, OfKind(KindOf(x.acts)));
    }
    FilterNone(b.others, p);
  }

  lemma SwitchBooks(t: Table, l: Ledger)
    requires Listed(t) && Books(t, l) && forall k :: k in t.lists[Old(t)] ==> !HasActions(t.flows[k])
    ensures Books(SwitchLists(t), map k | k in l :: Lapsed(l[k]))
  {
    hide Holds;
    var t', l' := SwitchLists(t), map k | k in l :: Lapsed(l[k]);
    forall k ensures HoldsAt(t', k, BookAt(l', k)) {
      var b := BookAt(l, k);
      assert HoldsAt(t, k, b) && BookAt(l', k) == Lapsed(b);
      if k in t.flows {
        if t.flows[k].list == t.active {
          LapsedHolds(t.flows[k], b);
        } else {
          assert k in t.lists[Old(t)];
          EmptyHolds(t.flows[k], false, b);
          EmptyHolds(t.flows[k], true, Lapsed(b));
        }
      }
    }
  }

  lemma VisitedHolds(f: Flow, b: Book)
    requires Holds(f, true, b)
    ensures Holds(Visited(f), true, BookKeep(b, IsLive()))
    ensures !HasActions(Visited(f)) ==> BookKeep(b, IsLive()) == NO_BOOK
  {
    hide Holds, Effective;
    var p := (a: Action) => !a.stale;
    KeepHolds(f, true, b, p, IsLive());
    SameHolds(DeleteStale(f), Visited(f), BookKeep(b, IsLive()));
    if !HasActions(Visited(f)) { EmptyHolds(Visited(f), true, BookKeep(b, IsLive())); }
  }

  lemma SameHolds(f: Flow, g: Flow, b: Book)
    requires Holds(f, true, b) && g == f.(installed := g.installed, activeCookie := g.activeCookie)
    ensures Holds(g, true, b)
  {
    assert forall c: Kind :: Slot(g, c) == Slot(f, c);
  }

  lemma AllSeen(f: Flow, c: Kind)
    requires forall a :: a in ActSet(f) ==> !a.stale
    ensures forall x :: x in View(Slot(f, c), true) ==> x.live
  {
    forall x | x in View(Slot(f, c), true) ensures x.live {
      var i :| 0 <= i < |Slot(f, c)| && View(Slot(f, c), true)[i] == x;
      assert Slot(f, c)[i] in ActSet(f);
    }
  }

  /** Nothing stale, nothing to forget. */
  lemma FreshKept(f: Flow, b: Book)
    requires Holds(f, true, b) && forall a :: a in ActSet(f) ==> !a.stale
    ensures BookKeep(b, IsLive()) == b
  {
    forall x | x in b.others ensures x.live {
      AllSeen(f, KindOf(x.acts));
      assert x in Filter(b.others, OfKind(KindOf(x.acts)));
    }
    FilterAll(b.others, IsLive());
    if f.normal.Some? { assert f.normal.value in ActSet(f); }
  }

  lemma LapsedForgotten(f: Flow, b: Book)
    requires Holds(f, false, b)
    ensures BookKeep(b, IsLive()) == NO_BOOK
  {
    forall c: Kind, x | x in Filter(b.others, OfKind(c)) ensures !x.live {
      assert x in View(Slot(f, c), false);
    }
    NoOthers(b, IsLive());
  }

  lemma PopulateBooks(t: Table, l: Ledger, order: seq<Key>)
    requires TableOk(t) && Books(t, l)
    requires OldListed(t) && TwoLists(PopulateOld(t)) && Enumerates(order, PopulateOld(t).modified)
    ensures Books(PopulateModified(PopulateOld(t), order), map k | k in l :: BookKeep(l[k], IsLive()))
  {
    hide Holds, PopulateOld, HandleAll, Linked, FlowOk, Visited, ActSet, HasActions, BookKeep;
    PopulateOldEffect(t);
    HandleAllEffect(PopulateOld(t), order);
    var t', l' := PopulateModified(PopulateOld(t), order), map k | k in l :: BookKeep(l[k], IsLive());
    forall k ensures HoldsAt(t', k, BookAt(l', k)) {
      var b := BookAt(l, k);
      assert HoldsAt(t, k, b);
      assert BookAt(l', k) == BookKeep(b, IsLive()) by { NoneKept(); }
      if k in t.flows {
        var f := t.flows[k];
        if k in t.lists[Old(t)] {
          LapsedForgotten(f, b);
        } else if k in order {
          VisitedHolds(f, b);
          VisitedLive(f);
        } else {
          FreshKept(f, b);
        }
      } else {
        NoneKept();
      }
    }
  }

  lemma NoneKept()
    ensures BookKeep(NO_BOOK, IsLive()) == NO_BOOK
  {
  }

  /** Every legal step keeps controller, switch and ledgers together. */
  lemma StepBooked(s: System, ll: Ledger, lp: Ledger, op: Op)
    requires SysOk(s) && Booked(s, ll, lp) && Legal(s, op)
    ensures SysOk(Step(s, op)) && Booked(Step(s, op), LedgerStep(ll, true, op), LedgerStep(lp, false, op))
    ensures op.Populate? ==> Quiet(Step(s, op).l) && Quiet(Step(s, op).p)
  {
    hide Books, Quiet, Linked, FlowOk, StaleTracked, Mirrors;
    hide Resting, LapseAll, BookAdd, BookKeep, PopulateMsgs, HasActions;
    SysStep(s, op);
    match op
    case SwitchTables(h) => SwitchBooks(Half(s, h), if h then ll else lp);
    case AddOflow(h, k, acts, cookie, uuid) => AddBooks(Half(s, h), if h then ll else lp, k, acts, cookie, uuid);
    case RemoveOflows(h, uuid) => RemoveBooks(Half(s, h), if h then ll else lp, uuid);
    case Populate(ol, op_) =>
      FitPopulates(s.l);
      FitPopulates(s.p);
      PopulateBooks(s.l, ll, ol);
      PopulateBooks(s.p, lp, op_);
  }

  lemma {:induction false} RunBooked(s: System, ll: Ledger, lp: Ledger, ops: seq<Op>)
    requires SysOk(s) && Booked(s, ll, lp) && LegalRun(s, ops)
    ensures var s' := Run(s, ops); SysOk(s') && Booked(s', LedgerRun(ll, true, ops), LedgerRun(lp, false, ops))
    ensures ops != [] && ops[|ops| - 1].Populate? ==> Quiet(Run(s, ops).l) && Quiet(Run(s, ops).p)
    decreases |ops|
  {
    hide SysOk, Booked, Legal, Step, LedgerStep, Quiet;
    if ops != [] {
      StepBooked(s, ll, lp, ops[0]);
      RunBooked(Step(s, ops[0]), LedgerStep(ll, true, ops[0]), LedgerStep(lp, false, ops[0]), ops[1..]);
      assert |ops| > 1 ==> ops[1..][|ops| - 2] == ops[|ops| - 1];
    }
  }

  // ---------- What a settled flow has installed ----------

  lemma {:induction false} JoinedView(s: seq<Action>)
    ensures Joined(View(s, true)) == ConcatActs(s)
  {
    if s != [] {
      ViewTail(s, true);
      JoinedView(s[1..]);
      assert View(s, true)[1..] == View(s[1..], true);
    }
  }

  lemma LiveSlot(f: Flow, b: Book, c: Kind)
    requires Holds(f, true, b) && forall a :: a in ActSet(f) ==> !a.stale
    ensures LiveOfKind(b, c) == View(Slot(f, c), true)
  {
    AllSeen(f, c);
    FilterTwice(b.others, OfKind(c), IsLive(), (x: Asked) => KindOf(x.acts) == c && x.live);
    FilterAll(View(Slot(f, c), true), IsLive());
  }

  lemma MeansEffective(f: Flow, b: Book)
    requires Slotted(f) && Holds(f, true, b) && forall a :: a in ActSet(f) ==> !a.stale
    ensures Means(b) == if Effective(f).Some? then Some(Effective(f).value.acts) else None
  {
    hide LiveOfKind;
    LiveSlot(f, b, Allow);
    LiveSlot(f, b, Drop);
    LiveSlot(f, b, Conj);
    JoinedView(f.conj);
    if f.normal.Some? { assert f.normal.value in ActSet(f); }
    if f.drop != [] { assert f.drop[0] in f.drop; }
  }

  lemma LapsedMeans(b: Book)
    requires b.normal.Some? ==> !b.normal.value.live
    requires forall x :: x in b.others ==> !x.live
    ensures Means(b) == None
  {
    forall c: Kind ensures LiveOfKind(b, c) == [] {
      FilterNone(b.others, (x: Asked) => KindOf(x.acts) == c && x.live);
    }
  }

  lemma QuietExactHalf(t: Table, sw: Switch, l: Ledger, k: Key)
    requires HalfOk(t, sw) && Quiet(t) && Books(t, l)
    ensures k in t.flows ==>
              var m := Means(BookAt(l, k)); (k in sw <==> m.Some?) && (k in sw ==> Some(sw[k].acts) == m)
    ensures k !in t.flows ==> Means(BookAt(l, k)) == None
  {
    hide Means, ActSet, Effective, Linked, Holds;
    assert HoldsAt(t, k, BookAt(l, k));
    if k in t.flows {
      var f := t.flows[k];
      assert f.list == t.active by { assert k !in t.lists[Old(t)]; }
      assert Resting(sw, k, f);
      EffectiveIff(f);
      MeansEffective(f, BookAt(l, k));
    } else {
      LapsedMeans(NO_BOOK);
    }
  }

  lemma QuietExact(s: System, ll: Ledger, lp: Ledger)
    requires SysOk(s) && Booked(s, ll, lp) && Quiet(s.l) && Quiet(s.p)
    ensures Exact(s.sw, ll, lp)
  {
    hide Quiet, Means, HalfOk, BookAt, Books;
    forall k
      ensures var (m, n) := (Means(BookAt(ll, k)), Means(BookAt(lp, k)));
              && (m.None? || n.None?)
              && (k in s.sw <==> m.Some? || n.Some?)
              && (k in s.sw ==> Some(s.sw[k].acts) == if m.Some? then m else n)
    {
      QuietExactHalf(s.l, s.sw, ll, k);
      QuietExactHalf(s.p, s.sw, lp, k);
    }
  }

  lemma InitialBooked()
    ensures SysOk(INITIAL) && Booked(INITIAL, map[], map[])
  {
    InitialOk();
  }

  /** MAIN RESULT.  Over every legal run, once a populate's messages have been
      applied the switch holds a key iff a live request stands under it, and its
      actions are exactly those of the normal action, else of the first allow still
      asked for, else none, else all conjunctions in the order asked for. */
  lemma SwitchRefines(ops: seq<Op>)
    requires LegalRun(INITIAL, ops) && ops != [] && ops[|ops| - 1].Populate?
    ensures Exact(Run(INITIAL, ops).sw, LedgerRun(map[], true, ops), LedgerRun(map[], false, ops))
  {
    hide Exact, SysOk, Booked, Quiet, LegalRun, Run;
    InitialBooked();
    RunBooked(INITIAL, map[], map[], ops);
    QuietExact(Run(INITIAL, ops), LedgerRun(map[], true, ops), LedgerRun(map[], false, ops));
  }

  // ---------- The ledger and the goal ----------

  /** The live requests of a book, as sets. */
  ghost function WantOf(b: Book): Want {
    Want(if b.normal.Some? && b.normal.value.live then Some((b.normal.value.uuid, b.normal.value.acts)) else None,
         LiveSet(b.others))
  }

  ghost function LiveSet(s: seq<Asked>): set<(Uuid, Ofpacts)> {
    set x | x in s && x.live :: (x.uuid, x.acts)
  }

  lemma {:induction false} AskLive(s: seq<Asked>, uuid: Uuid, acts: Ofpacts)
    ensures LiveSet(Ask(s, uuid, acts)) == LiveSet(s) + {(uuid, acts)}
  {
    if s != [] {
      var y, r := s[0], s[1..];
      assert s == [y] + r;
      if y.acts != acts {
        AskLive(r, uuid, acts);
        assert LiveSet([y] + Ask(r, uuid, acts)) == LiveSet([y]) + LiveSet(Ask(r, uuid, acts));
        assert LiveSet(s) == LiveSet([y]) + LiveSet(r);
      } else if y.uuid == uuid {
        assert LiveSet(s) == LiveSet([y]) + LiveSet(r);
        assert y.(live := true) in [y.(live := true)] + r;
        assert LiveSet([y.(live := true)] + r) == {(uuid, acts)} + LiveSet(r);
      } else {
        assert Asked(uuid, acts, true) in s + [Asked(uuid, acts, true)];
      }
    }
  }

  lemma LedgerGoalStep(l: Ledger, g: Goal, h: bool, op: Op)
    requires forall k :: At(g, k) == WantOf(BookAt(l, k))
    ensures forall k :: At(GoalStep(g, h, op), k) == WantOf(BookAt(LedgerStep(l, h, op), k))
  {
    forall k ensures At(GoalStep(g, h, op), k) == WantOf(BookAt(LedgerStep(l, h, op), k)) {
      assert At(g, k) == WantOf(BookAt(l, k));
      LedgerGoalAt(l, g, h, op, k);
    }
  }

  lemma LedgerGoalAt(l: Ledger, g: Goal, h: bool, op: Op, k: Key)
    requires At(g, k) == WantOf(BookAt(l, k))
    ensures At(GoalStep(g, h, op), k) == WantOf(BookAt(LedgerStep(l, h, op), k))
  {
    hide LiveSet, Filter, Ask, LapseAll;
    var b := BookAt(l, k);
    match op
    case SwitchTables(_) => LapsedLive(b.others);
    case AddOflow(_, _, acts, _, uuid) => AskLive(b.others, uuid, acts);
    case RemoveOflows(_, uuid) => KeptLive(b.others, uuid);
    case Populate(_, _) => KeptLive(b.others, 0);
  }

  lemma LapsedLive(s: seq<Asked>)
    ensures LiveSet(LapseAll(s)) == {}
    ensures LiveSet([]) == {}
  {
  }

  lemma KeptLive(s: seq<Asked>, uuid: Uuid)
    ensures LiveSet(Filter(s, AskedByOther(uuid))) == set x | x in LiveSet(s) && x.0 != uuid
    ensures LiveSet(Filter(s, IsLive())) == LiveSet(s)
    ensures LiveSet([]) == {}
  {
  }

  /** The goal of a run is the set of live requests in its ledger. */
  lemma {:induction false} LedgerGoal(l: Ledger, g: Goal, h: bool, ops: seq<Op>)
    requires forall k :: At(g, k) == WantOf(BookAt(l, k))
    ensures forall k :: At(GoalRun(g, h, ops), k) == WantOf(BookAt(LedgerRun(l, h, ops), k))
    decreases |ops|
  {
    hide At, BookAt, WantOf, GoalStep, LedgerStep;
    if ops != [] {
      LedgerGoalStep(l, g, h, ops[0]);
      LedgerGoal(LedgerStep(l, h, ops[0]), GoalStep(g, h, ops[0]), h, ops[1..]);
    }
  }
}
