/** Which decision a job gets, and which cards: from what nobody holds when its
    turn comes, and from nothing else. */
module Choices {
  import opened Lists
  import opened Preempt
  import opened Rule
  import opened RuleTheorems

  // What there is for a job when its turn comes.

  /** The cards on their way back that nobody holds and the job may use. */
  function ComingFor(h: Host, t: State, borrows: bool): seq<Uuid> {
    Without(Unheld(h.coming, t), if borrows then {} else h.shared)
  }

  /** The free cards of one kind not held for a covered job. */
  function Open(cards: seq<Uuid>, t: State): (open: seq<Uuid>)
    ensures forall c :: c in open <==> c in cards && !(c in t.held && t.held[c] in t.covered)
  {
    Without(cards, Covered(t))
  }

  function OpenFor(t: State, borrows: bool): nat {
    |Open(t.ownedFree, t)| + if borrows then |Open(t.sharedFree, t)| else 0
  }

  /** The cards the host has for such a job, whoever is on them; and how many of
      them nobody else is on. */
  function Capacity(h: Host, borrows: bool): nat {
    h.ownedPresent + if borrows then h.sharedVisible else 0
  }

  function WithoutTheirs(h: Host, t: State, borrows: bool): int {
    Capacity(h, borrows) - if borrows then t.theirs else 0
  }

  /** The job could have its cards now. */
  predicate CanHave(t: State, r: Request) {
    r.gpus <= UnheldFor(t, r.borrows)
  }

  /** Not even with every card on its way back. */
  predicate ShortOf(h: Host, t: State, r: Request) {
    UnheldFor(t, r.borrows) + |ComingFor(h, t, r.borrows)| < r.gpus
  }

  /** It may sit on cards held for others meanwhile. */
  predicate MayFill(h: Host, t: State, r: Request) {
    r.fills && ShortOf(h, t, r) && r.gpus <= OpenFor(t, r.borrows)
  }

  lemma {:induction false} FreeCount(t: State, r: Request)
    ensures |Free(t, r)| == if CanHave(t, r) then r.gpus else UnheldFor(t, r.borrows)
    ensures Fits(t, r) <==> CanHave(t, r)
  {
  }

  lemma {:induction false} WithoutBoth(cards: seq<Uuid>, x: set<Uuid>, y: set<Uuid>)
    ensures Without(Without(cards, x), y) == Without(cards, x + y)
  {
    WithoutTwice(cards, x, y);
  }

  lemma {:induction false} ReturningCount(h: Host, t: State, r: Request)
    ensures |Returning(h, t, r)| == |ComingFor(h, t, r.borrows)|
  {
    var other := if r.borrows then {} else h.shared;
    WithoutBoth(h.coming, t.held.Keys, other);
    SplitCount(Without(h.coming, t.held.Keys + other), h.shared);
  }

  lemma {:induction false} GapCount(h: Host, t: State, r: Request)
    ensures !CanHave(t, r) ==>
      Gap(h, t, r) == if ShortOf(h, t, r) then r.gpus - UnheldFor(t, r.borrows) - |ComingFor(h, t, r.borrows)| else 0
    ensures CanHave(t, r) ==> Gap(h, t, r) == 0
  {
    FreeCount(t, r);
    ReturningCount(h, t, r);
    hide Free, Returning, ComingFor, UnheldFor;
  }

  lemma {:induction false} UnheldFirstCount(cards: seq<Uuid>, held: map<Uuid, JobId>)
    ensures |UnheldFirst(cards, held)| == |cards|
  {
    SplitCount(cards, held.Keys);
  }

  lemma {:induction false} FillableCount(t: State, r: Request)
    ensures |Fillable(t, r)| == OpenFor(t, r.borrows)
  {
    UnheldFirstCount(Without(t.ownedFree, Covered(t)), t.held);
    UnheldFirstCount(Without(t.sharedFree, Covered(t)), t.held);
  }

  /** What a job is told why it can never run: what it asked for, what there is,
      and the entries missing if those would have been enough. */
  predicate Hopeless(h: Host, r: Request, why: Reason) {
    && why.gpus == r.gpus && why.have == Capacity(h, r.borrows)
    && var absent := h.ownedAbsent + if r.borrows then h.sharedAbsent else [];
       why.missing == if r.gpus <= Capacity(h, r.borrows) + |absent| then absent else []
  }

  /** There are cards for it: enough that nobody holds; or else it fills, and no
      card somebody else is on would be needed. */
  predicate Startable(h: Host, t: State, r: Request) {
    r.gpus <= Capacity(h, r.borrows) && (CanHave(t, r) || (r.gpus <= WithoutTheirs(h, t, r.borrows) && MayFill(h, t, r)))
  }

  /** The decision a job gets: it fails exactly if the host is too small for it;
      starts exactly if there are cards for it; is stepped over exactly if it
      would need a card somebody else is on; and waits otherwise, short by what
      is missing even with the cards on their way. */
  predicate DecidedBy(h: Host, t: State, r: Request, d: Decision) {
    && d.jobId == r.jobId
    && (d.Fails? <==> Capacity(h, r.borrows) < r.gpus)
    && (d.Fails? ==> Hopeless(h, r, d.reason))
    && (d.Assigned? <==> Startable(h, t, r))
    && (d.SteppedOver? <==> WithoutTheirs(h, t, r.borrows) < r.gpus <= Capacity(h, r.borrows) && !CanHave(t, r))
    && (d.SteppedOver? ==> d.short == r.gpus - WithoutTheirs(h, t, r.borrows))
    && (d.Holds? ==> d.gap == if ShortOf(h, t, r) then r.gpus - UnheldFor(t, r.borrows) - |ComingFor(h, t, r.borrows)| else 0)
  }

  lemma {:induction false} DecisionIs(h: Host, t: State, r: Request)
    ensures DecidedBy(h, t, r, Decide(h, t, r))
  {
    FreeCount(t, r);
    GapCount(h, t, r);
    FillableCount(t, r);
    hide Free, Back, Own, Gap, Fits, Fillable, Holders, OwnedAmong, Stops, Covered, Open, ComingFor, UnheldFor, OpenFor;
  }

  lemma {:induction false} DecidedExactly(h: Host, s: State, rs: seq<Request>, k: nat)
    requires k < |rs|
    ensures DecidedBy(h, After(h, s, rs, k), rs[k], DecisionAt(h, s, rs, k)) && After(h, s, rs, k).theirs == s.theirs
  {
    hide *;
    DecisionIs(h, After(h, s, rs, k), rs[k]);
    GoesOnward(h, s, rs, 0, k);
    TheirsStays(After(h, s, rs, 0), After(h, s, rs, k));
    DecisionHere(h, s, rs, k);
    AfterNothing(h, s, rs);
  }

  lemma {:induction false} TheirsStays(s: State, t: State)
    ensures Onward(s, t) ==> t.theirs == s.theirs
  {
  }

  lemma {:induction false} DecisionHere(h: Host, s: State, rs: seq<Request>, k: nat)
    requires k < |rs|
    ensures DecisionAt(h, s, rs, k) == Decide(h, After(h, s, rs, k), rs[k])
    ensures After(h, s, rs, k + 1) == Next(h, After(h, s, rs, k), rs[k])
  {
  }

  lemma {:induction false} AfterNothing(h: Host, s: State, rs: seq<Request>)
    ensures After(h, s, rs, 0) == s
  {
  }

  // Which cards.

  function Least(a: nat, b: nat): nat {
    if a <= b then a else b
  }

  /** The first `n` of these lists, one list after the other. */
  function Pour(n: nat, lists: seq<seq<Uuid>>): (cards: seq<Uuid>)
    ensures |cards| <= n
  {
    if lists == [] then []
    else
      var m := Least(n, |lists[0]|);
      lists[0][..m] + Pour(n - m, lists[1..])
  }

  function Held(cards: seq<Uuid>, t: State): seq<Uuid> {
    Within(cards, t.held.Keys)
  }

  /** Owned before shared, and for a filler unheld before held; in the order
      they are listed. */
  function BestFirst(t: State, r: Request): seq<seq<Uuid>> {
    if CanHave(t, r) then
      [Unheld(t.ownedFree, t)] + if r.borrows then [Unheld(t.sharedFree, t)] else []
    else
      [Unheld(Open(t.ownedFree, t), t), Held(Open(t.ownedFree, t), t)]
      + if r.borrows then [Unheld(Open(t.sharedFree, t), t), Held(Open(t.sharedFree, t), t)] else []
  }

  lemma {:induction false} FirstIsPour(n: nat, lists: seq<seq<Uuid>>)
    ensures First(Flat(lists), n) == Pour(n, lists)
  {
    if lists != [] {
      var m := Least(n, |lists[0]|);
      FirstIsPour(n - m, lists[1..]);
    }
  }

  function Flat(lists: seq<seq<Uuid>>): seq<Uuid> {
    if lists == [] then [] else lists[0] + Flat(lists[1..])
  }

  lemma {:induction false} FreeIsPoured(t: State, r: Request)
    requires CanHave(t, r)
    ensures Free(t, r) == Pour(r.gpus, BestFirst(t, r))
  {
    var own, other := Unheld(t.ownedFree, t), Unheld(t.sharedFree, t);
    var lists := BestFirst(t, r);
    FirstIsPour(r.gpus, lists);
    assert Flat([]) == [];
    if r.borrows {
      assert lists == [own, other];
      assert lists[1..] == [other] && [other][1..] == [];
      assert Flat([other]) == other + [];
      assert Flat(lists) == own + other;
    } else {
      assert lists == [own] && [own][1..] == [];
      assert Flat(lists) == own;
    }
    hide Without, Flat, Pour;
  }

  lemma {:induction false} FlatTwo(x: seq<Uuid>, y: seq<Uuid>, more: seq<seq<Uuid>>)
    ensures Flat([x, y] + more) == (x + y) + Flat(more)
  {
    var lists := [x, y] + more;
    assert lists[1..] == [y] + more && lists[1..][1..] == more;
    assert Flat(lists) == x + (y + Flat(more));
  }

  lemma {:induction false} FlatNone()
    ensures Flat([]) == []
  {
  }

  lemma {:induction false} FillableIsFlat(t: State, r: Request)
    requires !CanHave(t, r)
    ensures Fillable(t, r) == Flat(BestFirst(t, r))
  {
    var a, b := Open(t.ownedFree, t), Open(t.sharedFree, t);
    hide Flat, Covered;
    FlatNone();
    if r.borrows {
      var c, e := Unheld(b, t), Held(b, t);
      FlatTwo(c, e, []);
      assert [c, e] + [] == [c, e];
      FlatTwo(Unheld(a, t), Held(a, t), [c, e]);
    } else {
      FlatTwo(Unheld(a, t), Held(a, t), []);
    }
    hide Without, Within, CanHave;
  }

  /** The cards an assigned job is given. */
  lemma {:induction false} GivenTheBest(h: Host, t: State, r: Request)
    requires Decide(h, t, r).Assigned?
    ensures Decide(h, t, r).gpus == Pour(r.gpus, BestFirst(t, r))
  {
    FreeCount(t, r);
    if CanHave(t, r) {
      FreeIsPoured(t, r);
    } else {
      FillableIsFlat(t, r);
      FirstIsPour(r.gpus, BestFirst(t, r));
    }
    hide Free, Fillable, BestFirst, Pour, Flat, Holders, OwnedAmong, Stops, Own, Back, Gap;
  }

  lemma {:induction false} PourOne(n: nat, a: seq<Uuid>)
    ensures Pour(n, [a]) == a[..Least(n, |a|)]
  {
    assert [a][1..] == [];
    assert a[..Least(n, |a|)] + [] == a[..Least(n, |a|)];
  }

  lemma {:induction false} PourTwo(n: nat, a: seq<Uuid>, b: seq<Uuid>)
    ensures Pour(n, [a, b]) == a[..Least(n, |a|)] + b[..Least(n - Least(n, |a|), |b|)]
  {
    assert [a, b][1..] == [b];
    PourOne(n - Least(n, |a|), b);
  }

  lemma {:induction false} PourFour(n: nat, a: seq<Uuid>, b: seq<Uuid>, c: seq<Uuid>, e: seq<Uuid>)
    ensures var m := Least(n, |a|);
            var k := Least(n - m, |b|);
            Pour(n, [a, b, c, e]) == a[..m] + b[..k] + Pour(n - m - k, [c, e])
  {
    var m := Least(n, |a|);
    var k := Least(n - m, |b|);
    assert [a, b, c, e][1..] == [b, c, e] && [b, c, e][1..] == [c, e];
    assert Pour(n - m, [b, c, e]) == b[..k] + Pour(n - m - k, [c, e]);
  }

  /** Cards of a kind: owned ones are none of the shared. */
  predicate Kinds(h: Host, t: State) {
    (forall c :: c in t.ownedFree ==> c !in h.shared) && (forall c :: c in t.sharedFree ==> c in h.shared)
  }

  lemma {:induction false} CountShared(own: seq<Uuid>, other: seq<Uuid>, shared: set<Uuid>)
    requires (forall c :: c in own ==> c !in shared) && (forall c :: c in other ==> c in shared)
    ensures |Within(own + other, shared)| == |other|
  {
    CountsByKind(own, other, [], shared);
    assert own + other + [] == own + other;
    NoElements(Within([], shared));
  }

  /** The owned cards a job would be given before it is given a shared one. */
  function OwnedFor(t: State, r: Request): nat {
    if CanHave(t, r) then |Unheld(t.ownedFree, t)| else |Open(t.ownedFree, t)|
  }

  lemma {:induction false} TwoPoured(n: nat, a: seq<Uuid>, c: seq<Uuid>, shared: set<Uuid>)
    requires (forall x :: x in a ==> x !in shared) && (forall x :: x in c ==> x in shared) && n <= |a| + |c|
    ensures |Within(Pour(n, [a, c]), shared)| == if n <= |a| then 0 else n - |a|
  {
    hide Within, Pour;
    PourTwo(n, a, c);
    var m := Least(n, |a|);
    CountShared(a[..m], c[..Least(n - m, |c|)], shared);
  }

  lemma {:induction false} OnePoured(n: nat, a: seq<Uuid>, shared: set<Uuid>)
    requires forall x :: x in a ==> x !in shared
    ensures |Within(Pour(n, [a]), shared)| == 0
  {
    hide Within, Pour;
    PourOne(n, a);
    var cards := Pour(n, [a]);
    CountShared(cards, [], shared);
    assert cards + [] == cards;
  }

  lemma {:induction false} UnheldIn(cards: seq<Uuid>, t: State)
    ensures forall x :: x in Unheld(cards, t) ==> x in cards
  {
  }

  lemma {:induction false} SharedWhenFitting(h: Host, t: State, r: Request)
    requires CanHave(t, r) && Kinds(h, t)
    ensures |Within(Pour(r.gpus, BestFirst(t, r)), h.shared)| == if r.gpus <= OwnedFor(t, r) then 0 else r.gpus - OwnedFor(t, r)
  {
    hide Without, Within, Pour, Unheld;
    var a, c := Unheld(t.ownedFree, t), Unheld(t.sharedFree, t);
    UnheldIn(t.ownedFree, t);
    UnheldIn(t.sharedFree, t);
    if r.borrows {
      assert BestFirst(t, r) == [a, c];
      TwoPoured(r.gpus, a, c, h.shared);
    } else {
      assert BestFirst(t, r) == [a];
      OnePoured(r.gpus, a, h.shared);
    }
  }

  lemma {:induction false} SharedPoured(n: nat, a: seq<Uuid>, b: seq<Uuid>, c: seq<Uuid>, e: seq<Uuid>, shared: set<Uuid>)
    requires (forall x :: x in a || x in b ==> x !in shared) && (forall x :: x in c || x in e ==> x in shared)
    requires n <= |a| + |b| + |c| + |e|
    ensures |Within(Pour(n, [a, b, c, e]), shared)| == if n <= |a| + |b| then 0 else n - |a| - |b|
  {
    hide Within, Pour;
    var m := Least(n, |a|);
    var k := Least(n - m, |b|);
    PourFour(n, a, b, c, e);
    PourTwo(n - m - k, c, e);
    CountShared(a[..m] + b[..k], Pour(n - m - k, [c, e]), shared);
  }

  lemma {:induction false} NoneSharedPoured(n: nat, a: seq<Uuid>, b: seq<Uuid>, shared: set<Uuid>)
    requires forall x :: x in a || x in b ==> x !in shared
    ensures |Within(Pour(n, [a, b]), shared)| == 0
  {
    hide Within, Pour;
    PourTwo(n, a, b);
    var cards := Pour(n, [a, b]);
    CountShared(cards, [], shared);
    assert cards + [] == cards;
  }

  lemma {:induction false} SplitOpen(cards: seq<Uuid>, t: State)
    ensures |Unheld(cards, t)| + |Held(cards, t)| == |cards|
    ensures forall x :: x in Unheld(cards, t) || x in Held(cards, t) ==> x in cards
  {
    SplitCount(cards, t.held.Keys);
  }

  lemma {:induction false} SharedWhenFilling(h: Host, t: State, r: Request)
    requires !CanHave(t, r) && r.gpus <= OpenFor(t, r.borrows) && Kinds(h, t)
    ensures |Within(Pour(r.gpus, BestFirst(t, r)), h.shared)| == if r.gpus <= OwnedFor(t, r) then 0 else r.gpus - OwnedFor(t, r)
  {
    hide Within, Pour, Unheld, Held, CanHave, Without;
    var open, other := Open(t.ownedFree, t), Open(t.sharedFree, t);
    SplitOpen(open, t);
    SplitOpen(other, t);
    hide Open;
    if r.borrows {
      SharedPoured(r.gpus, Unheld(open, t), Held(open, t), Unheld(other, t), Held(other, t), h.shared);
      assert BestFirst(t, r) == [Unheld(open, t), Held(open, t), Unheld(other, t), Held(other, t)];
    } else {
      NoneSharedPoured(r.gpus, Unheld(open, t), Held(open, t), h.shared);
      assert BestFirst(t, r) == [Unheld(open, t), Held(open, t)];
    }
  }

  lemma {:induction false} SharedGiven(h: Host, t: State, r: Request)
    requires Decide(h, t, r).Assigned? && Kinds(h, t)
    ensures |Within(Decide(h, t, r).gpus, h.shared)| == if r.gpus <= OwnedFor(t, r) then 0 else r.gpus - OwnedFor(t, r)
  {
    hide *;
    GivenTheBest(h, t, r);
    DecisionIs(h, t, r);
    OpenIfFilling(h, t, r, Decide(h, t, r));
    if CanHave(t, r) {
      SharedWhenFitting(h, t, r);
    } else {
      SharedWhenFilling(h, t, r);
    }
  }

  lemma {:induction false} OpenIfFilling(h: Host, t: State, r: Request, d: Decision)
    requires DecidedBy(h, t, r, d) && d.Assigned?
    ensures CanHave(t, r) || r.gpus <= OpenFor(t, r.borrows)
  {
  }

  /** Owned cards first, always: a job is given as many shared cards as it is
      short of owned ones, and no more; of the unheld, or for a filler of those
      no covered job holds. And of what it may have it is given the first. */
  lemma {:induction false} BorrowsOnlyTheShortfall(h: Host, s: State, rs: seq<Request>, k: nat)
    requires k < |rs| && DecisionAt(h, s, rs, k).Assigned?
    ensures var d, t, r := DecisionAt(h, s, rs, k), After(h, s, rs, k), rs[k];
            && d.gpus == Pour(r.gpus, BestFirst(t, r)) && |d.gpus| == r.gpus
            && (ByKind(h, s) ==> |Within(d.gpus, h.shared)| == if r.gpus <= OwnedFor(t, r) then 0 else r.gpus - OwnedFor(t, r))
  {
    hide *;
    var t := After(h, s, rs, k);
    DecisionHere(h, s, rs, k);
    GivenTheBest(h, t, rs[k]);
    AssignedCards(h, t, rs[k]);
    StillFree(h, s, rs, k);
    if ByKind(h, s) {
      StaysByKind(h, s, t);
      SharedGiven(h, t, rs[k]);
    }
  }

  lemma {:induction false} StaysByKind(h: Host, s: State, t: State)
    requires ByKind(h, s)
    requires (forall c :: c in t.ownedFree ==> c in s.ownedFree) && (forall c :: c in t.sharedFree ==> c in s.sharedFree)
    ensures Kinds(h, t)
  {
  }

  // What a decision leaves.

  /** Of the cards on their way back a waiting job keeps what it still needs,
      owned ones first. */
  function KeptOfComing(h: Host, t: State, r: Request): seq<Uuid> {
    var coming := Unheld(h.coming, t);
    Pour(if CanHave(t, r) then 0 else r.gpus - UnheldFor(t, r.borrows),
         [Without(coming, h.shared)] + if r.borrows then [Within(coming, h.shared)] else [])
  }

  /** A card newly held: an unheld free one the waiting job may use, or one of
      those on their way. */
  predicate KeepsIt(h: Host, t: State, r: Request, c: Uuid) {
    || (c !in t.held && (c in t.ownedFree || (r.borrows && c in t.sharedFree)))
    || c in KeptOfComing(h, t, r)
  }

  lemma {:induction false} WithoutInPlace(cards: seq<Uuid>, x: set<Uuid>, y: set<Uuid>)
    ensures Without(Without(cards, x), y) == Without(cards, x + y)
    ensures Within(Without(cards, x), y) == Without(Within(cards, y), x)
  {
    WithoutTwice(cards, x, y);
    if cards != [] {
      WithoutInPlace(cards[1..], x, y);
      if cards[0] !in x {
        assert Without(cards, x)[1..] == Without(cards[1..], x);
      }
      if cards[0] in y {
        assert Within(cards, y)[1..] == Within(cards[1..], y);
      }
    }
  }

  lemma {:induction false} OwnedAmongReturning(h: Host, t: State, r: Request)
    ensures Returning(h, t, r) == Without(Unheld(h.coming, t), h.shared) + if r.borrows then Within(Unheld(h.coming, t), h.shared) else []
  {
    var coming := Unheld(h.coming, t);
    if r.borrows {
      assert t.held.Keys + {} == t.held.Keys;
    } else {
      WithoutTwice(h.coming, t.held.Keys, h.shared);
      var mine := Without(coming, h.shared);
      WithoutNothing(mine, h.shared);
      NoElements(Within(mine, h.shared));
      assert mine + [] == mine;
    }
  }

  lemma {:induction false} BackIsPoured(h: Host, t: State, r: Request)
    requires !CanHave(t, r)
    ensures Back(h, t, r) == KeptOfComing(h, t, r)
  {
    OwnedAmongReturning(h, t, r);
    FreeCount(t, r);
    var coming := Unheld(h.coming, t);
    var a, b := Without(coming, h.shared), Within(coming, h.shared);
    hide Without, Within, Free, Returning, UnheldFor;
    var lists := [a] + if r.borrows then [b] else [];
    FirstIsPour(r.gpus - UnheldFor(t, r.borrows), lists);
    assert Flat([]) == [];
    if r.borrows {
      assert lists == [a, b] && lists[1..] == [b] && [b][1..] == [];
      assert Flat([b]) == b + [];
      assert Flat(lists) == a + b;
    } else {
      assert lists == [a] && lists[1..] == [];
      assert Flat(lists) == a;
    }
  }

  lemma {:induction false} AllFreeKept(h: Host, t: State, r: Request, c: Uuid)
    requires !CanHave(t, r)
    ensures c in Free(t, r) <==> c !in t.held && (c in t.ownedFree || (r.borrows && c in t.sharedFree))
  {
    assert Own(t, r) == Unheld(t.ownedFree, t);
    assert r.borrows ==> Borrow(t, r) == Unheld(t.sharedFree, t);
    hide Without;
  }

  /** The state a decision leaves for the jobs behind: an assignment takes its
      cards off both lists; a wait holds the cards kept, and covers the job
      exactly if it has no gap or a set to stop, which only the first with a gap
      has; and nothing else changes anything. */
  predicate MovedBy(h: Host, t: State, r: Request, d: Decision, u: State) {
    match d
    case Fails(_, _) => u == t
    case SteppedOver(_, _) => u == t
    case Assigned(_, gpus, _) =>
      u == t.(ownedFree := Without(t.ownedFree, Elems(gpus)), sharedFree := Without(t.sharedFree, Elems(gpus)))
    case Holds(_, _, _, gap, preempts) =>
      && u.ownedFree == t.ownedFree && u.sharedFree == t.sharedFree && u.theirs == t.theirs
      && u.covered == t.covered + (if gap == 0 || preempts != [] then {r.jobId} else {})
      && u.stuck == (t.stuck || gap > 0)
      && preempts == if gap > 0 && !t.stuck then Ids(Cover(h.preemptable, r.SortKey(), gap, r.borrows)) else []
  }

  ghost predicate HeldBy(h: Host, t: State, r: Request, u: State) {
    && (forall c :: c in u.held <==> c in t.held || KeepsIt(h, t, r, c))
    && (forall c :: c in u.held ==> u.held[c] == if c in t.held then t.held[c] else r.jobId)
  }

  lemma {:induction false} StateMoved(h: Host, t: State, r: Request)
    ensures MovedBy(h, t, r, Decide(h, t, r), Next(h, t, r))
    ensures Decide(h, t, r).Holds? ==> !CanHave(t, r)
  {
    FreeCount(t, r);
    hide Free, Back, Own, Fits, Fillable, Holders, OwnedAmong, Covered, Open, ComingFor, UnheldFor, OpenFor, Cover, Without, Gap;
  }

  lemma {:induction false} KeptExactly(h: Host, t: State, r: Request, c: Uuid)
    requires !CanHave(t, r)
    ensures c in t.held || c in Elems(Keeps(h, t, r)) <==> c in t.held || KeepsIt(h, t, r, c)
  {
    AllFreeKept(h, t, r, c);
    BackIsPoured(h, t, r);
    hide Free, Back, KeptOfComing, CanHave;
    assert c in Elems(Keeps(h, t, r)) <==> c in Keeps(h, t, r);
    assert c in Keeps(h, t, r) <==> c in Free(t, r) || c in Back(h, t, r);
  }

  lemma {:induction false} HoldsOn(s: State, t: State)
    requires Onward(s, t)
    ensures forall c :: c in s.held ==> c in t.held && t.held[c] == s.held[c]
  {
  }

  lemma {:induction false} InElems(cards: seq<Uuid>)
    ensures forall c :: c in Elems(cards) <==> c in cards
  {
  }

  lemma {:induction false} HeldMoved(h: Host, t: State, r: Request)
    requires Decide(h, t, r).Holds?
    ensures HeldBy(h, t, r, Next(h, t, r))
  {
    StateMoved(h, t, r);
    HoldsState(h, t, r);
    NextGoesOnward(h, t, r);
    var u := Next(h, t, r);
    HoldsOn(t, u);
    hide Decide, Next, KeptOfComing, Keeps, KeepsIt, CanHave, Onward, Elems;
    InElems(Keeps(h, t, r));
    forall c
      ensures c in u.held <==> c in t.held || KeepsIt(h, t, r, c)
    {
      KeptExactly(h, t, r, c);
      assert c in u.held.Keys <==> c in t.held.Keys + Elems(Keeps(h, t, r));
    }
  }

  /** What each decision of a pass leaves for the jobs behind it. */
  lemma {:induction false} LeftBehind(h: Host, s: State, rs: seq<Request>, k: nat)
    requires k < |rs|
    ensures var d, t, u := DecisionAt(h, s, rs, k), After(h, s, rs, k), After(h, s, rs, k + 1);
            MovedBy(h, t, rs[k], d, u) && (d.Holds? ==> HeldBy(h, t, rs[k], u))
    ensures After(h, s, rs, 0) == s
  {
    hide *;
    DecisionHere(h, s, rs, k);
    AfterNothing(h, s, rs);
    StateMoved(h, After(h, s, rs, k), rs[k]);
    if DecisionAt(h, s, rs, k).Holds? {
      HeldMoved(h, After(h, s, rs, k), rs[k]);
    }
  }

  /** While an unheld owned card on its way back is left out, none is kept that
      is shared. */
  lemma {:induction false} OwnedComeFirst(h: Host, t: State, r: Request, shared: Uuid, owned: Uuid)
    requires shared in KeptOfComing(h, t, r) && shared in h.shared
    requires owned in h.coming && owned !in t.held && owned !in h.shared
    ensures owned in KeptOfComing(h, t, r)
  {
    var coming := Unheld(h.coming, t);
    var a, b := Without(coming, h.shared), Within(coming, h.shared);
    var n := if CanHave(t, r) then 0 else r.gpus - UnheldFor(t, r.borrows);
    assert owned in a;
    hide Without, Within, UnheldFor, CanHave;
    assert forall c :: c in a ==> c !in h.shared;
    if r.borrows {
      assert [a] + [b] == [a, b];
      PourTwo(n, a, b);
      assert shared !in a[..Least(n, |a|)];
      assert Least(n - Least(n, |a|), |b|) > 0;
    } else {
      assert [a] + [] == [a];
      PourOne(n, a);
    }
    assert a[..|a|] == a;
  }
}
