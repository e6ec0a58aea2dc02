/** What one dispatch pass guarantees, whatever the queue and the cards. */
module RuleTheorems {
  import opened Lists
  import opened Preempt
  import opened Rule

  function Unheld(cards: seq<Uuid>, s: State): seq<Uuid> {
    Without(cards, s.held.Keys)
  }

  /** The free cards nobody holds that a job could be given. */
  function UnheldFor(s: State, borrows: bool): nat {
    |Unheld(s.ownedFree, s)| + if borrows then |Unheld(s.sharedFree, s)| else 0
  }

  /** Nothing is ever handed back within a pass, and no hold is ever moved. */
  predicate Onward(s: State, t: State) {
    && s.held.Keys <= t.held.Keys
    && (forall c :: c in s.held ==> t.held[c] == s.held[c])
    && s.covered <= t.covered
    && (s.stuck ==> t.stuck)
    && t.theirs == s.theirs
    && Elems(t.ownedFree) <= Elems(s.ownedFree)
    && Elems(t.sharedFree) <= Elems(s.sharedFree)
    && |Unheld(t.ownedFree, t)| <= |Unheld(s.ownedFree, s)|
    && |Unheld(t.sharedFree, t)| <= |Unheld(s.sharedFree, s)|
  }

  /** The cards a waiting job keeps. */
  function Keeps(h: Host, s: State, r: Request): seq<Uuid> {
    Free(s, r) + Back(h, s, r)
  }

  lemma {:induction false} FreeIsUnheld(s: State, r: Request)
    ensures forall c :: c in Free(s, r) ==> c !in s.held && (c in s.ownedFree || (r.borrows && c in s.sharedFree))
    ensures forall c :: c in Own(s, r) ==> c in s.ownedFree && c !in s.held
    ensures forall c :: c in Borrow(s, r) ==> r.borrows && c in s.sharedFree && c !in s.held
  {
  }

  lemma {:induction false} BackIsUnheld(h: Host, s: State, r: Request)
    ensures forall c :: c in Back(h, s, r) ==>
      c in h.coming && c !in s.held && (r.borrows || c !in h.shared)
  {
    var mine := Without(h.coming, s.held.Keys + if r.borrows then {} else h.shared);
    assert forall c :: c in Returning(h, s, r) ==> c in mine;
  }

  lemma {:induction false} FillableIsOpen(s: State, r: Request)
    ensures forall c :: c in Fillable(s, r) ==>
      (c in s.ownedFree || (r.borrows && c in s.sharedFree)) && (c in s.held ==> s.held[c] !in s.covered)
  {
    forall c | c in Fillable(s, r)
      ensures (c in s.ownedFree || (r.borrows && c in s.sharedFree)) && c !in Covered(s)
    {
      var o := Without(s.ownedFree, Covered(s));
      var b := Without(s.sharedFree, Covered(s));
      assert c in UnheldFirst(o, s.held) || (r.borrows && c in UnheldFirst(b, s.held));
      assert c in o || (r.borrows && c in b);
    }
  }

  lemma {:induction false} AssignedCards(h: Host, s: State, r: Request)
    requires Decide(h, s, r).Assigned?
    ensures var cards := Decide(h, s, r).gpus;
            && |cards| == r.gpus
            && Next(h, s, r) == Taken(s, cards)
            && (forall c :: c in cards ==>
                 && (c in s.ownedFree || (r.borrows && c in s.sharedFree))
                 && (c in s.held ==> s.held[c] !in s.covered))
  {
    FreeIsUnheld(s, r);
    FillableIsOpen(s, r);
  }

  /** What waiting does to the state. */
  lemma {:induction false} HoldsState(h: Host, s: State, r: Request)
    requires Decide(h, s, r).Holds?
    ensures var t, d := Next(h, s, r), Decide(h, s, r);
            && t.ownedFree == s.ownedFree && t.sharedFree == s.sharedFree
            && t.held.Keys == s.held.Keys + Elems(Keeps(h, s, r))
            && (forall c :: c in Keeps(h, s, r) ==> c !in s.held && c in t.held && t.held[c] == r.jobId)
            && (Covers(d) ==> r.jobId in t.covered)
            && (d.gap > 0 ==> t.stuck)
            && (s.stuck ==> d.preempts == [])
  {
    hide Free, Back, Cover;
    FreeIsUnheld(s, r);
    BackIsUnheld(h, s, r);
  }

  /** A job already waiting for every card it needs, or being made room for. */
  predicate Covers(d: Decision) {
    d.Holds? && (d.gap == 0 || d.preempts != [])
  }

  lemma {:induction false} TakenGoesOnward(s: State, cards: seq<Uuid>)
    ensures Onward(s, Taken(s, cards))
  {
    var gone := Elems(cards);
    WithoutTwice(s.ownedFree, gone, s.held.Keys);
    WithoutTwice(s.sharedFree, gone, s.held.Keys);
    WithoutShrinks(s.ownedFree, s.held.Keys, gone + s.held.Keys);
    WithoutShrinks(s.sharedFree, s.held.Keys, gone + s.held.Keys);
  }

  lemma {:induction false} HoldGoesOnward(h: Host, s: State, r: Request)
    ensures Onward(s, Holding(h, s, r))
  {
    var t := Holding(h, s, r);
    FreeIsUnheld(s, r);
    BackIsUnheld(h, s, r);
    assert t.held.Keys == s.held.Keys + Elems(Keeps(h, s, r));
    WithoutShrinks(s.ownedFree, s.held.Keys, t.held.Keys);
    WithoutShrinks(s.sharedFree, s.held.Keys, t.held.Keys);
  }

  lemma {:induction false} NextGoesOnward(h: Host, s: State, r: Request)
    ensures Onward(s, Next(h, s, r))
  {
    match Branching(h, s, r) {
      case Fail =>
      case Fit => TakenGoesOnward(s, Free(s, r));
      case StepOver =>
      case Fill => TakenGoesOnward(s, First(Fillable(s, r), r.gpus));
      case Wait => HoldGoesOnward(h, s, r);
    }
  }

  lemma {:induction false} GoesOnward(h: Host, s: State, rs: seq<Request>, i: nat, j: nat)
    requires i <= j <= |rs|
    ensures Onward(After(h, s, rs, i), After(h, s, rs, j))
    decreases j
  {
    if i < j {
      GoesOnward(h, s, rs, i, j - 1);
      NextGoesOnward(h, After(h, s, rs, j - 1), rs[j - 1]);
    }
  }

  // Allocation safety and accounting.

  /** A card handed out is in neither free list any more. */
  lemma {:induction false} TakenIsGone(h: Host, s: State, rs: seq<Request>, i: nat, j: nat)
    requires i < j <= |rs| && DecisionAt(h, s, rs, i).Assigned?
    ensures Apart(DecisionAt(h, s, rs, i).gpus, After(h, s, rs, j).ownedFree)
    ensures Apart(DecisionAt(h, s, rs, i).gpus, After(h, s, rs, j).sharedFree)
  {
    hide Next, Decide;
    var a, b, d := After(h, s, rs, i + 1), After(h, s, rs, j), DecisionAt(h, s, rs, i);
    AssignedCards(h, After(h, s, rs, i), rs[i]);
    GoesOnward(h, s, rs, i + 1, j);
    forall c | c in d.gpus
      ensures c !in b.ownedFree && c !in b.sharedFree
    {
      assert c in Elems(d.gpus);
      assert c !in Elems(a.ownedFree) && c !in Elems(a.sharedFree);
    }
  }

  /** No card is handed out twice in a pass. */
  lemma {:induction false} AssignedAreDisjoint(h: Host, s: State, rs: seq<Request>, i: nat, j: nat)
    requires i < j < |rs| && DecisionAt(h, s, rs, i).Assigned? && DecisionAt(h, s, rs, j).Assigned?
    ensures Apart(DecisionAt(h, s, rs, i).gpus, DecisionAt(h, s, rs, j).gpus)
  {
    hide Next, Decide;
    TakenIsGone(h, s, rs, i, j);
    AssignedCards(h, After(h, s, rs, j), rs[j]);
  }

  predicate Separate(s: State) {
    NoDup(s.ownedFree) && NoDup(s.sharedFree) && Apart(s.ownedFree, s.sharedFree)
  }

  lemma {:induction false} TakenSeparate(s: State, cards: seq<Uuid>)
    requires Separate(s)
    ensures Separate(Taken(s, cards))
  {
    WithoutNoDup(s.ownedFree, Elems(cards));
    WithoutNoDup(s.sharedFree, Elems(cards));
  }

  lemma {:induction false} StaysSeparate(h: Host, s: State, rs: seq<Request>, k: nat)
    requires Separate(s) && k <= |rs|
    ensures Separate(After(h, s, rs, k))
  {
    if k > 0 {
      var t, r := After(h, s, rs, k - 1), rs[k - 1];
      StaysSeparate(h, s, rs, k - 1);
      TakenSeparate(t, Free(t, r));
      TakenSeparate(t, First(Fillable(t, r), r.gpus));
    }
  }

  lemma {:induction false} SplitNoDup(cards: seq<Uuid>, x: set<Uuid>)
    requires NoDup(cards)
    ensures NoDup(Without(cards, x) + Within(cards, x))
  {
    WithoutNoDup(cards, x);
    WithinNoDup(cards, x);
    NoDupAppend(Without(cards, x), Within(cards, x));
  }

  lemma {:induction false} FreeNoDup(s: State, r: Request)
    requires Separate(s)
    ensures NoDup(Free(s, r))
  {
    WithoutNoDup(s.ownedFree, s.held.Keys);
    WithoutNoDup(s.sharedFree, s.held.Keys);
    FreeIsUnheld(s, r);
    NoDupAppend(Own(s, r), Borrow(s, r));
  }

  lemma {:induction false} FillableNoDup(s: State, r: Request)
    requires Separate(s)
    ensures NoDup(Fillable(s, r))
  {
    var o, b := Without(s.ownedFree, Covered(s)), Without(s.sharedFree, Covered(s));
    WithoutNoDup(s.ownedFree, Covered(s));
    WithoutNoDup(s.sharedFree, Covered(s));
    SplitNoDup(o, s.held.Keys);
    SplitNoDup(b, s.held.Keys);
    assert forall c :: c in UnheldFirst(o, s.held) ==> c in o;
    assert forall c :: c in UnheldFirst(b, s.held) ==> c in b;
    NoDupAppend(UnheldFirst(o, s.held), UnheldFirst(b, s.held));
  }

  lemma {:induction false} AssignedOnce(h: Host, s: State, r: Request)
    requires Separate(s) && Decide(h, s, r).Assigned?
    ensures NoDup(Decide(h, s, r).gpus)
  {
    FreeNoDup(s, r);
    FillableNoDup(s, r);
    NoDupPrefix(Fillable(s, r), r.gpus);
  }

  lemma {:induction false} StillFree(h: Host, s: State, rs: seq<Request>, k: nat)
    requires k <= |rs|
    ensures forall c :: c in After(h, s, rs, k).ownedFree ==> c in s.ownedFree
    ensures forall c :: c in After(h, s, rs, k).sharedFree ==> c in s.sharedFree
  {
    hide Next, Decide;
    var t := After(h, s, rs, k);
    GoesOnward(h, s, rs, 0, k);
    forall c | c in t.ownedFree ensures c in s.ownedFree { assert c in Elems(t.ownedFree); }
    forall c | c in t.sharedFree ensures c in s.sharedFree { assert c in Elems(t.sharedFree); }
  }

  /** An assigned job gets exactly the cards it asked for, each once, free when
      the pass began, and owned ones only unless it may borrow. */
  lemma {:induction false} AssignedIsSafe(h: Host, s: State, rs: seq<Request>, k: nat)
    requires Separate(s) && k < |rs| && DecisionAt(h, s, rs, k).Assigned?
    ensures var d := DecisionAt(h, s, rs, k);
            && |d.gpus| == rs[k].gpus && NoDup(d.gpus)
            && forall c :: c in d.gpus ==> c in s.ownedFree || (rs[k].borrows && c in s.sharedFree)
  {
    hide Next, Decide;
    var t := After(h, s, rs, k);
    AssignedCards(h, t, rs[k]);
    StaysSeparate(h, s, rs, k);
    AssignedOnce(h, t, rs[k]);
    StillFree(h, s, rs, k);
  }

  /** Free cards are where they belong: owned ones are none of the shared. */
  predicate ByKind(h: Host, s: State) {
    (forall c :: c in s.ownedFree ==> c !in h.shared) && (forall c :: c in s.sharedFree ==> c in h.shared)
  }

  lemma {:induction false} CountsByKind(own: seq<Uuid>, borrowed: seq<Uuid>, back: seq<Uuid>, shared: set<Uuid>)
    requires (forall c :: c in own ==> c !in shared) && (forall c :: c in borrowed ==> c in shared)
    ensures |Without(own + borrowed + back, shared)| == |own| + |Without(back, shared)|
    ensures |Within(own + borrowed + back, shared)| == |borrowed| + |Within(back, shared)|
  {
    SplitCount(own + borrowed + back, shared);
    SplitCount(back, shared);
    WithoutAppend(own + borrowed, back, shared);
    WithoutAppend(own, borrowed, shared);
    WithoutNothing(own, shared);
    NoElements(Without(borrowed, shared));
  }

  lemma {:induction false} WithoutAppend(a: seq<Uuid>, b: seq<Uuid>, x: set<Uuid>)
    ensures Without(a + b, x) == Without(a, x) + Without(b, x)
  {
    if a == [] {
      assert a + b == b;
    } else {
      assert (a + b)[1..] == a[1..] + b;
      WithoutAppend(a[1..], b, x);
    }
  }

  /** What a waiting job keeps of each kind and what it lacks add up to what it
      asked for. */
  lemma {:induction false} HoldsAddUp(h: Host, s: State, rs: seq<Request>, k: nat)
    requires k < |rs| && DecisionAt(h, s, rs, k).Holds?
    ensures var d, kept := DecisionAt(h, s, rs, k), Keeps(h, After(h, s, rs, k), rs[k]);
            && d.takenOwned + d.takenShared + d.gap == rs[k].gpus
            && (!rs[k].borrows ==> d.takenShared == 0)
            && |kept| == d.takenOwned + d.takenShared
            && (ByKind(h, s) ==> d.takenOwned == |Without(kept, h.shared)| && d.takenShared == |Within(kept, h.shared)|)
  {
    hide Next, Decide, After, Keeps, ByKind;
    HoldsSum(h, s, rs, k);
    if ByKind(h, s) {
      KindsOfKept(h, s, rs, k);
    }
  }

  lemma {:induction false} HoldsSum(h: Host, s: State, rs: seq<Request>, k: nat)
    requires k < |rs| && DecisionAt(h, s, rs, k).Holds?
    ensures var d, kept := DecisionAt(h, s, rs, k), Keeps(h, After(h, s, rs, k), rs[k]);
            && d.takenOwned + d.takenShared + d.gap == rs[k].gpus
            && (!rs[k].borrows ==> d.takenShared == 0)
            && |kept| == d.takenOwned + d.takenShared
  {
    hide Next;
    var t := After(h, s, rs, k);
    BackIsUnheld(h, t, rs[k]);
    if !rs[k].borrows {
      WithoutNothing(Back(h, t, rs[k]), h.shared);
    }
  }

  lemma {:induction false} KindsOfKept(h: Host, s: State, rs: seq<Request>, k: nat)
    requires k < |rs| && DecisionAt(h, s, rs, k).Holds? && ByKind(h, s)
    ensures var d, kept := DecisionAt(h, s, rs, k), Keeps(h, After(h, s, rs, k), rs[k]);
            d.takenOwned == |Without(kept, h.shared)| && d.takenShared == |Within(kept, h.shared)|
  {
    hide Next;
    var t := After(h, s, rs, k);
    StillFree(h, s, rs, k);
    CountsByKind(Own(t, rs[k]), Borrow(t, rs[k]), Back(h, t, rs[k]), h.shared);
    SplitCount(Back(h, t, rs[k]), h.shared);
  }

  /** Only a borrower is stepped over, and only for cards somebody else is on. */
  lemma {:induction false} SteppedOverIsTheirs(h: Host, s: State, rs: seq<Request>, k: nat)
    requires k < |rs| && DecisionAt(h, s, rs, k).SteppedOver?
    ensures rs[k].borrows && 1 <= DecisionAt(h, s, rs, k).short <= s.theirs
  {
    hide Next;
    GoesOnward(h, s, rs, 0, k);
  }

  // Strict order.

  lemma {:induction false} EmptyUnheld(cards: seq<Uuid>, held: map<Uuid, JobId>)
    requires forall c :: c in cards ==> c in held
    ensures Without(cards, held.Keys) == []
  {
    if cards != [] {
      EmptyUnheld(cards[1..], held);
    }
  }

  /** A waiting job takes every unheld free card it may use. */
  lemma {:induction false} HolderTakesAll(h: Host, s: State, r: Request)
    requires Decide(h, s, r).Holds?
    ensures UnheldFor(Next(h, s, r), r.borrows) == 0
  {
    var t := Next(h, s, r);
    HoldsState(h, s, r);
    assert forall c :: c in Free(s, r) ==> c in Keeps(h, s, r);
    assert Own(s, r) == Without(s.ownedFree, s.held.Keys);
    assert forall c :: c in Own(s, r) ==> c in Free(s, r);
    EmptyUnheld(s.ownedFree, t.held);
    if r.borrows {
      assert Borrow(s, r) == Without(s.sharedFree, s.held.Keys);
      assert forall c :: c in Borrow(s, r) ==> c in Free(s, r);
      EmptyUnheld(s.sharedFree, t.held);
    }
  }

  /** A job that does not fill is given unheld cards. */
  lemma {:induction false} NonFillerTakesUnheld(h: Host, s: State, r: Request)
    requires Decide(h, s, r).Assigned? && !r.fills
    ensures forall c :: c in Decide(h, s, r).gpus ==>
      c in Unheld(s.ownedFree, s) || (r.borrows && c in Unheld(s.sharedFree, s))
  {
    FreeIsUnheld(s, r);
  }

  /** Nobody gets ahead of a waiting job but a filler, and a borrower onto
      shared cards no waiting job ahead of it may use. */
  lemma {:induction false} StrictOrder(h: Host, s: State, rs: seq<Request>, i: nat, j: nat)
    requires i < j < |rs|
    requires DecisionAt(h, s, rs, i).Holds?
    requires DecisionAt(h, s, rs, j).Assigned? && rs[j].gpus > 0 && !rs[j].fills
    ensures rs[j].borrows && !rs[i].borrows
    ensures forall c :: c in DecisionAt(h, s, rs, j).gpus ==> c in s.sharedFree
  {
    hide Next, Decide;
    var t, d := After(h, s, rs, j), DecisionAt(h, s, rs, j);
    HolderTakesAll(h, After(h, s, rs, i), rs[i]);
    GoesOnward(h, s, rs, i + 1, j);
    assert Unheld(t.ownedFree, t) == [];
    StillFree(h, s, rs, j);
    NonFillerTakesUnheld(h, t, rs[j]);
    AssignedCards(h, t, rs[j]);
    assert d.gpus[0] in d.gpus;
    assert Unheld(t.sharedFree, t) != [];
  }

  // Work conservation.

  lemma {:induction false} WaitingLacksCards(h: Host, s: State, r: Request)
    requires Decide(h, s, r).Holds? || Decide(h, s, r).SteppedOver?
    ensures UnheldFor(s, r.borrows) < r.gpus
  {
  }

  /** A job is left waiting or stepped over only for want of cards: at the end
      of the pass the free cards it may use that nobody holds are too few. */
  lemma {:induction false} WorkConserving(h: Host, s: State, rs: seq<Request>, k: nat)
    requires k < |rs|
    requires DecisionAt(h, s, rs, k).Holds? || DecisionAt(h, s, rs, k).SteppedOver?
    ensures UnheldFor(After(h, s, rs, |rs|), rs[k].borrows) < rs[k].gpus
  {
    hide Next, Decide;
    WaitingLacksCards(h, After(h, s, rs, k), rs[k]);
    GoesOnward(h, s, rs, k, |rs|);
  }

  // Covered jobs.

  /** Once a card is held it is held for that job to the end of the pass. */
  lemma {:induction false} HoldsAreNotMoved(h: Host, s: State, rs: seq<Request>, i: nat, j: nat)
    requires i < j <= |rs| && DecisionAt(h, s, rs, i).Holds?
    ensures forall c :: c in Keeps(h, After(h, s, rs, i), rs[i]) ==>
      c !in After(h, s, rs, i).held && c in After(h, s, rs, j).held && After(h, s, rs, j).held[c] == rs[i].jobId
  {
    hide Next, Decide, Keeps;
    HoldsState(h, After(h, s, rs, i), rs[i]);
    GoesOnward(h, s, rs, i + 1, j);
  }

  /** The cards of a covered job are left alone by the rest of the pass,
      fillers included. */
  lemma {:induction false} CoveredKeepsItsCards(h: Host, s: State, rs: seq<Request>, i: nat, j: nat)
    requires i < j < |rs|
    requires Covers(DecisionAt(h, s, rs, i)) && DecisionAt(h, s, rs, j).Assigned?
    ensures Apart(Keeps(h, After(h, s, rs, i), rs[i]), DecisionAt(h, s, rs, j).gpus)
  {
    hide Next, Decide, Keeps;
    HoldsState(h, After(h, s, rs, i), rs[i]);
    GoesOnward(h, s, rs, i + 1, j);
    AssignedCards(h, After(h, s, rs, j), rs[j]);
  }

  /** Automatic preemption acts for the first job with a gap and no other. */
  lemma {:induction false} OnlyTheFirstGapPreempts(h: Host, s: State, rs: seq<Request>, i: nat, j: nat)
    requires i < j < |rs|
    requires DecisionAt(h, s, rs, i).Holds? && DecisionAt(h, s, rs, i).gap > 0
    requires DecisionAt(h, s, rs, j).Holds?
    ensures DecisionAt(h, s, rs, j).preempts == []
  {
    hide Next, Decide, Keeps;
    HoldsState(h, After(h, s, rs, i), rs[i]);
    GoesOnward(h, s, rs, i + 1, j);
    HoldsState(h, After(h, s, rs, j), rs[j]);
  }

  lemma {:induction false} HoldersExact(cards: seq<Uuid>, held: map<Uuid, JobId>)
    ensures NoDup(Holders(cards, held))
    ensures forall id :: id in Holders(cards, held) <==> exists c :: c in cards && c in held && held[c] == id
  {
    if cards != [] {
      var rest, card := cards[..|cards| - 1], cards[|cards| - 1];
      HoldersExact(rest, held);
      assert cards == rest + [card];
      forall id
        ensures id in Holders(cards, held) <==> exists c :: c in cards && c in held && held[c] == id
      {
        assert (exists c :: c in cards && c in held && held[c] == id) <==>
               (exists c :: c in rest && c in held && held[c] == id) || (card in held && held[card] == id);
      }
    }
  }

  /** Only waiting adds a hold. */
  lemma {:induction false} NewHold(h: Host, s: State, r: Request, c: Uuid)
    requires c !in s.held && c in Next(h, s, r).held
    ensures Decide(h, s, r).Holds? && c in Keeps(h, s, r)
  {
  }

  /** Every hold was made by an earlier waiting job, covered if its decision says so. */
  lemma {:induction false} HoldsComeFrom(h: Host, s: State, rs: seq<Request>, k: nat, c: Uuid)
    returns (i: nat)
    requires k <= |rs| && s.held == map[] && c in After(h, s, rs, k).held
    ensures i < k && DecisionAt(h, s, rs, i).Holds?
    ensures rs[i].jobId == After(h, s, rs, k).held[c] && c in Keeps(h, After(h, s, rs, i), rs[i])
    ensures Covers(DecisionAt(h, s, rs, i)) ==> rs[i].jobId in After(h, s, rs, k).covered
  {
    hide Next, Decide, Keeps;
    var t := After(h, s, rs, k - 1);
    NextGoesOnward(h, t, rs[k - 1]);
    if c in t.held {
      i := HoldsComeFrom(h, s, rs, k - 1, c);
    } else {
      i := k - 1;
      NewHold(h, t, rs[i], c);
      HoldsState(h, t, rs[i]);
    }
  }

  lemma {:induction false} NobodyHolds(cards: seq<Uuid>, held: map<Uuid, JobId>)
    requires forall c :: c in cards ==> c !in held
    ensures Holders(cards, held) == []
  {
    if cards != [] {
      NobodyHolds(cards[..|cards| - 1], held);
    }
  }

  lemma {:induction false} HeldForHere(h: Host, s: State, r: Request)
    requires Decide(h, s, r).Assigned?
    ensures var d := Decide(h, s, r);
            && d.heldFor == Holders(d.gpus, s.held)
            && (d.heldFor != [] ==> r.fills)
  {
    FreeIsUnheld(s, r);
    if Branching(h, s, r) == Fit {
      NobodyHolds(Free(s, r), s.held);
    }
  }

  /** `held_for` names each holder of a filler's cards once and nobody else, and
      every one of them waits ahead of it, short of cards nothing is bringing. */
  lemma {:induction false} HeldForIsExact(h: Host, s: State, rs: seq<Request>, k: nat, id: JobId)
    requires k < |rs| && s.held == map[] && DecisionAt(h, s, rs, k).Assigned?
    ensures var d, t := DecisionAt(h, s, rs, k), After(h, s, rs, k);
            && NoDup(d.heldFor)
            && (id in d.heldFor <==> exists c :: c in d.gpus && c in t.held && t.held[c] == id)
            && (id in d.heldFor ==>
                 rs[k].fills && exists i :: 0 <= i < k && rs[i].jobId == id
                                            && DecisionAt(h, s, rs, i).Holds? && !Covers(DecisionAt(h, s, rs, i)))
  {
    hide Next, Decide, Keeps;
    var d, t := DecisionAt(h, s, rs, k), After(h, s, rs, k);
    AssignedCards(h, t, rs[k]);
    HeldForHere(h, t, rs[k]);
    HoldersExact(d.gpus, t.held);
    if id in d.heldFor {
      var c :| c in d.gpus && c in t.held && t.held[c] == id;
      var i := HoldsComeFrom(h, s, rs, k, c);
    }
  }
}
