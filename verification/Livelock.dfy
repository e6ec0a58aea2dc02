/** Why automatic preemption does not livelock on a host of owned cards: once
    the cards free and on their way back are enough for the queue up to a job,
    that job starts before anything behind it gets a card. */
module Livelock {
  import opened Lists
  import opened Preempt
  import opened Rule
  import opened RuleTheorems

  /** A pass on a host that shares nothing, so that nobody borrows. */
  predicate OwnedOnly(h: Host, s: State, rs: seq<Request>) {
    && h.shared == {} && (forall r :: r in rs ==> !r.borrows)
    && NoDup(s.ownedFree) && NoDup(h.coming) && Apart(s.ownedFree, h.coming)
  }

  /** The cards a job asks for, if the host is big enough for it at all. */
  function Needs(h: Host, r: Request): nat {
    if r.gpus > h.ownedPresent then 0 else r.gpus
  }

  function Total(h: Host, rs: seq<Request>, k: nat): nat
    requires k <= |rs|
  {
    if k == 0 then 0 else Total(h, rs, k - 1) + Needs(h, rs[k - 1])
  }

  /** The cards nobody has claimed yet, free or on their way back. */
  function Unclaimed(h: Host, s: State): set<Uuid> {
    (Elems(s.ownedFree) + Elems(h.coming)) - s.held.Keys
  }

  lemma {:induction false} UnclaimedCount(h: Host, s: State)
    requires NoDup(s.ownedFree) && NoDup(h.coming) && Apart(s.ownedFree, h.coming)
    ensures |Unclaimed(h, s)| == |Unheld(s.ownedFree, s)| + |Unheld(h.coming, s)|
  {
    WithoutCount(s.ownedFree, s.held.Keys);
    WithoutCount(h.coming, s.held.Keys);
    hide NoDup, Without, Apart;
    ApartCount(s.ownedFree, h.coming, s.held.Keys);
  }

  /** Every card that is held is held for a covered job. */
  predicate AllCovered(s: State) {
    !s.stuck && forall c :: c in s.held ==> s.held[c] in s.covered
  }

  /** Without shared cards on their way back, a job is offered all of them. */
  lemma {:induction false} ReturningIs(h: Host, s: State, r: Request)
    requires h.shared == {}
    ensures Returning(h, s, r) == Unheld(h.coming, s)
  {
    var mine := Without(h.coming, s.held.Keys);
    assert s.held.Keys + (if r.borrows then {} else h.shared) == s.held.Keys;
    WithoutNothing(mine, {});
    assert Within(mine, {}) == [] by { WithinNothing(mine); }
  }

  lemma {:induction false} WithinNothing(cards: seq<Uuid>)
    ensures Within(cards, {}) == []
  {
    if cards != [] {
      WithinNothing(cards[1..]);
    }
  }

  /** A job, on a host of owned cards, that could run on it and for which there
      are unclaimed cards enough. */
  predicate Provided(h: Host, s: State, r: Request) {
    && h.shared == {} && !r.borrows && r.gpus <= h.ownedPresent
    && NoDup(s.ownedFree) && NoDup(h.coming) && Apart(s.ownedFree, h.coming)
    && r.gpus <= |Unclaimed(h, s)|
  }

  lemma {:induction false} KeepsEnough(h: Host, s: State, r: Request)
    requires Provided(h, s, r)
    ensures Free(s, r) == Own(s, r) && Gap(h, s, r) == 0 && |Keeps(h, s, r)| == r.gpus
    ensures Fits(s, r) ==> Keeps(h, s, r) == Free(s, r)
  {
    UnclaimedCount(h, s);
    ReturningIs(h, s, r);
    hide Without, Within, NoDup, Apart, Returning, Unclaimed;
    assert Borrow(s, r) == [];
    assert Own(s, r) + [] == Own(s, r);
    if Fits(s, r) {
      assert Back(h, s, r) == [];
      assert Free(s, r) + [] == Free(s, r);
    }
  }

  lemma {:induction false} KeepsUnclaimed(h: Host, s: State, r: Request)
    requires Provided(h, s, r)
    ensures Elems(Keeps(h, s, r)) <= Unclaimed(h, s) && NoDup(Keeps(h, s, r))
  {
    KeepsEnough(h, s, r);
    ReturningIs(h, s, r);
    FreeIsUnheld(s, r);
    BackIsUnheld(h, s, r);
    WithoutNoDup(s.ownedFree, s.held.Keys);
    WithoutNoDup(h.coming, s.held.Keys);
    NoDupPrefix(Unheld(s.ownedFree, s), r.gpus);
    NoDupPrefix(Unheld(h.coming, s), r.gpus - |Free(s, r)|);
    hide Without, Returning, Borrow, NoDup;
    NoDupAppend(Own(s, r), Back(h, s, r));
  }

  /** With enough unclaimed cards a job starts, or waits for cards on their way,
      and either way claims exactly what it asked for. */
  lemma {:induction false} Claims(h: Host, s: State, r: Request)
    requires Provided(h, s, r)
    ensures Decide(h, s, r).Assigned? || (Decide(h, s, r).Holds? && Decide(h, s, r).gap == 0)
    ensures Decide(h, s, r).Assigned? ==> Decide(h, s, r).gpus == Keeps(h, s, r)
  {
    KeepsEnough(h, s, r);
    hide Decide, Keeps, Unclaimed, NoDup, Apart, Free, Gap;
    NoGapDecides(h, s, r);
  }

  lemma {:induction false} NoGapDecides(h: Host, s: State, r: Request)
    requires !r.borrows && r.gpus <= h.ownedPresent && Gap(h, s, r) == 0
    ensures Fits(s, r) ==> Decide(h, s, r) == Assigned(r.jobId, Free(s, r), [])
    ensures !Fits(s, r) ==> Decide(h, s, r).Holds? && Decide(h, s, r).gap == 0
  {
    hide Without, Within, Fillable, Stops, Ids, OwnedAmong, Holders, Free, Back, Own;
  }

  lemma {:induction false} ClaimedAway(h: Host, s: State, r: Request)
    requires Provided(h, s, r)
    ensures |Unclaimed(h, Next(h, s, r))| == |Unclaimed(h, s)| - r.gpus
    ensures var t := Next(h, s, r); NoDup(t.ownedFree) && Apart(t.ownedFree, h.coming)
    ensures AllCovered(s) ==> AllCovered(Next(h, s, r))
  {
    hide Next, Decide, Without, NoDup, Keeps, Apart, Unclaimed, AllCovered;
    var t, mine := Next(h, s, r), Elems(Keeps(h, s, r));
    Claims(h, s, r);
    KeepsEnough(h, s, r);
    KeepsUnclaimed(h, s, r);
    NoDupCount(Keeps(h, s, r));
    if Decide(h, s, r).Assigned? {
      AssignedCards(h, s, r);
      WithoutNoDup(s.ownedFree, mine);
      FreshTake(h, s, t, mine);
    } else {
      HoldsState(h, s, r);
      FreshHold(h, s, t, mine, r);
    }
    assert Unclaimed(h, s) == Unclaimed(h, t) + mine;
    UnionCount(Unclaimed(h, t), mine);
  }

  lemma {:induction false} FreshHold(h: Host, s: State, t: State, mine: set<Uuid>, r: Request)
    requires Decide(h, s, r).Holds? && Decide(h, s, r).gap == 0 && t == Next(h, s, r)
    requires mine == Elems(Keeps(h, s, r))
    ensures Unclaimed(h, t) == Unclaimed(h, s) - mine
    ensures AllCovered(s) ==> AllCovered(t)
  {
    HoldsState(h, s, r);
    NextGoesOnward(h, s, r);
    HoldsUnstuck(h, s, r);
    hide Next, Decide, Keeps, Without;
    assert forall c :: c in t.held ==> c in s.held || c in Keeps(h, s, r);
  }

  lemma {:induction false} HoldsUnstuck(h: Host, s: State, r: Request)
    requires Decide(h, s, r).Holds? && Decide(h, s, r).gap == 0
    ensures Next(h, s, r).stuck == s.stuck
  {
    hide Without, Within, Free, Back, Fillable, Cover;
  }

  lemma {:induction false} FreshTake(h: Host, s: State, t: State, mine: set<Uuid>)
    requires t == s.(ownedFree := t.ownedFree, sharedFree := t.sharedFree)
    requires t.ownedFree == Without(s.ownedFree, mine) && Apart(s.ownedFree, h.coming)
    requires forall c :: c in mine ==> c in s.ownedFree
    ensures Unclaimed(h, t) == Unclaimed(h, s) - mine
    ensures AllCovered(s) ==> AllCovered(t)
    ensures Apart(t.ownedFree, h.coming)
  {
  }

  /** A job too wide for the host is failed and claims nothing. */
  lemma {:induction false} TooWideClaimsNothing(h: Host, s: State, r: Request)
    requires !r.borrows && r.gpus > h.ownedPresent
    ensures Decide(h, s, r).Fails? && Next(h, s, r) == s
  {
    hide Without, Within, Free, Back, Fillable, Cover;
  }

  /** What a prefix of the queue has claimed, while nobody in it has a gap. */
  ghost predicate Settled(h: Host, s: State, rs: seq<Request>, k: nat)
    requires k <= |rs|
  {
    var t := After(h, s, rs, k);
    && NoDup(t.ownedFree) && Apart(t.ownedFree, h.coming) && AllCovered(t)
    && |Unclaimed(h, t)| == |Unclaimed(h, s)| - Total(h, rs, k)
  }

  lemma {:induction false} SettledStep(h: Host, s: State, rs: seq<Request>, k: nat)
    requires OwnedOnly(h, s, rs) && k < |rs| && Settled(h, s, rs, k)
    requires Total(h, rs, k + 1) <= |Unclaimed(h, s)|
    ensures Settled(h, s, rs, k + 1)
    ensures var d := DecisionAt(h, s, rs, k); d.Assigned? || d.Fails? || (d.Holds? && d.gap == 0)
  {
    hide Next, Decide, NoDup, Apart, Unclaimed, AllCovered;
    var t, r := After(h, s, rs, k), rs[k];
    if r.gpus > h.ownedPresent {
      TooWideClaimsNothing(h, t, r);
    } else {
      Claims(h, t, r);
      ClaimedAway(h, t, r);
    }
  }

  lemma {:induction false} TotalGrows(h: Host, rs: seq<Request>, i: nat, j: nat)
    requires i <= j <= |rs|
    ensures Total(h, rs, i) <= Total(h, rs, j)
    decreases j
  {
    if i < j {
      TotalGrows(h, rs, i, j - 1);
    }
  }

  lemma {:induction false} SettledTo(h: Host, s: State, rs: seq<Request>, k: nat)
    requires OwnedOnly(h, s, rs) && s.held == map[] && !s.stuck && k <= |rs|
    requires Total(h, rs, k) <= |Unclaimed(h, s)|
    ensures Settled(h, s, rs, k)
    ensures forall i :: 0 <= i < k ==>
      var d := DecisionAt(h, s, rs, i); d.Assigned? || d.Fails? || (d.Holds? && d.gap == 0)
  {
    hide Next, Decide, NoDup, Apart, Unclaimed;
    if k > 0 {
      TotalGrows(h, rs, k - 1, k);
      SettledTo(h, s, rs, k - 1);
      SettledStep(h, s, rs, k - 1);
    }
  }

  /** If the cards free and coming cover the queue up to a job, nobody in that
      stretch has a gap. */
  lemma {:induction false} NoGapWhenCovered(h: Host, s: State, rs: seq<Request>, j: nat, i: nat)
    requires OwnedOnly(h, s, rs) && s.held == map[] && !s.stuck && i <= j < |rs|
    requires Total(h, rs, j + 1) <= |s.ownedFree| + |h.coming|
    ensures var d := DecisionAt(h, s, rs, i); d.Assigned? || d.Fails? || (d.Holds? && d.gap == 0)
  {
    hide Next, Decide, NoDup, Apart, Unclaimed, Total;
    FreshCount(h, s);
    SettledTo(h, s, rs, j + 1);
  }

  lemma {:induction false} FreshCount(h: Host, s: State)
    requires NoDup(s.ownedFree) && NoDup(h.coming) && Apart(s.ownedFree, h.coming) && s.held == map[]
    ensures |Unclaimed(h, s)| == |s.ownedFree| + |h.coming|
  {
    UnclaimedCount(h, s);
    assert s.held.Keys == {};
    WithoutNothing(s.ownedFree, {});
    WithoutNothing(h.coming, {});
  }

  /** A job not covered by this is given nothing while every held card is held
      for a covered job and every owned card is held. */
  lemma {:induction false} NothingLeft(h: Host, s: State, r: Request)
    requires !r.borrows && Decide(h, s, r).Assigned?
    requires forall c :: c in s.ownedFree ==> c in s.held && s.held[c] in s.covered
    ensures Decide(h, s, r).gpus == []
  {
    AssignedCards(h, s, r);
    hide Decide, Next;
    NoElements(Decide(h, s, r).gpus);
  }

  /** And while that job waits, nothing behind it gets a card. */
  lemma {:induction false} NobodyPasses(h: Host, s: State, rs: seq<Request>, j: nat, k: nat)
    requires OwnedOnly(h, s, rs) && s.held == map[] && !s.stuck && j < k < |rs|
    requires Total(h, rs, j + 1) <= |s.ownedFree| + |h.coming|
    requires DecisionAt(h, s, rs, j).Holds? && DecisionAt(h, s, rs, k).Assigned?
    ensures DecisionAt(h, s, rs, k).gpus == []
  {
    hide Next, Decide, NoDup, Apart, Unclaimed, Total;
    FreshCount(h, s);
    SettledTo(h, s, rs, j + 1);
    var a, b := After(h, s, rs, j + 1), After(h, s, rs, k);
    HolderTakesAll(h, After(h, s, rs, j), rs[j]);
    GoesOnward(h, s, rs, j + 1, k);
    AllHeld(a);
    forall c | c in b.ownedFree
      ensures c in b.held && b.held[c] in b.covered
    {
      assert c in Elems(b.ownedFree);
      assert c in a.ownedFree;
    }
    NothingLeft(h, b, rs[k]);
  }

  lemma {:induction false} AllHeld(s: State)
    requires UnheldFor(s, false) == 0
    ensures forall c :: c in s.ownedFree ==> c in s.held
  {
    forall c | c in s.ownedFree
      ensures c in s.held
    {
      assert c !in Unheld(s.ownedFree, s);
    }
  }

  // How far short the first job with a gap is, and what a stop makes of it.

  /** Where every held card is held for a covered job, a filler may sit on no
      more than what is unheld. */
  lemma {:induction false} NothingToFill(s: State, r: Request)
    requires AllCovered(s) && !r.borrows
    ensures |Fillable(s, r)| == |Unheld(s.ownedFree, s)|
  {
    assert Covered(s) == s.held.Keys;
    SplitCount(Without(s.ownedFree, Covered(s)), s.held.Keys);
  }

  /** A job asking for more than is unclaimed waits, short by the difference. */
  lemma {:induction false} ShortBy(h: Host, s: State, r: Request)
    requires h.shared == {} && !r.borrows && r.gpus <= h.ownedPresent && AllCovered(s)
    requires NoDup(s.ownedFree) && NoDup(h.coming) && Apart(s.ownedFree, h.coming)
    requires r.gpus > |Unclaimed(h, s)|
    ensures Decide(h, s, r).Holds? && Decide(h, s, r).gap == r.gpus - |Unclaimed(h, s)|
    ensures Decide(h, s, r).preempts == Ids(Cover(h.preemptable, r.SortKey(), Decide(h, s, r).gap, false))
  {
    assert !s.stuck;
    hide Decide, NoDup, Apart, Unclaimed, AllCovered, Fillable, Gap, Cover;
    GapIs(h, s, r);
    NothingToFill(s, r);
    GapDecides(h, s, r);
  }

  lemma {:induction false} GapIs(h: Host, s: State, r: Request)
    requires h.shared == {} && !r.borrows
    requires NoDup(s.ownedFree) && NoDup(h.coming) && Apart(s.ownedFree, h.coming)
    requires r.gpus > |Unclaimed(h, s)|
    ensures Gap(h, s, r) == r.gpus - |Unclaimed(h, s)| && !Fits(s, r) && |Unheld(s.ownedFree, s)| < r.gpus
  {
    UnclaimedCount(h, s);
    ReturningIs(h, s, r);
    hide Without, NoDup, Apart, Returning, Unclaimed;
    assert Own(s, r) + [] == Own(s, r);
  }

  lemma {:induction false} GapDecides(h: Host, s: State, r: Request)
    requires !r.borrows && r.gpus <= h.ownedPresent && !s.stuck
    requires Gap(h, s, r) > 0 && !Fits(s, r) && |Fillable(s, r)| < r.gpus
    ensures Decide(h, s, r).Holds? && Decide(h, s, r).gap == Gap(h, s, r)
    ensures Decide(h, s, r).preempts == Ids(Cover(h.preemptable, r.SortKey(), Gap(h, s, r), false))
  {
    hide Without, Within, Fillable, Cover, OwnedAmong, Holders, Free, Back, Own, Gap, Fits;
  }

  /** Up to the first job with a gap, everything asked for has been claimed. */
  lemma {:induction false} ClaimedUpTo(h: Host, s: State, rs: seq<Request>, k: nat)
    requires OwnedOnly(h, s, rs) && s.held == map[] && !s.stuck && k <= |rs|
    requires forall i :: 0 <= i < k ==> !(DecisionAt(h, s, rs, i).Holds? && DecisionAt(h, s, rs, i).gap > 0)
    ensures Total(h, rs, k) <= |Unclaimed(h, s)| && Settled(h, s, rs, k)
  {
    hide Next, Decide, NoDup, Apart, Unclaimed, AllCovered;
    if k == 0 {
      assert AllCovered(s) by { NobodyHeld(s); }
    } else {
      ClaimedUpTo(h, s, rs, k - 1);
      var t, r := After(h, s, rs, k - 1), rs[k - 1];
      assert !(DecisionAt(h, s, rs, k - 1).Holds? && DecisionAt(h, s, rs, k - 1).gap > 0);
      if r.gpus <= h.ownedPresent && r.gpus > |Unclaimed(h, t)| {
        ShortBy(h, t, r);
      }
      SettledStep(h, s, rs, k - 1);
    }
  }

  /** Exactly then: nobody in the queue up to a job has a gap if and only if the
      cards free and coming cover that stretch. */
  lemma {:induction false} GapFreeExactlyWhenCovered(h: Host, s: State, rs: seq<Request>, j: nat)
    requires OwnedOnly(h, s, rs) && s.held == map[] && !s.stuck && j < |rs|
    ensures (forall i :: 0 <= i <= j ==> !(DecisionAt(h, s, rs, i).Holds? && DecisionAt(h, s, rs, i).gap > 0))
      <==> Total(h, rs, j + 1) <= |s.ownedFree| + |h.coming|
  {
    hide *;
    FreshFacts(h, s, rs);
    if Total(h, rs, j + 1) <= |s.ownedFree| + |h.coming| {
      forall i | 0 <= i <= j
        ensures !(DecisionAt(h, s, rs, i).Holds? && DecisionAt(h, s, rs, i).gap > 0)
      {
        NoGapWhenCovered(h, s, rs, j, i);
      }
    }
    if forall i :: 0 <= i <= j ==> !(DecisionAt(h, s, rs, i).Holds? && DecisionAt(h, s, rs, i).gap > 0) {
      ClaimedUpTo(h, s, rs, j + 1);
    }
  }

  lemma {:induction false} FreshFacts(h: Host, s: State, rs: seq<Request>)
    requires OwnedOnly(h, s, rs) && s.held == map[]
    ensures |Unclaimed(h, s)| == |s.ownedFree| + |h.coming|
  {
    FreshCount(h, s);
  }

  lemma {:induction false} NobodyHeld(s: State)
    requires s.held == map[] && !s.stuck
    ensures AllCovered(s)
  {
  }

  /** The jobs chosen to stop for the first job with a gap own cards enough that,
      once those count as on their way, the queue up to it is covered. */
  lemma {:induction false} StopsCoverTheGap(h: Host, s: State, rs: seq<Request>, j: nat)
    requires OwnedOnly(h, s, rs) && s.held == map[] && !s.stuck && j < |rs|
    requires forall i :: 0 <= i < j ==> !(DecisionAt(h, s, rs, i).Holds? && DecisionAt(h, s, rs, i).gap > 0)
    requires DecisionAt(h, s, rs, j).Holds? && DecisionAt(h, s, rs, j).gap > 0
    ensures var d := DecisionAt(h, s, rs, j);
            var chosen := Cover(h.preemptable, rs[j].SortKey(), d.gap, false);
            && d.preempts == Ids(chosen)
            && Total(h, rs, j + 1) == |s.ownedFree| + |h.coming| + d.gap
            && (d.preempts != [] ==> Total(h, rs, j + 1) <= |s.ownedFree| + |h.coming| + Freed(chosen, false))
  {
    hide Next, Decide, NoDup, Apart, Cover, Freed;
    var t, r := After(h, s, rs, j), rs[j];
    FreshCount(h, s);
    hide Unclaimed, AllCovered;
    ClaimedUpTo(h, s, rs, j);
    FitsIfProvided(h, t, r);
    ShortBy(h, t, r);
    CoverIsExact(h.preemptable, r.SortKey(), DecisionAt(h, s, rs, j).gap, false);
  }

  lemma {:induction false} FitsIfProvided(h: Host, s: State, r: Request)
    requires h.shared == {} && !r.borrows && Decide(h, s, r).Holds? && Decide(h, s, r).gap > 0
    requires NoDup(s.ownedFree) && NoDup(h.coming) && Apart(s.ownedFree, h.coming)
    ensures r.gpus <= h.ownedPresent && r.gpus > |Unclaimed(h, s)|
  {
    hide Decide, NoDup, Apart, Unclaimed;
    if r.gpus > h.ownedPresent {
      TooWideClaimsNothing(h, s, r);
    } else if r.gpus <= |Unclaimed(h, s)| {
      Claims(h, s, r);
    }
  }
}
