/** `Pool` and `plan` of gpuc/host/plan.py as the program runs them: a pool
    whose lists are consumed in place, and whose shared cards are read from
    nvidia-smi at most once, when the first job that needs one is reached. */
module Pass {
  import opened Lists
  import opened Preempt
  import opened Rule
  import opened RuleTheorems

  /** One reading of the shared cards: those nobody is on, and how many
      somebody else is on. */
  datatype Reading = Reading(free: seq<Uuid>, theirs: nat)

  /** The state of a pass that has perhaps not read the shared cards yet, and
      how many times it has. */
  datatype Lazy = Lazy(
    ownedFree: seq<Uuid>, sharedFree: Option<seq<Uuid>>, theirs: nat,
    held: map<Uuid, JobId>, covered: set<JobId>, stuck: bool, samples: nat)

  function View(l: Lazy): State {
    State(l.ownedFree, if l.sharedFree.Some? then l.sharedFree.value else [], l.theirs, l.held, l.covered, l.stuck)
  }

  function Sampled(l: Lazy, sample: Option<Reading>): Lazy {
    if l.sharedFree.Some? then l
    else match sample
      case None => l.(sharedFree := Some([]), theirs := 0)
      case Some(reading) => l.(sharedFree := Some(reading.free), theirs := reading.theirs, samples := l.samples + 1)
  }

  /** A borrower the host is big enough for, short of unheld owned cards. */
  predicate NeedsShared(h: Host, s: State, r: Request) {
    Failure(h, r).None? && r.borrows && |Own(s, r)| < r.gpus
  }

  function Ready(h: Host, sample: Option<Reading>, l: Lazy, r: Request): Lazy {
    if NeedsShared(h, View(l), r) then Sampled(l, sample) else l
  }

  function LazyDecide(h: Host, sample: Option<Reading>, l: Lazy, r: Request): Decision {
    Decide(h, View(Ready(h, sample, l, r)), r)
  }

  function LazyNext(h: Host, sample: Option<Reading>, l: Lazy, r: Request): Lazy {
    var ready := Ready(h, sample, l, r);
    var s := Next(h, View(ready), r);
    Lazy(s.ownedFree, if ready.sharedFree.Some? then Some(s.sharedFree) else None, s.theirs,
         s.held, s.covered, s.stuck, ready.samples)
  }

  function LazyAfter(h: Host, sample: Option<Reading>, l: Lazy, rs: seq<Request>, k: nat): Lazy
    requires k <= |rs|
  {
    if k == 0 then l else LazyNext(h, sample, LazyAfter(h, sample, l, rs, k - 1), rs[k - 1])
  }

  /** What each branch of the rule comes to. */
  lemma {:induction false} BranchIs(h: Host, s: State, r: Request)
    ensures Failure(h, r).Some? ==> Decide(h, s, r) == Fails(r.jobId, Failure(h, r).value) && Next(h, s, r) == s
    ensures Branching(h, s, r) == Fit ==>
      Decide(h, s, r) == Assigned(r.jobId, Free(s, r), []) && Next(h, s, r) == Taken(s, Free(s, r))
    ensures Branching(h, s, r) == StepOver ==>
      Decide(h, s, r) == SteppedOver(r.jobId, r.gpus - Ours(h, s, r)) && Next(h, s, r) == s
    ensures Branching(h, s, r) == Fill ==>
      var cards := First(Fillable(s, r), r.gpus);
      Decide(h, s, r) == Assigned(r.jobId, cards, Holders(cards, s.held)) && Next(h, s, r) == Taken(s, cards)
  {
    hide Without, Within, Cover, Fillable, Free, Back, Holders;
  }

  /** What one pass has to hand out. */
  class Pool {
    const host: Host
    const sample: Option<Reading>
    var ownedFree: seq<Uuid>
    var sharedFree: Option<seq<Uuid>>
    var theirs: nat
    /** How many times `sample` has been called. */
    var samples: nat

    constructor (host: Host, sample: Option<Reading>, ownedFree: seq<Uuid>, sharedFree: Option<seq<Uuid>>, theirs: nat)
      ensures this.host == host && this.sample == sample
      ensures At(map[], {}, false) == Lazy(ownedFree, sharedFree, theirs, map[], {}, false, 0)
    {
      this.host := host;
      this.sample := sample;
      this.ownedFree := ownedFree;
      this.sharedFree := sharedFree;
      this.theirs := theirs;
      this.samples := 0;
    }

    function At(held: map<Uuid, JobId>, covered: set<JobId>, stuck: bool): Lazy
      reads this
    {
      Lazy(ownedFree, sharedFree, theirs, held, covered, stuck, samples)
    }

    method Borrowable() returns (cards: seq<Uuid>)
      modifies this
      ensures At(map[], {}, false) == Sampled(old(At(map[], {}, false)), sample)
      ensures sharedFree == Some(cards)
    {
      if sharedFree.None? {
        match sample {
          case None =>
            sharedFree, theirs := Some([]), 0;
          case Some(reading) =>
            sharedFree, theirs, samples := Some(reading.free), reading.theirs, samples + 1;
        }
      }
      cards := sharedFree.value;
    }

    method Take(cards: seq<Uuid>)
      modifies this
      ensures theirs == old(theirs) && samples == old(samples)
      ensures ownedFree == Without(old(ownedFree), Elems(cards))
      ensures sharedFree == if old(sharedFree).Some? then Some(Without(old(sharedFree).value, Elems(cards))) else None
    {
      var gone := set c | c in cards;
      ownedFree := Without(ownedFree, gone);
      if sharedFree.Some? {
        sharedFree := Some(Without(sharedFree.value, gone));
      }
    }

    /** `_fill`: the cards that would start this `auto_preempt` job now, and
        the jobs holding them. */
    method TryFill(request: Request, held: map<Uuid, JobId>, covered: set<JobId>, ghost stuck: bool)
      returns (fill: Option<Decision>)
      requires request.borrows ==> sharedFree.Some?
      modifies this
      ensures At(held, covered, stuck) == old(At(held, covered, stuck))
      ensures var cards := Fillable(View(At(held, covered, stuck)), request);
              fill == if |cards| < request.gpus then None
                      else Some(Assigned(request.jobId, First(cards, request.gpus),
                                         Holders(First(cards, request.gpus), held)))
    {
      var closed := set c | c in held && held[c] in covered;
      var owned := UnheldFirst(Without(ownedFree, closed), held);
      var shared := [];
      if request.borrows {
        var borrowable := Borrowable();
        shared := UnheldFirst(Without(borrowable, closed), held);
      }
      var cards := First(owned + shared, request.gpus);
      if |cards| < request.gpus {
        return None;
      }
      return Some(Assigned(request.jobId, cards, Holders(cards, held)));
    }

    /** The cards a request would start on now, and how many of them are owned. */
    method Gather(request: Request, held: map<Uuid, JobId>, covered: set<JobId>, stuck: bool)
      returns (free: seq<Uuid>, owned: nat)
      requires Failure(host, request).None?
      modifies this
      ensures At(held, covered, stuck) == Ready(host, sample, old(At(held, covered, stuck)), request)
      ensures var s := View(At(held, covered, stuck)); free == Free(s, request) && owned == |Own(s, request)|
      ensures request.borrows && owned < request.gpus ==> sharedFree.Some?
    {
      hide Without;
      free := First(Without(ownedFree, held.Keys), request.gpus);
      owned := |free|;
      if |free| < request.gpus && request.borrows {
        var borrowable := Borrowable();
        free := free + First(Without(borrowable, held.Keys), request.gpus - |free|);
      }
    }

    /** A request that fits nowhere now keeps what it could take. */
    method Keep(request: Request, held: map<Uuid, JobId>, covered: set<JobId>, stuck: bool,
                free: seq<Uuid>, owned: nat, coming: seq<Uuid>)
      returns (decision: Decision, held': map<Uuid, JobId>, covered': set<JobId>, stuck': bool)
      requires var s := View(At(held, covered, stuck));
               && Branching(host, s, request) == Wait
               && free == Free(s, request) && owned == |Own(s, request)| && coming == Back(host, s, request)
      ensures var s := View(At(held, covered, stuck));
              && decision == Decide(host, s, request)
              && Next(host, s, request) == s.(held := held', covered := covered', stuck := stuck')
    {
      hide Without, Within, Cover, Own, Borrow, Returning, Fillable;
      var short := request.gpus - |free| - |coming|;
      held', covered', stuck' := held, covered, stuck;
      var preempts := [];
      if short > 0 && !stuck {
        stuck' := true;
        preempts := EnoughToStart(host.preemptable, request.SortKey(), short, request.borrows);
      }
      held' := Hold(held, free + coming, request.jobId);
      if short == 0 || preempts != [] {
        covered' := covered' + {request.jobId};
      }
      var n := owned + OwnedAmong(coming, host.shared);
      decision := Holds(request.jobId, n, |free| + |coming| - n, short, Ids(preempts));
    }

    /** One turn of the walk. */
    method DecideOne(request: Request, held: map<Uuid, JobId>, covered: set<JobId>, stuck: bool)
      returns (decision: Decision, held': map<Uuid, JobId>, covered': set<JobId>, stuck': bool)
      modifies this
      ensures decision == LazyDecide(host, sample, old(At(held, covered, stuck)), request)
      ensures At(held', covered', stuck') == LazyNext(host, sample, old(At(held, covered, stuck)), request)
    {
      hide Decide, Next, Without, Within, Holders, Cover, Fillable, Own, Borrow;
      ghost var before := At(held, covered, stuck);
      held', covered', stuck' := held, covered, stuck;
      var failure := CapacityFailure(request.gpus, host.ownedPresent, host.sharedVisible, request.borrows,
                                     host.ownedAbsent + if request.borrows then host.sharedAbsent else []);
      if failure.Some? {
        BranchIs(host, View(before), request);
        return Fails(request.jobId, failure.value), held', covered', stuck';
      }
      var want := request.gpus;
      var free, owned := Gather(request, held, covered, stuck);
      ghost var s := View(At(held, covered, stuck));
      BranchIs(host, s, request);
      if |free| == want {
        Take(free);
        return Assigned(request.jobId, free, []), held', covered', stuck';
      }
      var mine := Without(host.coming, held.Keys + if request.borrows then {} else host.shared);
      var coming := First(Without(mine, host.shared) + Within(mine, host.shared), want - |free|);
      var short := want - |free| - |coming|;
      assert coming == Back(host, s, request) && short == Gap(host, s, request);
      var ours := host.ownedPresent + if request.borrows then host.sharedVisible - theirs else 0;
      if want > ours {
        return SteppedOver(request.jobId, want - ours), held', covered', stuck';
      }
      if request.fills && short > 0 {
        var fill := TryFill(request, held, covered, stuck);
        if fill.Some? {
          Take(fill.value.gpus);
          return fill.value, held', covered', stuck';
        }
      }
      decision, held', covered', stuck' := Keep(request, held, covered, stuck, free, owned, coming);
    }

    /** `plan`: one decision per request, in order, consuming the pool. */
    method Plan(requests: seq<Request>) returns (decisions: seq<Decision>)
      modifies this
      ensures var start := old(At(map[], {}, false));
              && |decisions| == |requests|
              && (forall k :: 0 <= k < |requests| ==>
                   decisions[k] == LazyDecide(host, sample, LazyAfter(host, sample, start, requests, k), requests[k]))
              && exists held, covered, stuck :: At(held, covered, stuck) == LazyAfter(host, sample, start, requests, |requests|)
    {
      hide LazyDecide, LazyNext;
      decisions := [];
      var held: map<Uuid, JobId> := map[];
      var covered: set<JobId> := {};
      var stuck := false;
      ghost var start := At(map[], {}, false);
      for i := 0 to |requests|
        invariant |decisions| == i
        invariant At(held, covered, stuck) == LazyAfter(host, sample, start, requests, i)
        invariant forall k :: 0 <= k < i ==>
          decisions[k] == LazyDecide(host, sample, LazyAfter(host, sample, start, requests, k), requests[k])
      {
        var decision;
        decision, held, covered, stuck := DecideOne(requests[i], held, covered, stuck);
        decisions := decisions + [decision];
      }
    }
  }

  // Reading late is the same as having read before the pass began.

  function Eager(l: Lazy, sample: Option<Reading>): State {
    View(Sampled(l, sample))
  }

  /** An unread pool's owned cards are none of the shared ones it would read. */
  predicate OwnedApart(l: Lazy, sample: Option<Reading>) {
    l.sharedFree.None? ==> Apart(l.ownedFree, Eager(l, sample).sharedFree)
  }

  /** Two states that differ only in the shared cards look alike to a job that
      needs none. */
  lemma {:induction false} SameBranch(h: Host, a: State, b: State, r: Request)
    requires a == b.(sharedFree := a.sharedFree, theirs := a.theirs)
    requires Failure(h, r).None? && !NeedsShared(h, a, r)
    ensures Branching(h, a, r) == Branching(h, b, r)
    ensures Own(a, r) == Own(b, r) && Free(a, r) == Free(b, r)
    ensures !Fits(a, r) ==> Back(h, a, r) == Back(h, b, r) && Fillable(a, r) == Fillable(b, r) && Ours(h, a, r) == Ours(h, b, r)
  {
    assert Own(a, r) == Own(b, r) && Borrow(a, r) == Borrow(b, r);
    assert Covered(a) == Covered(b);
    if !Fits(a, r) {
      assert !r.borrows;
      assert Returning(h, a, r) == Returning(h, b, r);
    }
  }

  lemma {:induction false} SameDecision(h: Host, a: State, b: State, r: Request)
    requires a == b.(sharedFree := a.sharedFree, theirs := a.theirs)
    requires !NeedsShared(h, a, r)
    ensures Decide(h, a, r) == Decide(h, b, r)
    ensures Next(h, a, r).(sharedFree := [], theirs := 0) == Next(h, b, r).(sharedFree := [], theirs := 0)
  {
    if Failure(h, r).None? {
      SameBranch(h, a, b, r);
    }
    hide Without, Within, Cover, Own, Free, Back, Fillable, Holders, Ours, CanFill, Fits;
  }

  lemma {:induction false} SameTake(h: Host, s: State, r: Request)
    requires !NeedsShared(h, s, r) && Decide(h, s, r).Assigned?
    ensures forall c :: c in Decide(h, s, r).gpus ==> c in s.ownedFree
  {
    FreeIsUnheld(s, r);
    FillableIsOpen(s, r);
    hide Without, Within, Fillable;
  }

  lemma {:induction false} EagerNext(h: Host, sample: Option<Reading>, l: Lazy, r: Request)
    requires OwnedApart(l, sample)
    ensures LazyDecide(h, sample, l, r) == Decide(h, Eager(l, sample), r)
    ensures Eager(LazyNext(h, sample, l, r), sample) == Next(h, Eager(l, sample), r)
    ensures OwnedApart(LazyNext(h, sample, l, r), sample)
  {
    var s := View(l);
    var e := Eager(l, sample);
    if l.sharedFree.None? && !NeedsShared(h, s, r) {
      SameDecision(h, s, e, r);
      if Decide(h, s, r).Assigned? {
        SameTake(h, s, r);
      }
      NextLists(h, s, r);
      NextLists(h, e, r);
      hide Next, Decide;
      if Decide(h, s, r).Assigned? {
        WithoutNothing(e.sharedFree, Elems(Decide(h, s, r).gpus));
      }
    } else {
      NextLists(h, e, r);
    }
  }

  lemma {:induction false} NextLists(h: Host, s: State, r: Request)
    ensures var t := Next(h, s, r);
            && t.theirs == s.theirs
            && (forall c :: c in t.ownedFree ==> c in s.ownedFree)
            && t.sharedFree == if Decide(h, s, r).Assigned? then Without(s.sharedFree, Elems(Decide(h, s, r).gpus)) else s.sharedFree
  {
  }

  /** The decisions of a pass do not depend on when the shared cards are read:
      they are those of a pool that had read them beforehand. */
  lemma {:induction false} LazyIsEager(h: Host, sample: Option<Reading>, l: Lazy, rs: seq<Request>, k: nat)
    requires OwnedApart(l, sample) && k <= |rs|
    ensures OwnedApart(LazyAfter(h, sample, l, rs, k), sample)
    ensures Eager(LazyAfter(h, sample, l, rs, k), sample) == After(h, Eager(l, sample), rs, k)
    ensures k < |rs| ==>
      LazyDecide(h, sample, LazyAfter(h, sample, l, rs, k), rs[k]) == DecisionAt(h, Eager(l, sample), rs, k)
  {
    hide Next, Decide, LazyNext, LazyDecide, Eager, OwnedApart;
    if k > 0 {
      LazyIsEager(h, sample, l, rs, k - 1);
      EagerNext(h, sample, LazyAfter(h, sample, l, rs, k - 1), rs[k - 1]);
    }
    if k < |rs| {
      EagerNext(h, sample, LazyAfter(h, sample, l, rs, k), rs[k]);
    }
  }

  lemma {:induction false} ReadsStep(h: Host, sample: Option<Reading>, l: Lazy, r: Request)
    ensures var t := LazyNext(h, sample, l, r);
            && (l.sharedFree.Some? ==> t.sharedFree.Some?)
            && t.samples == l.samples + (if l.sharedFree.None? && sample.Some? && NeedsShared(h, View(l), r) then 1 else 0)
            && (t.samples > l.samples ==> t.sharedFree.Some?)
            && (l.sharedFree.None? && sample.Some? && t.sharedFree.Some? ==> t.samples == l.samples + 1)
  {
    hide Next;
  }

  /** The shared cards are read at most once, and only when some borrower the
      host is big enough for was short of unheld owned cards. */
  lemma {:induction false} ReadsAtMostOnce(h: Host, sample: Option<Reading>, l: Lazy, rs: seq<Request>, k: nat)
    requires l.samples == 0 && k <= |rs|
    ensures var t := LazyAfter(h, sample, l, rs, k);
            && t.samples <= 1
            && (t.samples == 1 ==> t.sharedFree.Some?)
            && (t.samples == 1 <==>
                 l.sharedFree.None? && sample.Some?
                 && exists i :: 0 <= i < k && NeedsShared(h, View(LazyAfter(h, sample, l, rs, i)), rs[i]))
            && (t.sharedFree.None? ==> l.sharedFree.None?)
            && (l.sharedFree.None? && sample.Some? && t.sharedFree.Some? ==> t.samples == 1)
  {
    hide LazyNext, NeedsShared, View;
    if k > 0 {
      ReadsAtMostOnce(h, sample, l, rs, k - 1);
      ReadsStep(h, sample, LazyAfter(h, sample, l, rs, k - 1), rs[k - 1]);
      assert (exists i :: 0 <= i < k && NeedsShared(h, View(LazyAfter(h, sample, l, rs, i)), rs[i])) <==>
             (exists i :: 0 <= i < k - 1 && NeedsShared(h, View(LazyAfter(h, sample, l, rs, i)), rs[i]))
             || NeedsShared(h, View(LazyAfter(h, sample, l, rs, k - 1)), rs[k - 1]);
    }
  }
}
