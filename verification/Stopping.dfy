/** Stops in service: the cards of the jobs asked to stop are what covers the job
    they were asked for, from the very next pass on. */
module Stopping {
  import opened Lists
  import opened Preempt
  import opened Rule
  import opened RuleTheorems
  import opened Pass
  import opened Machine
  import opened Ledger
  import opened Quiet
  import opened Bookkeeping
  import opened Passes
  import opened Service
  import Livelock
  import Turns

  /** A pass that had candidates to stop. */
  ghost predicate HadCandidates(log: Log, from: nat, p: Readings, r: Round) {
    Serving(log, from, p, r) && r.stopping.h.preemptable != []
  }

  lemma {:induction false} StoppingIs(log: Log, from: nat, p: Readings, r: Round)
    requires HadCandidates(log, from, p, r)
    ensures Kept(r.launched) && Kept(r.reaped) && Kept(r.stopping.at) && Kept(r.after)
    ensures |r.reaped.acts| <= |r.launched.acts| <= |r.stopping.at.acts| <= |r.after.acts| <= |log.acts| && from <= |r.reaped.acts|
    ensures log.states[|r.reaped.acts|].settling.None? && log.states[|r.launched.acts|] == Now(r.launched)
    ensures During(log, |r.reaped.acts|, r.launched, r.stopping) && Extends(r.stopping.at, r.after) && Extends(r.after, log)
    ensures PlanIs(r.stopping, p, r.memo, |r.reaped.acts|, r.launched)
    ensures forall t :: |r.launched.acts| <= t < |r.after.acts| ==> OfStopping(log.states[t].world, log.acts[t], r.asked)
    ensures forall j :: j in r.asked ==> j in Now(r.launched).running && AskedSince(r.launched, r.after, j)
  {
    hide Serving, PlanIs, Done, RequestsAre, Decisions, Wanted;
    ServingIs(log, from, p, r);
    StopPlan(log, from, p, r);
    ExtendsTwice(r.stopping.at, r.after, log);
    NoDropsIn(log, r.reaped, r.launching.at, r.launched);
    forall t | |r.launched.acts| <= t < |r.after.acts|
      ensures OfStopping(log.states[t].world, log.acts[t], r.asked)
    {
      assert log.acts[t] == r.after.acts[t] && log.states[t] == r.after.states[t];
    }
  }

  lemma {:induction false} StopPlan(log: Log, from: nat, p: Readings, r: Round)
    requires HadCandidates(log, from, p, r)
    ensures Kept(r.launched) && Kept(r.after) && Kept(r.stopping.at) && Plain(r.launched, r.stopping.at) && Extends(r.stopping.at, r.after) && Extends(r.after, log)
    ensures Plain(r.reaped, r.launching.at) && OnlyLaunches(r.launching.at, r.launched)
    ensures PlanIs(r.stopping, p, r.memo, |r.reaped.acts|, r.launched)
    ensures forall t :: |r.launched.acts| <= t < |r.after.acts| ==> OfStopping(r.after.states[t].world, r.after.acts[t], r.asked)
    ensures forall j :: j in r.asked ==> j in Now(r.launched).running && AskedSince(r.launched, r.after, j)
    ensures from <= |r.before.acts|
  {
    hide Lawful, QuietLog, Done, RequestsAre, HostFor, ScanIs, StateFor, GivenUpFor, SeenAlive, Decisions, Wanted, StopsFor, MayStop, CandidatesAre,
         OfStopping, AskedSince, TookReading;
  }

  /** While stops are asked for, what is counted stays. */
  lemma {:induction false} SameWhileAsking(log: Log, i: nat, k: nat, asked: seq<JobId>)
    requires Lawful(true, log) && i <= k < |log.states| && forall t :: i <= t < k ==> OfStopping(log.states[t].world, log.acts[t], asked)
    ensures log.states[k].running == log.states[i].running
    decreases k
  {
    if i < k {
      SameWhileAsking(log, i, k - 1, asked);
      LawfulStep(true, log, k - 1);
      assert OfStopping(log.states[k - 1].world, log.acts[k - 1], asked);
      hide Lawful, Happens;
    }
  }

  /** A job asked to stop is on its way out from then on. */
  lemma {:induction false} AskedIsLeaving(log: Log, from: nat, p: Readings, r: Round, j: JobId) returns (t: nat)
    requires HadCandidates(log, from, p, r) && j in r.asked
    ensures Kept(r.launched) && |r.launched.acts| < t <= |r.after.acts| && t < |log.states| && from <= t
    ensures Leaves(log.states[t], j) && log.states[t].running == Now(r.launched).running
  {
    hide PlanIs, During, Wanted, Decisions, QuietLog, RoundIs, PreemptPass, OfStopping, Rechecked;
    StoppingIs(log, from, p, r);
    assert Lawful(true, log);
    hide HadCandidates, Lawful;
    var u :| |r.launched.acts| <= u < |r.after.acts| && r.after.acts[u] == Ask(j);
    assert log.acts[u] == Ask(j);
    t := u + 1;
    LawfulStep(true, log, u);
    AskedLeaves(log.states[u], j);
    SameWhileAsking(log, |r.launched.acts|, t, r.asked);
  }

  // The scene the stops were chosen in.

  lemma {:induction false} MemoIsEmpty(p: Readings, memo: Option<Reading>, running: map<JobId, Entry>, plan: Plan, busy: set<Uuid>)
    requires p.shared == [] && TookReading(p, memo, running, plan)
    ensures StateFor(p, memo, busy) == Fresh(Without(p.owned, busy), [], 0)
  {
  }

  lemma {:induction false} StopState(log: Log, from: nat, p: Readings, r: Round)
    requires HadCandidates(log, from, p, r)
    ensures r.stopping.s == Fresh(r.stopping.s.ownedFree, [], 0)
    ensures r.stopping.h == Turns.HostOf(StopScene(p, r), r.stopping.h.preemptable)
  {
    var q := r.stopping;
    assert p.shared == [] && TookReading(p, r.memo, Now(r.reaped).running, r.launching);
    StoppingIs(log, from, p, r);
    hide Serving, Lawful, QuietLog, Done, RequestsAre, LeaversAre, CandidatesAre, ScanIs, During, TookReading, StateFor, OfStopping, Wanted, Decisions;
    MemoIsEmpty(p, r.memo, Now(r.reaped).running, r.launching, CardsOf(Now(r.launched).running) + q.claims);
  }

  function StopScene(p: Readings, r: Round): Turns.Scene {
    Turns.Scene([], r.stopping.s.ownedFree, r.stopping.h.coming, |p.owned|, p.ownedAbsent, p.sharedAbsent)
  }

  function StopMove(p: Readings, r: Round): Turns.Move {
    Turns.Dispatch(r.stopping.rs, r.stopping.h.preemptable, p.patient)
  }

  lemma {:induction false} StopDealt(log: Log, from: nat, p: Readings, r: Round)
    requires HadCandidates(log, from, p, r)
    ensures Turns.Deal(StopScene(p, r), StopMove(p, r)) == r.stopping.Dealt()
  {
    hide HadCandidates, Turns.Deal, Decisions, Preempt.Cover;
    StopState(log, from, p, r);
    assert [] + r.stopping.rs == r.stopping.rs;
    Turns.DealIs(StopScene(p, r), StopMove(p, r), r.stopping.h, r.stopping.s, r.stopping.rs);
  }

  /** The cards then free and on their way back. */
  lemma {:induction false} StopCards(log: Log, from: nat, p: Readings, r: Round)
    requires HadCandidates(log, from, p, r)
    ensures Kept(r.launched) && EntriesApart(Now(r.launched).running)
    ensures r.stopping.s.ownedFree == Without(p.owned, CardsOf(Now(r.launched).running)) && NoDup(r.stopping.s.ownedFree)
    ensures NoDup(r.stopping.h.coming) && Apart(r.stopping.s.ownedFree, r.stopping.h.coming)
  {
    StoppingIs(log, from, p, r);
    assert Lawful(true, log) && QuietLog(log, from) && p.shared == [] && NoDup(p.owned);
    hide HadCandidates, PlanIs, During, Lawful, QuietLog, Whole, EntriesApart, CardsOf, NoDup, CardsIn, Wanted, Decisions, OfStopping, LeaversAre;
    QuietAt(log, from, |r.launched.acts|);
    WholeApart(Now(r.launched));
    FreeIsUncounted(log, from, |r.reaped.acts|, p, r.memo, r.launched, r.stopping);
    PlanLeavers(r.stopping, p, r.memo, |r.reaped.acts|, r.launched);
    ComingApart(r.stopping.leavers, Now(r.launched).running, p.owned, r.stopping.h.coming);
  }

  // The cards of the jobs asked to stop.

  lemma {:induction false} PreemptsAreCover(h: Host, s: State, r: Request)
    requires Decide(h, s, r).Holds? && Decide(h, s, r).preempts != []
    ensures Decide(h, s, r).gap > 0
    ensures Decide(h, s, r).preempts == Ids(Cover(h.preemptable, r.SortKey(), Decide(h, s, r).gap, r.borrows))
  {
    hide Cover, Free, Back, Fillable, Own, Borrow;
  }

  /** What the stops free is the owned cards of the entries they are of. */
  lemma {:induction false} FreedIsCards(cover: seq<Preemptable>, running: map<JobId, Entry>, p: Readings)
    requires forall x :: x in cover ==> Weighed(x, running, p)
    ensures AllIn(Ids(cover), running) && Freed(cover, false) == |CardsIn(Ids(cover), running, Elems(p.owned))|
  {
    if cover != [] {
      var rest, x := cover[..|cover| - 1], cover[|cover| - 1];
      assert x in cover && cover == rest + [x];
      FreedIsCards(rest, running, p);
      assert Ids(cover) == Ids(rest) + [x.jobId];
      CardsInMore(Ids(rest), x.jobId, running, Elems(p.owned));
      assert Weighed(x, running, p);
    }
    forall i | 0 <= i < |cover|
      ensures Ids(cover)[i] in running
    {
      assert cover[i] in cover;
    }
  }

  lemma {:induction false} CoverIds(candidates: seq<Preemptable>, key: Key, gap: int)
    requires OnceEach(candidates)
    ensures NoDup(Ids(Cover(candidates, key, gap, false)))
    ensures forall x :: x in Cover(candidates, key, gap, false) ==> x in candidates
  {
    var cover := Cover(candidates, key, gap, false);
    CoverIsExact(candidates, key, gap, false);
    CoverNoDup(candidates, key, gap, false);
    hide Cover;
    forall i, j | 0 <= i < j < |cover|
      ensures Ids(cover)[i] != Ids(cover)[j]
    {
      assert cover[i] in cover && cover[j] in cover && cover[i] != cover[j];
      var a :| 0 <= a < |candidates| && candidates[a] == cover[i];
      var b :| 0 <= b < |candidates| && candidates[b] == cover[j];
      assert a < b || b < a;
    }
  }

  /** What the plan knows of its candidates. */
  lemma {:induction false} PlanCandidates(log: Log, from: nat, p: Readings, r: Round)
    requires HadCandidates(log, from, p, r)
    ensures Kept(r.launched) && Kept(r.stopping.left) && Extends(r.stopping.left, r.stopping.at)
    ensures OnceEach(r.stopping.h.preemptable)
    ensures forall x :: x in r.stopping.h.preemptable ==>
      Weighed(x, Now(r.launched).running, p) && SeenStoppable(r.stopping.at, |r.stopping.left.acts|, x)
    ensures |r.launched.acts| <= |r.stopping.left.acts|
    ensures forall j :: j in r.stopping.leavers ==> SeenLeaving(r.stopping.left, |r.launched.acts|, Now(r.launched).running, j)
  {
    StoppingIs(log, from, p, r);
    hide HadCandidates, During, OfStopping, AskedSince, Wanted, Decisions, RequestsAre, ScanIs, StateFor, OnceEach, Weighed, SeenStoppable, SeenLeaving, StandsLeaving, StandsStoppable;
  }

  /** A candidate is on none of the cards on their way back: it was found
      stoppable after those were found leaving. */
  lemma {:induction false} CandidateIsNoLeaver(log: Log, from: nat, p: Readings, r: Round, x: Preemptable)
    requires HadCandidates(log, from, p, r) && x in r.stopping.h.preemptable
    ensures x.jobId !in r.stopping.leavers
  {
    hide HadCandidates, SeenStoppable, SeenLeaving, Weighed, OnceEach, Stoppable;
    PlanCandidates(log, from, p, r);
    var u := FoundAt(r.stopping.at, |r.stopping.left.acts|, x);
    forall j | j in r.stopping.leavers
      ensures !Stoppable(r.stopping.at.states[u].world, j)
    {
      LeaverIsNotStoppable(log, from, p, r, j, u);
    }
  }

  lemma {:induction false} FoundAt(log: Log, from: nat, x: Preemptable) returns (u: nat)
    requires SeenStoppable(log, from, x)
    ensures from <= u < |log.states| && Stoppable(log.states[u].world, x.jobId)
  {
    u :| from <= u < |log.states| && AsFound(log.states[u].world, x);
  }

  lemma {:induction false} LeaverIsNotStoppable(log: Log, from: nat, p: Readings, r: Round, j: JobId, u: nat)
    requires HadCandidates(log, from, p, r) && j in r.stopping.leavers
    requires Kept(r.stopping.left) && |r.stopping.left.acts| <= u < |r.stopping.at.states|
    ensures !Stoppable(r.stopping.at.states[u].world, j)
  {
    StoppingIs(log, from, p, r);
    PlanCandidates(log, from, p, r);
    assert Lawful(true, log) && QuietLog(log, from);
    hide HadCandidates, PlanIs, Lawful, QuietLog, Wanted, Decisions, OfStopping, AskedSince, Weighed, OnceEach, SeenStoppable, Stoppable, During;
    var S, q := Now(r.launched).running, r.stopping;
    assert SeenLeaving(q.left, |r.launched.acts|, S, j);
    var t: nat :| |r.launched.acts| <= t < |q.left.states| && LeavesAt(q.left.states[t], S, j);
    LogsAgree(q.at, q.left, t);
    PlanStates(log, |r.reaped.acts|, r.launched, q, t);
    PlanStates(log, |r.reaped.acts|, r.launched, q, u);
    assert Leaves(log.states[t], j);
    LeavingLasts(log, from, t, u, j);
    NotStoppable(log.states[u], j);
  }

  lemma {:induction false} NotStoppable(s: Snapshot, job: JobId)
    requires Leaves(s, job)
    ensures !Stoppable(s.world, job)
  {
  }

  /** The whole set chosen for job `j` of the queue was asked to stop. */
  ghost predicate AllAsked(log: Log, from: nat, p: Readings, r: Round, j: nat) {
    && HadCandidates(log, from, p, r) && NoneBorrows(r.stopping.rs)
    && FirstStuck(r.stopping.Dealt(), j) && r.stopping.Dealt()[j].preempts != [] && r.asked == r.stopping.Dealt()[j].preempts
  }

  lemma {:induction false} AskedAreCover(log: Log, from: nat, p: Readings, r: Round, j: nat)
    requires AllAsked(log, from, p, r, j)
    ensures j < |r.stopping.rs| && !r.stopping.rs[j].borrows && r.stopping.Dealt()[j].gap > 0
    ensures r.asked == Ids(Cover(r.stopping.h.preemptable, r.stopping.rs[j].SortKey(), r.stopping.Dealt()[j].gap, false))
  {
    var q := r.stopping;
    assert |q.Dealt()| == |q.rs| && FirstStuck(q.Dealt(), j);
    assert q.rs[j] in q.rs;
    hide HadCandidates, Decide, After, Cover;
    PreemptsAreCover(q.h, After(q.h, q.s, q.rs, j), q.rs[j]);
  }

  /** The cards of the jobs asked to stop: owned ones of their entries, none of
      them free or on its way back before, and as many as the rule counted on. */
  lemma {:induction false} BackIs(log: Log, from: nat, p: Readings, r: Round, j: nat)
    requires AllAsked(log, from, p, r, j)
    ensures Kept(r.launched) && AllIn(r.asked, Now(r.launched).running)
    ensures var back := CardsIn(r.asked, Now(r.launched).running, Elems(p.owned));
            && NoDup(back) && Apart(back, r.stopping.s.ownedFree) && Apart(back, r.stopping.h.coming)
            && j < |r.stopping.rs|
            && |back| == Freed(Cover(r.stopping.h.preemptable, r.stopping.rs[j].SortKey(), r.stopping.Dealt()[j].gap, false), false)
  {
    AskedAreCover(log, from, p, r, j);
    PlanCandidates(log, from, p, r);
    StopCards(log, from, p, r);
    var q, S := r.stopping, Now(r.launched).running;
    var cover := Cover(q.h.preemptable, q.rs[j].SortKey(), q.Dealt()[j].gap, false);
    CoverIds(q.h.preemptable, q.rs[j].SortKey(), q.Dealt()[j].gap);
    assert HadCandidates(log, from, p, r);
    hide AllAsked, HadCandidates, Cover, Decisions, SeenStoppable, SeenLeaving, OnceEach, EntriesApart, NoDup;
    assert forall x :: x in cover ==> Weighed(x, S, p);
    hide Weighed;
    FreedIsCards(cover, S, p);
    CardsInOnce(r.asked, S, Elems(p.owned));
    BackIsApart(log, from, p, r, cover);
  }

  lemma {:induction false} BackIsApart(log: Log, from: nat, p: Readings, r: Round, cover: seq<Preemptable>)
    requires HadCandidates(log, from, p, r) && Kept(r.launched) && EntriesApart(Now(r.launched).running)
    requires r.asked == Ids(cover) && (forall x :: x in cover ==> x in r.stopping.h.preemptable) && AllIn(r.asked, Now(r.launched).running)
    requires r.stopping.s.ownedFree == Without(p.owned, CardsOf(Now(r.launched).running))
    ensures var back := CardsIn(r.asked, Now(r.launched).running, Elems(p.owned));
            Apart(back, r.stopping.s.ownedFree) && Apart(back, r.stopping.h.coming)
  {
    StoppingIs(log, from, p, r);
    assert p.shared == [];
    PlanLeavers(r.stopping, p, r.memo, |r.reaped.acts|, r.launched);
    hide PlanIs, During, OfStopping, AskedSince, Wanted, Decisions, LeaversAre, EntriesApart, NoDup, HadCandidates;
    var S, q := Now(r.launched).running, r.stopping;
    forall c | c in CardsIn(r.asked, S, Elems(p.owned))
      ensures c !in q.s.ownedFree && c !in q.h.coming
    {
      InCards(r.asked, S, Elems(p.owned), c);
      var i :| 0 <= i < |r.asked| && c in S[r.asked[i]].gpus;
      CardOf(S, r.asked[i], c);
      assert cover[i] in cover;
      CandidateIsNoLeaver(log, from, p, r, cover[i]);
      InCards(q.leavers, S, Elems(p.owned), c);
      forall k | 0 <= k < |q.leavers|
        ensures c !in S[q.leavers[k]].gpus
      {
        assert q.leavers[k] in q.leavers;
        ApartEntries(S, r.asked[i], q.leavers[k], c);
      }
    }
  }

  function Covering(p: Readings, r: Round, j: nat, back: seq<Uuid>): Turns.Scene
    requires j < |r.stopping.rs|
  {
    Turns.Scene(r.stopping.rs[..j + 1], r.stopping.s.ownedFree, r.stopping.h.coming + back, |p.owned|, p.ownedAbsent, p.sharedAbsent)
  }

  /** Those cards cover the job they were asked for. */
  lemma {:induction false} StopsCover(log: Log, from: nat, p: Readings, r: Round, j: nat)
    requires AllAsked(log, from, p, r, j)
    ensures Kept(r.launched) && AllIn(r.asked, Now(r.launched).running) && j < |r.stopping.rs|
    ensures Turns.CoveredFor(Covering(p, r, j, CardsIn(r.asked, Now(r.launched).running, Elems(p.owned))))
  {
    hide AllAsked, HadCandidates, Cover, Decisions, NoDup, Turns.Deal, Turns.CoveredFor, Freed, Apart, CardsIn;
    AskedAreCover(log, from, p, r, j);
    BackIs(log, from, p, r, j);
    AskedFacts(log, from, p, r, j);
    StopIsOwned(log, from, p, r);
    StopDealt(log, from, p, r);
    var w, m, q := StopScene(p, r), StopMove(p, r), r.stopping;
    assert w.ahead + m.behind == q.rs;
    Turns.PreemptCovers(w, m, j, CardsIn(r.asked, Now(r.launched).running, Elems(p.owned)));
  }

  lemma {:induction false} AskedFacts(log: Log, from: nat, p: Readings, r: Round, j: nat)
    requires AllAsked(log, from, p, r, j)
    ensures HadCandidates(log, from, p, r) && NoneBorrows(r.stopping.rs)
    ensures FirstStuck(r.stopping.Dealt(), j) && r.stopping.Dealt()[j].preempts != []
  {
    hide HadCandidates, Decisions;
  }

  lemma {:induction false} StopIsOwned(log: Log, from: nat, p: Readings, r: Round)
    requires HadCandidates(log, from, p, r) && NoneBorrows(r.stopping.rs)
    ensures var w, m := StopScene(p, r), StopMove(p, r);
            Livelock.OwnedOnly(Turns.HostOf(w, m.preemptable), Fresh(w.free, [], 0), w.ahead + m.behind)
  {
    hide HadCandidates, EntriesApart, NoDup, Apart, CardsOf;
    StopCards(log, from, p, r);
    assert [] + r.stopping.rs == r.stopping.rs;
  }

  // The next pass.

  lemma {:induction false} GoneSince(log: Log, from: nat, p: Readings, r: Round, next: Round, c: Uuid)
    requires Consecutive(log, from, p, r, next) && Kept(r.launched) && EntriesApart(Now(r.launched).running) && c in p.owned
    requires forall j :: j in Now(r.launched).running && c in Now(r.launched).running[j].gpus ==> j !in Now(next.reaped).running
    ensures c in next.launching.s.ownedFree
  {
    FreeFound(log, from, p, next);
    CountedBefore(log, from, p, r, next);
    hide Serving, EntriesApart;
    assert c !in CardsOf(Now(next.reaped).running);
    hide CardsOf;
  }

  /** A card of an entry on its way out by the end of this pass is free or on
      its way back in the next. */
  lemma {:induction false} LeavingIsAccounted(log: Log, from: nat, p: Readings, r: Round, next: Round, t: nat, j: JobId, c: Uuid)
    requires Consecutive(log, from, p, r, next) && Kept(r.launched) && EntriesApart(Now(r.launched).running)
    requires from <= t <= |r.after.acts| && t < |log.states| && Leaves(log.states[t], j) && log.states[t].running == Now(r.launched).running
    requires j in Now(r.launched).running && c in Now(r.launched).running[j].gpus && c in p.owned
    ensures c in next.launching.s.ownedFree || c in next.launching.h.coming
  {
    ServingIs(log, from, p, next);
    hide Serving, PlanIs, Done, During, Leaves, Kept;
    var S, T := Now(r.launched).running, Now(next.reaped).running;
    if j in T {
      CountedBefore(log, from, p, r, next);
      FoundLeaving(log, from, p, next, t, j);
    } else {
      forall i | i in S && c in S[i].gpus
        ensures i !in T
      {
        if i != j {
          ApartEntries(S, i, j, c);
        }
      }
      hide EntriesApart;
      GoneSince(log, from, p, r, next, c);
    }
  }

  lemma {:induction false} CoveringSettles(log: Log, from: nat, p: Readings, r: Round, next: Round, j: nat, k: nat)
    requires Consecutive(log, from, p, r, next) && AllAsked(log, from, p, r, j) && k <= |next.launching.rs|
    requires Kept(r.launched) && AllIn(r.asked, Now(r.launched).running) && j < |r.stopping.rs|
    ensures Turns.Settles(Covering(p, r, j, CardsIn(r.asked, Now(r.launched).running, Elems(p.owned))), SceneOf(p, next, k))
  {
    assert HadCandidates(log, from, p, r) && Serving(log, from, p, next);
    hide Consecutive, Serving, AllAsked, HadCandidates, NoDup, Apart, EntriesApart, CardsIn, CardsOf, Turns.Settles;
    CardsFound(log, from, p, next);
    var back := CardsIn(r.asked, Now(r.launched).running, Elems(p.owned));
    var v, w := Covering(p, r, j, back), SceneOf(p, next, k);
    forall c | c in v.free || c in v.coming
      ensures c in w.free || c in w.coming
    {
      assert c in r.stopping.s.ownedFree || c in r.stopping.h.coming || c in back;
      CoveringCard(log, from, p, r, next, c);
    }
    Turns.SettlesIf(v, w);
  }

  lemma {:induction false} CoveringCard(log: Log, from: nat, p: Readings, r: Round, next: Round, c: Uuid)
    requires Consecutive(log, from, p, r, next) && HadCandidates(log, from, p, r)
    requires Kept(r.launched) && AllIn(r.asked, Now(r.launched).running)
    requires c in r.stopping.s.ownedFree || c in r.stopping.h.coming || c in CardsIn(r.asked, Now(r.launched).running, Elems(p.owned))
    ensures c in next.launching.s.ownedFree || c in next.launching.h.coming
  {
    hide Serving, HadCandidates, Leaves, EntriesApart, NoDup;
    StopCards(log, from, p, r);
    var S := Now(r.launched).running;
    if c in r.stopping.s.ownedFree {
      forall j | j in S
        ensures c !in S[j].gpus
      {
        NotCardOf(S, j, c);
      }
      GoneSince(log, from, p, r, next, c);
    } else if c in r.stopping.h.coming {
      var j, t := StopLeaverSeen(log, from, p, r, c);
      LeavingIsAccounted(log, from, p, r, next, t, j, c);
    } else {
      InCards(r.asked, S, Elems(p.owned), c);
      var i :| 0 <= i < |r.asked| && c in S[r.asked[i]].gpus;
      assert r.asked[i] in r.asked;
      var t := AskedIsLeaving(log, from, p, r, r.asked[i]);
      LeavingIsAccounted(log, from, p, r, next, t, r.asked[i], c);
    }
  }

  lemma {:induction false} NotCardOf(running: map<JobId, Entry>, job: JobId, c: Uuid)
    requires c !in CardsOf(running) && job in running
    ensures c !in running[job].gpus
  {
  }

  lemma {:induction false} StopLeaverSeen(log: Log, from: nat, p: Readings, r: Round, c: Uuid) returns (j: JobId, t: nat)
    requires HadCandidates(log, from, p, r) && c in r.stopping.h.coming
    ensures Kept(r.launched) && j in Now(r.launched).running && c in Now(r.launched).running[j].gpus && c in p.owned
    ensures from <= t <= |r.after.acts| && t < |log.states|
    ensures Leaves(log.states[t], j) && log.states[t].running == Now(r.launched).running
  {
    StoppingIs(log, from, p, r);
    assert p.shared == [] && Lawful(true, log);
    PlanLeavers(r.stopping, p, r.memo, |r.reaped.acts|, r.launched);
    hide HadCandidates, PlanIs, Lawful, Wanted, Decisions, OfStopping, AskedSince, NoDup, StandsLeaving;
    var S, q := Now(r.launched).running, r.stopping;
    InCards(q.leavers, S, Elems(p.owned), c);
    var i :| 0 <= i < |q.leavers| && c in S[q.leavers[i]].gpus;
    j := q.leavers[i];
    assert j in q.leavers;
    assert SeenLeaving(q.at, |r.launched.acts|, S, j);
    t :| |r.launched.acts| <= t < |q.at.states| && LeavesAt(q.at.states[t], S, j);
    PlanStates(log, |r.reaped.acts|, r.launched, q, t);
  }

  /** Stopping works: once the whole set chosen for a job has been asked to stop,
      the very next pass finds that job covered, if nobody ahead of it has come
      or gone. */
  lemma {:induction false} CoveredInTheNextPass(log: Log, from: nat, p: Readings, r: Round, next: Round, j: nat, k: nat)
    requires Consecutive(log, from, p, r, next) && AllAsked(log, from, p, r, j)
    requires j < |r.stopping.rs| && k <= |next.launching.rs| && next.launching.rs[..k] == r.stopping.rs[..j + 1]
    ensures Turns.CoveredFor(SceneOf(p, next, k)) && Turns.Waits(SceneOf(p, next, k), r.stopping.rs[j])
  {
    hide Consecutive, AllAsked, Turns.CoveredFor, Turns.Settles, CardsIn;
    StopsCover(log, from, p, r, j);
    CoveringSettles(log, from, p, r, next, j, k);
    Turns.SettlesKeeps(Covering(p, r, j, CardsIn(r.asked, Now(r.launched).running, Elems(p.owned))), SceneOf(p, next, k));
  }
}
