/** Passes in service: what becomes of the cards of a quiet host from one pass
    to the next, and that nobody is passed over for ever. */
module Service {
  import opened Lists
  import opened Preempt
  import opened Rule
  import opened RuleTheorems
  import opened Pass
  import opened Machine
  import opened Ledger
  import opened Quiet
  import opened Bookkeeping
  import opened Passes
  import Livelock
  import Turns

  /** A host that lends nothing and is not draining. */
  predicate OwnOnly(p: Readings) {
    p.shared == [] && NoDup(p.owned) && !p.draining
  }

  // The cards of a plan on a quiet host.

  /** The dispatcher counts the same between these two moments. */
  lemma {:induction false} SameCount(log: Log, i: nat, k: nat)
    requires Lawful(true, log) && i <= k < |log.states|
    requires forall t :: i <= t < k ==> log.acts[t].Env? || log.acts[t].Dismiss?
    ensures log.states[k].running == log.states[i].running && log.states[k].settling == log.states[i].settling
    decreases k
  {
    if i < k {
      SameCount(log, i, k - 1);
      LawfulStep(true, log, k - 1);
      hide Lawful, Happens;
    }
  }

  lemma {:induction false} EntriesStep(s: Snapshot, a: Act)
    requires QuietAct(s, a)
    ensures !a.Spawn? ==> forall j :: j in Apply(s, a).running ==> j in s.running && s.running[j] == Apply(s, a).running[j]
    ensures !a.Drop? && Allowed(true, s, a) ==> forall j :: j in s.running ==> j in Apply(s, a).running && s.running[j] == Apply(s, a).running[j]
    ensures !a.Drop? && s.settling.None? ==> Apply(s, a).settling.None?
  {
    hide Happens, SomebodyAhead;
  }

  /** Without spawns, entries only go. */
  lemma {:induction false} FewerEntries(log: Log, from: nat, i: nat, k: nat)
    requires Lawful(true, log) && QuietLog(log, from) && from <= i <= k < |log.states|
    requires forall t :: i <= t < k ==> !log.acts[t].Spawn?
    ensures forall j :: j in log.states[k].running ==> j in log.states[i].running && log.states[i].running[j] == log.states[k].running[j]
    decreases k
  {
    hide Lawful, QuietLog, Whole, Apply, QuietAct, Allowed;
    if i < k {
      FewerEntries(log, from, i, k - 1);
      LawfulStep(true, log, k - 1);
      QuietAt(log, from, k - 1);
      EntriesStep(log.states[k - 1], log.acts[k - 1]);
    }
  }

  /** Without drops, they only come. */
  lemma {:induction false} MoreEntries(log: Log, from: nat, i: nat, k: nat)
    requires Lawful(true, log) && QuietLog(log, from) && from <= i <= k < |log.states|
    requires forall t :: i <= t < k ==> !log.acts[t].Drop?
    ensures forall j :: j in log.states[i].running ==> j in log.states[k].running && log.states[i].running[j] == log.states[k].running[j]
    ensures log.states[i].settling.None? ==> log.states[k].settling.None?
    decreases k
  {
    hide Lawful, QuietLog, Whole, Apply, QuietAct, Allowed;
    if i < k {
      MoreEntries(log, from, i, k - 1);
      LawfulStep(true, log, k - 1);
      QuietAt(log, from, k - 1);
      EntriesStep(log.states[k - 1], log.acts[k - 1]);
    }
  }

  /** The stretch of the whole log in which a plan was made, by what was read
      since `began`. */
  predicate During(log: Log, began: nat, before: Log, plan: Plan) {
    && Kept(before) && Kept(plan.at) && Kept(log) && Plain(before, plan.at) && Extends(plan.at, log)
    && began <= |before.acts| && (forall t :: began <= t < |before.acts| ==> !log.acts[t].Drop?)
  }

  lemma {:induction false} PlanStates(log: Log, began: nat, before: Log, plan: Plan, t: nat)
    requires Lawful(true, log) && During(log, began, before, plan) && |before.acts| <= t <= |plan.at.acts|
    ensures t < |log.states| && log.states[t] == plan.at.states[t]
    ensures log.states[t].running == Now(before).running && log.states[t].settling == Now(before).settling
  {
    forall u | |before.acts| <= u < t
      ensures log.acts[u].Env? || log.acts[u].Dismiss?
    {
      assert log.acts[u] == plan.at.acts[u];
    }
    assert log.states[|before.acts|] == plan.at.states[|before.acts|] == Now(before);
    SameCount(log, |before.acts|, t);
  }

  /** A claim seen since is that of an entry still there. */
  lemma {:induction false} ClaimsAreCounted(log: Log, from: nat, began: nat, before: Log, plan: Plan, c: Uuid)
    requires Lawful(true, log) && QuietLog(log, from) && During(log, began, before, plan) && from <= began
    requires log.states[began].settling.None? && SeenClaimed(plan.at.states, began, |plan.at.acts|, c)
    ensures c in CardsOf(Now(before).running)
  {
    var t: nat, j :| began <= t <= |plan.at.acts| && Claims(plan.at.states[t].world, j, c);
    var n := |plan.at.acts|;
    PlanStates(log, began, before, plan, n);
    assert log.states[t] == plan.at.states[t];
    forall u | began <= u < n
      ensures !log.acts[u].Drop?
    {
      assert u >= |before.acts| ==> log.acts[u] == plan.at.acts[u];
    }
    MoreEntries(log, from, began, t);
    MoreEntries(log, from, t, n);
    QuietAt(log, from, t);
    CountedClaim(log.states[t], j, c);
    hide Lawful, QuietLog, Whole;
    assert c in log.states[n].running[j].gpus;
  }

  lemma {:induction false} CountedClaim(s: Snapshot, job: JobId, c: Uuid)
    requires Whole(s) && s.settling.None? && Claims(s.world, job, c)
    ensures job in s.running && c in s.running[job].gpus
  {
    assert ClaimIsCounted(s, job);
    assert Quiet.Fits(s.world, job, s.running[job]);
  }

  /** So the free cards are the owned ones in no entry. */
  lemma {:induction false} FreeIsUncounted(log: Log, from: nat, began: nat, p: Readings, memo: Option<Reading>, before: Log, plan: Plan)
    requires Lawful(true, log) && QuietLog(log, from) && During(log, began, before, plan) && from <= began
    requires log.states[began].settling.None? && PlanIs(plan, p, memo, began, before)
    ensures plan.s.ownedFree == Without(p.owned, CardsOf(Now(before).running))
    ensures NoDup(p.owned) ==> NoDup(plan.s.ownedFree)
  {
    var R := Now(before).running;
    forall c | c in plan.claims
      ensures c in CardsOf(R)
    {
      ClaimsAreCounted(log, from, began, before, plan, c);
    }
    hide CardsOf, Lawful, QuietLog;
    WithoutSame(p.owned, CardsOf(R) + plan.claims, CardsOf(R));
    if NoDup(p.owned) {
      WithoutNoDup(p.owned, CardsOf(R));
    }
  }

  // The cards on their way back.

  lemma {:induction false} InCards(jobs: seq<JobId>, running: map<JobId, Entry>, visible: set<Uuid>, c: Uuid)
    requires AllIn(jobs, running)
    ensures c in CardsIn(jobs, running, visible) <==> c in visible && exists i :: 0 <= i < |jobs| && c in running[jobs[i]].gpus
  {
    if jobs != [] {
      var rest, job := jobs[..|jobs| - 1], jobs[|jobs| - 1];
      InCards(rest, running, visible, c);
      assert forall i :: 0 <= i < |rest| ==> rest[i] == jobs[i];
      if c in running[job].gpus {
        assert c in running[jobs[|jobs| - 1]].gpus;
      }
      if exists i :: 0 <= i < |jobs| && c in running[jobs[i]].gpus {
        var i :| 0 <= i < |jobs| && c in running[jobs[i]].gpus;
        assert i < |rest| ==> c in running[rest[i]].gpus;
      }
    }
  }

  lemma {:induction false} CardsInOnce(jobs: seq<JobId>, running: map<JobId, Entry>, visible: set<Uuid>)
    requires AllIn(jobs, running) && NoDup(jobs) && EntriesApart(running)
    ensures NoDup(CardsIn(jobs, running, visible))
  {
    if jobs != [] {
      var rest, job := jobs[..|jobs| - 1], jobs[|jobs| - 1];
      CardsInOnce(rest, running, visible);
      WithinNoDup(running[job].gpus, visible);
      forall c | c in CardsIn(rest, running, visible)
        ensures c !in Within(running[job].gpus, visible)
      {
        InCards(rest, running, visible, c);
        var i :| 0 <= i < |rest| && c in running[rest[i]].gpus;
        assert rest[i] == jobs[i] && jobs[i] != job;
      }
      hide EntriesApart;
      NoDupAppend(CardsIn(rest, running, visible), Within(running[job].gpus, visible));
    }
  }

  // From one pass to the next.

  /** A pass of a quiet stretch of the log. */
  ghost predicate Serving(log: Log, from: nat, p: Readings, r: Round) {
    && Lawful(true, log) && QuietLog(log, from) && Kept(log) && OwnOnly(p)
    && RoundIs(p, r) && Extends(r.after, log) && Kept(r.before) && from <= |r.before.acts|
  }

  lemma {:induction false} ServingIs(log: Log, from: nat, p: Readings, r: Round)
    requires Serving(log, from, p, r)
    ensures Kept(r.reaped) && Kept(r.launched) && Kept(r.launching.at) && Kept(r.after)
    ensures Extends(r.reaped, log) && Extends(r.launching.at, log) && Extends(r.launched, log) && Extends(r.before, log)
    ensures |r.before.acts| <= |r.reaped.acts| <= |r.launching.at.acts| <= |r.launched.acts| <= |r.after.acts| <= |log.acts|
    ensures log.states[|r.reaped.acts|] == Now(r.reaped) && log.states[|r.launched.acts|] == Now(r.launched)
    ensures log.states[|r.launching.at.acts|] == Now(r.launching.at)
    ensures During(log, |r.reaped.acts|, r.reaped, r.launching) && Now(r.reaped).settling.None?
    ensures PlanIs(r.launching, p, None, |r.reaped.acts|, r.reaped)
    ensures Done(r.launching.Dealt(), |r.launching.rs|, r.launching.attempts, Now(r.reaped).running, Now(r.launched).running, r.blocks.Keys)
    ensures (forall t :: |r.before.acts| <= t < |r.reaped.acts| ==> !log.acts[t].Spawn?)
    ensures (forall t :: |r.launched.acts| <= t < |r.after.acts| ==> !log.acts[t].Spawn?)
  {
    hide Lawful, QuietLog, Done, RequestsAre, HostFor, ScanIs, StateFor, PreemptPass, GivenUpFor, SeenAlive, Decisions;
    ExtendsTwice(r.launched, r.after, log);
    ExtendsTwice(r.launching.at, r.launched, log);
    ExtendsTwice(r.reaped, r.launching.at, log);
    ExtendsTwice(r.before, r.reaped, log);
  }

  lemma {:induction false} FreeFound(log: Log, from: nat, p: Readings, r: Round)
    requires Serving(log, from, p, r)
    ensures EntriesApart(Now(r.reaped).running)
    ensures r.launching.s.ownedFree == Without(p.owned, CardsOf(Now(r.reaped).running)) && NoDup(r.launching.s.ownedFree)
  {
    ServingIs(log, from, p, r);
    OwnIs(log, from, p, r);
    assert Lawful(true, log) && QuietLog(log, from) && from <= |r.reaped.acts|;
    hide Serving, PlanIs, Done, During, Lawful, QuietLog, Whole, EntriesApart, CardsOf, NoDup;
    QuietAt(log, from, |r.reaped.acts|);
    WholeApart(Now(r.reaped));
    FreeIsUncounted(log, from, |r.reaped.acts|, p, None, r.reaped, r.launching);
  }

  lemma {:induction false} PlanLeavers(plan: Plan, p: Readings, memo: Option<Reading>, began: nat, before: Log)
    requires PlanIs(plan, p, memo, began, before) && p.shared == []
    ensures LeaversAre(plan.h.coming, plan.leavers, Now(before).running, Elems(p.owned), plan.at, |before.acts|)
    ensures NoDup(plan.leavers) && AllIn(plan.leavers, Now(before).running)
    ensures plan.h.coming == CardsIn(plan.leavers, Now(before).running, Elems(p.owned))
  {
    hide RequestsAre, CandidatesAre, ScanIs, StateFor;
    assert Elems(p.owned) + Elems(p.shared) == Elems(p.owned);
    LeaversLater(plan.h.coming, plan.leavers, Now(before).running, Elems(p.owned), plan.left, plan.at, |before.acts|, |before.acts|);
  }

  /** The cards a pass found free or on their way back: distinct, and by what
      the dispatcher counts. */
  lemma {:induction false} CardsFound(log: Log, from: nat, p: Readings, r: Round)
    requires Serving(log, from, p, r)
    ensures var R := Now(r.reaped).running;
            && EntriesApart(R)
            && r.launching.s.ownedFree == Without(p.owned, CardsOf(R))
            && NoDup(r.launching.s.ownedFree) && NoDup(r.launching.h.coming) && Apart(r.launching.s.ownedFree, r.launching.h.coming)
            && (forall c :: c in r.launching.h.coming ==> c in CardsOf(R) && c in p.owned)
  {
    hide *;
    FreeFound(log, from, p, r);
    ComingFound(log, from, p, r);
  }

  lemma {:induction false} PlanOf(log: Log, from: nat, p: Readings, r: Round)
    requires Serving(log, from, p, r)
    ensures Kept(r.reaped) && PlanIs(r.launching, p, None, |r.reaped.acts|, r.reaped) && p.shared == []
  {
    hide Lawful, QuietLog, Done, PlanIs, PreemptPass;
  }

  lemma {:induction false} ComingFound(log: Log, from: nat, p: Readings, r: Round)
    requires Serving(log, from, p, r)
    ensures var R := Now(r.reaped).running;
            && NoDup(r.launching.h.coming) && Apart(r.launching.s.ownedFree, r.launching.h.coming)
            && (forall c :: c in r.launching.h.coming ==> c in CardsOf(R) && c in p.owned)
  {
    hide Serving, PlanIs, EntriesApart, LeaversAre, NoDup, CardsOf, CardsIn;
    PlanOf(log, from, p, r);
    FreeFound(log, from, p, r);
    PlanLeavers(r.launching, p, None, |r.reaped.acts|, r.reaped);
    ComingApart(r.launching.leavers, Now(r.reaped).running, p.owned, r.launching.h.coming);
  }

  lemma {:induction false} ComingApart(leavers: seq<JobId>, running: map<JobId, Entry>, owned: seq<Uuid>, coming: seq<Uuid>)
    requires EntriesApart(running) && NoDup(leavers) && AllIn(leavers, running) && coming == CardsIn(leavers, running, Elems(owned))
    ensures NoDup(coming) && (forall c :: c in coming ==> c in CardsOf(running) && c in owned)
    ensures Apart(Without(owned, CardsOf(running)), coming)
  {
    hide EntriesApart, NoDup;
    CardsInOnce(leavers, running, Elems(owned));
    forall c | c in coming
      ensures c in CardsOf(running) && c in owned
    {
      InCards(leavers, running, Elems(owned), c);
      var i :| 0 <= i < |leavers| && c in running[leavers[i]].gpus;
      CardOf(running, leavers[i], c);
    }
  }

  lemma {:induction false} CardOf(running: map<JobId, Entry>, job: JobId, c: Uuid)
    requires job in running && c in running[job].gpus
    ensures c in CardsOf(running)
  {
  }

  lemma {:induction false} OwnIs(log: Log, from: nat, p: Readings, r: Round)
    requires Serving(log, from, p, r)
    ensures p.shared == [] && !p.draining && NoDup(p.owned)
  {
  }

  lemma {:induction false} WholeApart(s: Snapshot)
    requires Whole(s)
    ensures EntriesApart(s.running)
  {
  }

  /** Two passes of the same readings, one right after the other. */
  ghost predicate Consecutive(log: Log, from: nat, p: Readings, r: Round, next: Round) {
    Serving(log, from, p, r) && Serving(log, from, p, next) && next.before == r.after
  }

  /** What the next pass counts was counted when this one had launched. */
  lemma {:induction false} CountedBefore(log: Log, from: nat, p: Readings, r: Round, next: Round)
    requires Consecutive(log, from, p, r, next)
    ensures forall j :: j in Now(next.reaped).running ==>
      j in Now(r.launched).running && Now(r.launched).running[j] == Now(next.reaped).running[j]
  {
    ServingIs(log, from, p, r);
    ServingIs(log, from, p, next);
    assert Lawful(true, log) && QuietLog(log, from) && from <= |r.launched.acts|;
    hide Serving, PlanIs, Done, During, Lawful, QuietLog, Kept;
    FewerEntries(log, from, |r.launched.acts|, |next.reaped.acts|);
  }

  /** An entry of this pass is one of before it, or of a job it assigned free
      cards to. */
  lemma {:induction false} LaunchedOrBefore(log: Log, from: nat, p: Readings, r: Round, j: JobId)
    requires Serving(log, from, p, r) && j in Now(r.launched).running
    ensures j in Now(r.reaped).running ==> Now(r.launched).running[j] == Now(r.reaped).running[j]
    ensures j !in Now(r.reaped).running ==>
      forall c :: c in Now(r.launched).running[j].gpus ==>
        c in r.launching.s.ownedFree && c in Turns.GivenOut(r.launching.Dealt(), |r.launching.Dealt()|)
  {
    hide Serving, During, PlanIs, Done, Decisions, EntriesApart, NoDup, Turns.GivenOut;
    ServingIs(log, from, p, r);
    PlanOf(log, from, p, r);
    FreeFound(log, from, p, r);
    StateIsOwned(p, r.launching, |r.reaped.acts|, r.reaped);
    KeptOrStarted(r.launching, Now(r.reaped).running, Now(r.launched).running, r.blocks.Keys, j);
  }

  lemma {:induction false} KeptOrStarted(plan: Plan, was: map<JobId, Entry>, now: map<JobId, Entry>, blocked: set<JobId>, j: JobId)
    requires Done(plan.Dealt(), |plan.rs|, plan.attempts, was, now, blocked) && j in now
    requires plan.s == Fresh(plan.s.ownedFree, [], 0) && NoDup(plan.s.ownedFree)
    ensures j in was ==> now[j] == was[j]
    ensures j !in was ==> forall c :: c in now[j].gpus ==> c in plan.s.ownedFree && c in Turns.GivenOut(plan.Dealt(), |plan.Dealt()|)
  {
    hide Decisions, Turns.GivenOut, NoDup;
    if j !in was {
      var k :| 0 <= k < |plan.rs| && StartedOn(plan.Dealt()[k], j, now[j], plan.attempts);
      hide Done;
      PlanSize(plan);
      AssignedIsFree(plan, k);
      forall c | c in plan.Dealt()[k].gpus
        ensures c in Turns.GivenOut(plan.Dealt(), |plan.Dealt()|)
      {
        Turns.GivenOutIs(plan.Dealt(), |plan.Dealt()|, c);
      }
    }
  }

  lemma {:induction false} StateIsOwned(p: Readings, plan: Plan, began: nat, before: Log)
    requires PlanIs(plan, p, None, began, before) && p.shared == []
    ensures plan.s == Fresh(plan.s.ownedFree, [], 0)
    ensures plan.h.sharedVisible == 0 && plan.h.shared == {} && plan.h.ownedPresent == |p.owned|
    ensures plan.h.ownedAbsent == p.ownedAbsent && plan.h.sharedAbsent == p.sharedAbsent
  {
    hide RequestsAre, LeaversAre, CandidatesAre, ScanIs;
  }

  lemma {:induction false} AssignedIsFree(plan: Plan, k: nat)
    requires plan.s == Fresh(plan.s.ownedFree, [], 0) && NoDup(plan.s.ownedFree)
    requires k < |plan.rs| && plan.Dealt()[k].Assigned?
    ensures forall c :: c in plan.Dealt()[k].gpus ==> c in plan.s.ownedFree
  {
    hide Decide, Next, After;
    AssignedIsSafe(plan.h, plan.s, plan.rs, k);
  }

  // What a pass gives up.

  lemma {:induction false} LaunchFacts(log: Log, from: nat, p: Readings, r: Round)
    requires Serving(log, from, p, r)
    ensures Kept(r.launched) && Kept(r.launching.at) && Extends(r.launched, log) && OnlyLaunches(r.launching.at, r.launched)
    ensures BlockedApart(r.launching.Dealt(), |r.launching.rs|, Now(r.launched).running, r.blocks.Keys)
    ensures FailedFor(r.launching.Dealt(), |r.launching.rs|, p.patient, r.blocks, r.launched, |r.launching.at.acts|)
    ensures forall j :: j in r.blocks && r.blocks[j].ClaimedSince? ==>
      GivenUpFor(r.launching.Dealt(), j, r.blocks[j].card, r.launched, |r.launching.at.acts|)
  {
    ServingIs(log, from, p, r);
    hide Lawful, QuietLog, Done, PlanIs, PreemptPass, During, GivenUpFor, FailedFor, BlockedApart, SeenAlive, Decisions, OnlyReaps, OfLaunching;
  }

  /** A card assigned to a job that is not counted after the pass is in no entry
      then. */
  lemma {:induction false} UntakenCard(log: Log, from: nat, p: Readings, r: Round, k: nat, c: Uuid)
    requires Serving(log, from, p, r) && k < |r.launching.rs| && r.launching.Dealt()[k].Assigned? && c in r.launching.Dealt()[k].gpus
    requires Kept(r.launched) && r.launching.Dealt()[k].jobId !in Now(r.launched).running
    ensures forall i :: i in Now(r.launched).running ==> c !in Now(r.launched).running[i].gpus
  {
    hide Serving, PlanIs, During, Decisions, EntriesApart, NoDup, Done, CardsOf, Within, Without;
    ServingIs(log, from, p, r);
    PlanOf(log, from, p, r);
    FreeFound(log, from, p, r);
    StateIsOwned(p, r.launching, |r.reaped.acts|, r.reaped);
    AssignedIsFree(r.launching, k);
    NotTakenBy(r.launching, Now(r.reaped).running, Now(r.launched).running, r.blocks.Keys, k, c);
  }

  lemma {:induction false} NotTakenBy(plan: Plan, was: map<JobId, Entry>, now: map<JobId, Entry>, blocked: set<JobId>, k: nat, c: Uuid)
    requires Done(plan.Dealt(), |plan.rs|, plan.attempts, was, now, blocked) && plan.s == Fresh(plan.s.ownedFree, [], 0) && NoDup(plan.s.ownedFree)
    requires k < |plan.rs| && plan.Dealt()[k].Assigned? && c in plan.Dealt()[k].gpus && plan.Dealt()[k].jobId !in now && c !in CardsOf(was)
    ensures forall i :: i in now ==> c !in now[i].gpus
  {
    hide Decisions, NoDup, CardsOf;
    forall i | i in now
      ensures c !in now[i].gpus
    {
      if i in was {
        InCardsOf(was, i, c);
      } else {
        var l :| 0 <= l < |plan.rs| && StartedOn(plan.Dealt()[l], i, now[i], plan.attempts);
        OtherCards(plan, k, l, c);
      }
    }
  }

  lemma {:induction false} InCardsOf(running: map<JobId, Entry>, job: JobId, c: Uuid)
    requires job in running
    ensures c in running[job].gpus ==> c in CardsOf(running)
  {
  }

  lemma {:induction false} OtherCards(plan: Plan, k: nat, l: nat, c: Uuid)
    requires k < |plan.rs| && l < |plan.rs| && plan.Dealt()[k].Assigned? && plan.Dealt()[l].Assigned? && c in plan.Dealt()[k].gpus
    requires plan.s == Fresh(plan.s.ownedFree, [], 0) && NoDup(plan.s.ownedFree)
    ensures k != l ==> c !in plan.Dealt()[l].gpus
  {
    hide Decide, Next, After, NoDup;
    if k < l {
      AssignedAreDisjoint(plan.h, plan.s, plan.rs, k, l);
    } else if l < k {
      AssignedAreDisjoint(plan.h, plan.s, plan.rs, l, k);
    }
  }

  /** On a quiet host no claim stands in the way of a launch. */
  lemma {:induction false} OnlySpawnsBlock(log: Log, from: nat, p: Readings, r: Round)
    requires Serving(log, from, p, r)
    ensures forall j :: j in r.blocks ==> r.blocks[j].SpawnFailed?
  {
    LaunchFacts(log, from, p, r);
    hide Serving, FailedFor, Decisions, BlockedApart;
    forall j | j in r.blocks
      ensures r.blocks[j].SpawnFailed?
    {
      if r.blocks[j].ClaimedSince? {
        NotGivenUp(log, from, p, r, j, r.blocks[j].card);
      }
    }
  }

  lemma {:induction false} NotGivenUp(log: Log, from: nat, p: Readings, r: Round, j: JobId, c: Uuid)
    requires Serving(log, from, p, r) && j in r.blocks && Kept(r.launched) && Kept(r.launching.at)
    requires BlockedApart(r.launching.Dealt(), |r.launching.rs|, Now(r.launched).running, r.blocks.Keys)
    ensures !GivenUpFor(r.launching.Dealt(), j, c, r.launched, |r.launching.at.acts|)
  {
    hide Serving, Decisions;
    var ds := r.launching.Dealt();
    if k: nat :| k < |ds| && ds[k].Assigned? && ds[k].jobId == j && c in ds[k].gpus {
      assert |ds| == |r.launching.rs| by { PlanSize(r.launching); }
      UntakenCard(log, from, p, r, k, c);
      NotSeenClaimed(log, from, p, r, c);
      hide SeenClaimed, BlockedApart;
    }
  }

  lemma {:induction false} PlanSize(plan: Plan)
    ensures |plan.Dealt()| == |plan.rs|
  {
  }

  lemma {:induction false} NotSeenClaimed(log: Log, from: nat, p: Readings, r: Round, c: Uuid)
    requires Serving(log, from, p, r) && Kept(r.launched) && Kept(r.launching.at)
    requires forall i :: i in Now(r.launched).running ==> c !in Now(r.launched).running[i].gpus
    ensures |r.launching.at.acts| <= |r.launched.acts| < |r.launched.states|
    ensures !SeenClaimed(r.launched.states, |r.launching.at.acts|, |r.launched.acts|, c)
  {
    ServingIs(log, from, p, r);
    LaunchFacts(log, from, p, r);
    assert Lawful(true, log) && QuietLog(log, from) && from <= |r.reaped.acts|;
    hide Serving, PlanIs, Done, During, Lawful, QuietLog, FailedFor, BlockedApart, Decisions;
    var a, b, n := |r.reaped.acts|, |r.launching.at.acts|, |r.launched.acts|;
    NoneDroppedIn(log, from, p, r);
    forall t: nat, i | b <= t <= n
      ensures !Claims(r.launched.states[t].world, i, c)
    {
      assert r.launched.states[t] == log.states[t];
      MoreEntries(log, from, a, t);
      MoreEntries(log, from, t, n);
      QuietAt(log, from, t);
      ClaimMeansEntry(log.states[t], i, c);
    }
  }

  lemma {:induction false} ClaimMeansEntry(s: Snapshot, job: JobId, c: Uuid)
    requires Whole(s) && s.settling.None?
    ensures Claims(s.world, job, c) ==> job in s.running && c in s.running[job].gpus
  {
    hide Whole, Claims;
    if Claims(s.world, job, c) {
      CountedClaim(s, job, c);
    }
  }

  lemma {:induction false} NoneDroppedIn(log: Log, from: nat, p: Readings, r: Round)
    requires Serving(log, from, p, r)
    ensures |r.reaped.acts| <= |r.launched.acts| <= |log.acts| && forall t :: |r.reaped.acts| <= t < |r.launched.acts| ==> !log.acts[t].Drop?
  {
    hide Serving, PlanIs, Done, FailedFor, BlockedApart, Decisions;
    ServingIs(log, from, p, r);
    LaunchFacts(log, from, p, r);
    NoDropsIn(log, r.reaped, r.launching.at, r.launched);
  }

  lemma {:induction false} NoDropsIn(log: Log, reaped: Log, planned: Log, launched: Log)
    requires Plain(reaped, planned) && OnlyLaunches(planned, launched) && Extends(launched, log) && Extends(planned, log)
    ensures forall t :: |reaped.acts| <= t < |launched.acts| ==> !log.acts[t].Drop?
  {
    forall t | |reaped.acts| <= t < |launched.acts|
      ensures !log.acts[t].Drop?
    {
      if t < |planned.acts| {
        assert log.acts[t] == planned.acts[t];
      } else {
        assert log.acts[t] == launched.acts[t];
      }
    }
  }

  /** A card left free is free in the next pass. */
  lemma {:induction false} FreeStays(log: Log, from: nat, p: Readings, r: Round, next: Round, c: Uuid)
    requires Consecutive(log, from, p, r, next)
    requires c in r.launching.s.ownedFree && c !in Turns.GivenOut(r.launching.Dealt(), |r.launching.Dealt()|)
    ensures c in next.launching.s.ownedFree
  {
    FreeFound(log, from, p, r);
    FreeFound(log, from, p, next);
    CountedBefore(log, from, p, r, next);
    var R, S, T := Now(r.reaped).running, Now(r.launched).running, Now(next.reaped).running;
    assert c !in CardsOf(T) by {
      forall j | j in T
        ensures c !in T[j].gpus
      {
        LaunchedOrBefore(log, from, p, r, j);
        assert j in R ==> (c in R[j].gpus ==> c in CardsOf(R));
      }
    }
    hide Serving, CardsOf;
  }

  /** An entry on its way out at some moment is found so by a later pass that
      still counts it. */
  lemma {:induction false} FoundLeaving(log: Log, from: nat, p: Readings, next: Round, t: nat, j: JobId)
    requires Serving(log, from, p, next) && from <= t <= |next.reaped.acts| && Leaves(log.states[t], j)
    requires j in Now(next.reaped).running && Now(next.reaped).running[j] == log.states[t].running[j]
    ensures forall c :: c in Now(next.reaped).running[j].gpus && c in p.owned ==> c in next.launching.h.coming
  {
    hide Serving, PlanIs, Leaves, StandsLeaving, IsLeaving, NoDup, SeenLeaving;
    PlanOf(log, from, p, next);
    PlanLeavers(next.launching, p, None, |next.reaped.acts|, next.reaped);
    LeavesThroughout(log, from, p, next, t, j);
    var T, plan := Now(next.reaped).running, next.launching;
    assert j in plan.leavers;
    var i :| 0 <= i < |plan.leavers| && plan.leavers[i] == j;
    forall c | c in T[j].gpus && c in p.owned
      ensures c in plan.h.coming
    {
      InCards(plan.leavers, T, Elems(p.owned), c);
    }
  }

  lemma {:induction false} LeavesThroughout(log: Log, from: nat, p: Readings, next: Round, t: nat, j: JobId)
    requires Serving(log, from, p, next) && from <= t <= |next.reaped.acts| && Leaves(log.states[t], j)
    requires j in Now(next.reaped).running && Now(next.reaped).running[j] == log.states[t].running[j]
    ensures StandsLeaving(next.launching.at, |next.reaped.acts|, Now(next.reaped).running, j)
  {
    ServingIs(log, from, p, next);
    assert Lawful(true, log) && QuietLog(log, from);
    hide Serving, PlanIs, Done, Lawful, QuietLog, Kept;
    var T, plan, n := Now(next.reaped).running, next.launching, |next.launching.at.acts|;
    PlanStates(log, |next.reaped.acts|, next.reaped, plan, n);
    LeavingLasts(log, from, t, n, j);
    hide During, IsLeaving;
    forall u | |next.reaped.acts| <= u < |plan.at.states|
      ensures j in T && IsLeaving(Read(plan.at.states[u].world, j), T[j])
    {
      LogsAgree(log, plan.at, u);
      assert Leaves(log.states[u], j);
    }
  }

  lemma {:induction false} LogsAgree(log: Log, past: Log, u: nat)
    requires Kept(past) && Kept(log) && Extends(past, log) && u < |past.states|
    ensures u <= |past.acts| && u < |log.states| && log.states[u] == past.states[u]
  {
  }

  /** An owned card of an entry gone since is free in the next pass. */
  lemma {:induction false} GoneIsFree(log: Log, from: nat, p: Readings, r: Round, next: Round, j: JobId, c: Uuid)
    requires Consecutive(log, from, p, r, next)
    requires j in Now(r.reaped).running && c in Now(r.reaped).running[j].gpus && c in p.owned && j !in Now(next.reaped).running
    ensures c in next.launching.s.ownedFree
  {
    FreeFound(log, from, p, r);
    FreeFound(log, from, p, next);
    CountedBefore(log, from, p, r, next);
    var R, T := Now(r.reaped).running, Now(next.reaped).running;
    CardOf(R, j, c);
    assert c !in CardsOf(T) by {
      forall i | i in T
        ensures c !in T[i].gpus
      {
        LaunchedOrBefore(log, from, p, r, i);
        ApartEntries(R, j, i, c);
      }
    }
    hide Serving, CardsOf, EntriesApart;
  }

  lemma {:induction false} ApartEntries(running: map<JobId, Entry>, j: JobId, i: JobId, c: Uuid)
    requires EntriesApart(running) && j in running && c in running[j].gpus && i != j
    ensures i in running ==> c !in running[i].gpus
  {
  }

  lemma {:induction false} LeaverSeen(log: Log, from: nat, p: Readings, r: Round, c: Uuid) returns (j: JobId, t: nat)
    requires Serving(log, from, p, r) && c in r.launching.h.coming
    ensures j in Now(r.reaped).running && c in Now(r.reaped).running[j].gpus && c in p.owned
    ensures |r.reaped.acts| <= t <= |r.launching.at.acts| && t < |log.states|
    ensures Leaves(log.states[t], j) && log.states[t].running == Now(r.reaped).running
  {
    ServingIs(log, from, p, r);
    PlanOf(log, from, p, r);
    PlanLeavers(r.launching, p, None, |r.reaped.acts|, r.reaped);
    var R, plan := Now(r.reaped).running, r.launching;
    InCards(plan.leavers, R, Elems(p.owned), c);
    var i :| 0 <= i < |plan.leavers| && c in R[plan.leavers[i]].gpus;
    j := plan.leavers[i];
    assert j in plan.leavers;
    assert SeenLeaving(plan.at, |r.reaped.acts|, R, j);
    var u: nat :| |r.reaped.acts| <= u < |plan.at.states| && LeavesAt(plan.at.states[u], R, j);
    t := u;
    PlanStates(log, |r.reaped.acts|, r.reaped, plan, t);
  }

  /** A card on its way back is free or on its way back in the next pass. */
  lemma {:induction false} ComingStays(log: Log, from: nat, p: Readings, r: Round, next: Round, c: Uuid)
    requires Consecutive(log, from, p, r, next) && c in r.launching.h.coming
    ensures c in next.launching.s.ownedFree || c in next.launching.h.coming
  {
    var j, t := LeaverSeen(log, from, p, r, c);
    ServingIs(log, from, p, r);
    ServingIs(log, from, p, next);
    assert from <= t;
    hide Serving, PlanIs, Done, During, Leaves, Kept;
    if j in Now(next.reaped).running {
      CountedBefore(log, from, p, r, next);
      LaunchedOrBefore(log, from, p, r, j);
      FoundLeaving(log, from, p, next, t, j);
    } else {
      GoneIsFree(log, from, p, r, next, j, c);
    }
  }

  // The passes as scenes.

  /** A pass as it found the host, for a job `j` places down the queue. */
  function SceneOf(p: Readings, r: Round, j: nat): Turns.Scene
    requires j <= |r.launching.rs|
  {
    Turns.Scene(r.launching.rs[..j], r.launching.s.ownedFree, r.launching.h.coming, |p.owned|, p.ownedAbsent, p.sharedAbsent)
  }

  function MoveOf(p: Readings, r: Round, j: nat): Turns.Move
    requires j <= |r.launching.rs|
  {
    Turns.Dispatch(r.launching.rs[j..], r.launching.h.preemptable, p.patient)
  }

  /** The decisions of the pass are those dealt in that scene. */
  lemma {:induction false} DealtThere(log: Log, from: nat, p: Readings, r: Round, j: nat)
    requires Serving(log, from, p, r) && j <= |r.launching.rs|
    ensures Turns.Deal(SceneOf(p, r, j), MoveOf(p, r, j)) == r.launching.Dealt()
  {
    hide Serving, PlanIs, Decisions, Turns.Deal;
    PlanOf(log, from, p, r);
    StateIsOwned(p, r.launching, |r.reaped.acts|, r.reaped);
    assert r.launching.rs[..j] + r.launching.rs[j..] == r.launching.rs;
    Turns.DealIs(SceneOf(p, r, j), MoveOf(p, r, j), r.launching.h, r.launching.s, r.launching.rs);
  }

  /** And the next pass finds every card the last one left. */
  lemma {:induction false} PassesSettle(log: Log, from: nat, p: Readings, r: Round, next: Round, j: nat, k: nat)
    requires Consecutive(log, from, p, r, next) && j <= |r.launching.rs| && k <= |next.launching.rs|
    ensures Turns.Settles(Turns.Step(SceneOf(p, r, j), MoveOf(p, r, j)), SceneOf(p, next, k))
  {
    hide Serving, Turns.Deal, Turns.Step, Turns.GivenOut, Decisions, NoDup, EntriesApart;
    DealtThere(log, from, p, r, j);
    CardsFound(log, from, p, next);
    var v, w, ds := Turns.Step(SceneOf(p, r, j), MoveOf(p, r, j)), SceneOf(p, next, k), r.launching.Dealt();
    forall c | c in Elems(v.free) + Elems(v.coming)
      ensures c in Elems(w.free) + Elems(w.coming)
    {
      Turns.LeftFree(SceneOf(p, r, j), MoveOf(p, r, j), ds, c);
      if c in v.coming {
        ComingStays(log, from, p, r, next, c);
      } else {
        FreeStays(log, from, p, r, next, c);
      }
    }
    NothingMore(SceneOf(p, r, j), MoveOf(p, r, j), ds);
  }

  lemma {:induction false} NothingMore(w: Turns.Scene, m: Turns.Move, ds: seq<Decision>)
    requires ds == Turns.Deal(w, m)
    ensures Turns.Step(w, m).present == w.present
  {
    hide Turns.Deal;
  }

  // Whole runs.

  /** Passes of the same readings over a quiet stretch, one after the other. */
  ghost predicate InService(log: Log, from: nat, p: Readings, rounds: seq<Round>) {
    && (forall k :: 0 <= k < |rounds| ==> Serving(log, from, p, rounds[k]))
    && (forall k, l :: 0 <= k < l < |rounds| && l == k + 1 ==> rounds[l].before == rounds[k].after)
  }

  /** The job watched is `js[k]` places down the queue of pass `k`, and nobody in
      these queues borrows. */
  predicate Placed(rounds: seq<Round>, js: seq<nat>) {
    && |js| == |rounds|
    && (forall k :: 0 <= k < |rounds| ==> js[k] <= |rounds[k].launching.rs|)
    && (forall k :: 0 <= k < |rounds| ==> NoneBorrows(rounds[k].launching.rs))
  }

  predicate NoneBorrows(rs: seq<Request>) {
    forall r :: r in rs ==> !r.borrows
  }

  /** Nobody ahead of it was cancelled, and nobody new came ahead of it, between
      pass `k` and the next. */
  predicate SameAhead(p: Readings, rounds: seq<Round>, js: seq<nat>, k: nat)
    requires Placed(rounds, js) && k + 1 < |rounds|
  {
    rounds[k + 1].launching.rs[..js[k + 1]]
    == Turns.Left(rounds[k].launching.rs[..js[k]], rounds[k].launching.Dealt(), p.patient, js[k])
  }

  function Scenes(p: Readings, rounds: seq<Round>, js: seq<nat>): (ws: seq<Turns.Scene>)
    requires Placed(rounds, js)
    ensures |ws| == |rounds| && forall k :: 0 <= k < |rounds| ==> ws[k] == SceneOf(p, rounds[k], js[k])
  {
    seq(|rounds|, k requires 0 <= k < |rounds| => SceneOf(p, rounds[k], js[k]))
  }

  function Moves(p: Readings, rounds: seq<Round>, js: seq<nat>): (ms: seq<Turns.Move>)
    requires Placed(rounds, js) && rounds != []
    ensures |ms| == |rounds| - 1 && forall k :: 0 <= k < |rounds| - 1 ==> ms[k] == MoveOf(p, rounds[k], js[k])
  {
    seq(|rounds| - 1, k requires 0 <= k < |rounds| - 1 => MoveOf(p, rounds[k], js[k]))
  }

  /** So the passes are a run of scenes. */
  lemma {:induction false} PassesAreARun(log: Log, from: nat, p: Readings, rounds: seq<Round>, js: seq<nat>)
    requires InService(log, from, p, rounds) && rounds != [] && Placed(rounds, js)
    requires forall k :: 0 <= k < |rounds| - 1 ==> SameAhead(p, rounds, js, k)
    ensures Turns.Runs(Scenes(p, rounds, js), Moves(p, rounds, js))
  {
    var ws, ms := Scenes(p, rounds, js), Moves(p, rounds, js);
    hide Serving, Turns.Settles, Turns.Deal, Decisions;
    forall i | 0 <= i < |ms|
      ensures Turns.Ensues(ws, ms, i) && forall r :: r in ms[i].behind ==> !r.borrows
    {
      assert Serving(log, from, p, rounds[i]) && Serving(log, from, p, rounds[i + 1]);
      assert SameAhead(p, rounds, js, i);
      assert NoneBorrows(rounds[i].launching.rs);
      PassesSettle(log, from, p, rounds[i], rounds[i + 1], js[i], js[i + 1]);
      DealtThere(log, from, p, rounds[i], js[i]);
      AheadIsLeft(ws[i], ms[i], rounds[i].launching.Dealt());
    }
  }

  lemma {:induction false} AheadIsLeft(w: Turns.Scene, m: Turns.Move, ds: seq<Decision>)
    requires ds == Turns.Deal(w, m)
    ensures Turns.Step(w, m).ahead == Turns.Left(w.ahead, ds, m.patient, |w.ahead|)
  {
    hide Turns.Deal;
  }

  /** The job watched waits in pass `k`. */
  predicate WaitsIn(p: Readings, r: Round, j: nat)
    requires j <= |r.launching.rs|
  {
    j > 0 && !Turns.Leaves(r.launching.Dealt()[j - 1], p.patient)
  }

  /** Nobody behind the first `j` of the queue was started on a card. */
  ghost predicate NobodyOvertakes(r: Round, j: nat)
    requires Kept(r.reaped) && Kept(r.launched)
  {
    forall id :: id in Now(r.launched).running && id !in Now(r.reaped).running && Now(r.launched).running[id].gpus != [] ==>
      exists i :: 0 <= i < j && i < |r.launching.rs| && r.launching.rs[i].jobId == id
  }

  /** With the same jobs ahead, those the passes have left there: from the pass
      that finds a job covered by the cards free and on their way back, every
      pass until it is launched finds it covered, and starts nobody behind it on
      a card. */
  lemma {:induction false} CoveredWhileAhead(log: Log, from: nat, p: Readings, rounds: seq<Round>, js: seq<nat>, n: nat, job: Request)
    requires InService(log, from, p, rounds) && n < |rounds| && Placed(rounds, js)
    requires forall k :: 0 <= k < |rounds| - 1 ==> SameAhead(p, rounds, js, k)
    requires Turns.CoveredFor(SceneOf(p, rounds[0], js[0])) && Turns.Waits(SceneOf(p, rounds[0], js[0]), job)
    requires forall k :: 0 <= k < n ==> WaitsIn(p, rounds[k], js[k])
    ensures Turns.CoveredFor(SceneOf(p, rounds[n], js[n])) && Turns.Waits(SceneOf(p, rounds[n], js[n]), job)
    ensures forall k :: 0 <= k < n ==> Kept(rounds[k].reaped) && Kept(rounds[k].launched) && NobodyOvertakes(rounds[k], js[k])
  {
    hide Serving, Turns.CoveredFor, Turns.Deal, Decisions, Turns.Runs, Turns.Unserved, Turns.Waits, NobodyOvertakes, Turns.Stays, SceneOf, MoveOf,
         WaitsIn, SameAhead, NoneBorrows;
    var ws, ms := Scenes(p, rounds, js), Moves(p, rounds, js);
    PassesAreARun(log, from, p, rounds, js);
    forall k | 0 <= k < n
      ensures Turns.Stays(ws[k], ms[k])
    {
      StaysThere(log, from, p, rounds[k], js[k]);
    }
    assert |ms| < |ws| && Turns.StillQueued(ws, ms, n);
    Turns.NoLivelock(ws, ms, n, job);
    forall k | 0 <= k < n
      ensures Kept(rounds[k].reaped) && Kept(rounds[k].launched) && NobodyOvertakes(rounds[k], js[k])
    {
      assert Turns.Unserved(ws[k], ms[k]);
      UnservedOvertakesNobody(log, from, p, rounds[k], js[k]);
    }
  }

  lemma {:induction false} StaysThere(log: Log, from: nat, p: Readings, r: Round, j: nat)
    requires Serving(log, from, p, r) && j <= |r.launching.rs| && WaitsIn(p, r, j)
    ensures Turns.Stays(SceneOf(p, r, j), MoveOf(p, r, j))
  {
    hide Serving, Turns.Deal, Turns.Leaves, Turns.Stays;
    DealtThere(log, from, p, r, j);
    StaysIf(SceneOf(p, r, j), MoveOf(p, r, j), r.launching.Dealt(), j);
  }

  lemma {:induction false} StaysIf(w: Turns.Scene, m: Turns.Move, ds: seq<Decision>, j: nat)
    requires ds == Turns.Deal(w, m) && |w.ahead| == j > 0 && !Turns.Leaves(ds[j - 1], m.patient)
    ensures Turns.Stays(w, m)
  {
    hide Turns.Deal, Turns.Leaves;
  }

  lemma {:induction false} UnservedOvertakesNobody(log: Log, from: nat, p: Readings, r: Round, j: nat)
    requires Serving(log, from, p, r) && j <= |r.launching.rs| && Turns.Unserved(SceneOf(p, r, j), MoveOf(p, r, j))
    ensures Kept(r.reaped) && Kept(r.launched) && NobodyOvertakes(r, j)
  {
    ServingIs(log, from, p, r);
    DealtThere(log, from, p, r, j);
    hide Serving, PlanIs, During, Turns.Deal, Turns.Unserved, Done;
    var R, S := Now(r.reaped).running, Now(r.launched).running;
    forall id | id in S && id !in R && S[id].gpus != []
      ensures exists i :: 0 <= i < j && i < |r.launching.rs| && r.launching.rs[i].jobId == id
    {
      var i := StarterIsAhead(r.launching, SceneOf(p, r, j), MoveOf(p, r, j), j, R, S, r.blocks.Keys, id);
    }
  }

  lemma {:induction false} StarterIsAhead(plan: Plan, w: Turns.Scene, m: Turns.Move, j: nat, was: map<JobId, Entry>, now: map<JobId, Entry>, blocked: set<JobId>, id: JobId) returns (i: nat)
    requires Turns.Deal(w, m) == plan.Dealt() && |w.ahead| == j && j + |m.behind| == |plan.rs| && Turns.Unserved(w, m)
    requires Done(plan.Dealt(), |plan.rs|, plan.attempts, was, now, blocked) && id in now && id !in was && now[id].gpus != []
    ensures i < j && i < |plan.rs| && plan.rs[i].jobId == id
  {
    hide Turns.Deal, Decide, After;
    var k :| 0 <= k < |plan.rs| && StartedOn(plan.Dealt()[k], id, now[id], plan.attempts);
    DecisionNames(plan.h, After(plan.h, plan.s, plan.rs, k), plan.rs[k]);
    i := k;
  }

  /** And it is launched at the latest by the first pass that finds nothing on
      its way back, unless its spawn fails. */
  lemma {:induction false} StartedOnceLanded(log: Log, from: nat, p: Readings, r: Round, j: nat, job: Request)
    requires Serving(log, from, p, r) && j <= |r.launching.rs| && NoneBorrows(r.launching.rs)
    requires Turns.CoveredFor(SceneOf(p, r, j)) && Turns.Waits(SceneOf(p, r, j), job) && r.launching.h.coming == []
    ensures Kept(r.launched) && (job.jobId in Now(r.launched).running || (job.jobId in r.blocks && r.blocks[job.jobId].SpawnFailed?))
  {
    hide Serving, PlanIs, During, Turns.Deal, Turns.CoveredFor, Decide, After, Next, Done;
    OnlySpawnsBlock(log, from, p, r);
    ServingIs(log, from, p, r);
    DealtThere(log, from, p, r, j);
    Turns.StartsOnceLanded(SceneOf(p, r, j), MoveOf(p, r, j), job);
    AssignedStarts(r, j - 1);
  }

  lemma {:induction false} AssignedStarts(r: Round, k: nat)
    requires Kept(r.reaped) && Kept(r.launched) && k < |r.launching.rs| && r.launching.Dealt()[k].Assigned?
    requires Done(r.launching.Dealt(), |r.launching.rs|, r.launching.attempts, Now(r.reaped).running, Now(r.launched).running, r.blocks.Keys)
    ensures r.launching.rs[k].jobId in r.blocks || r.launching.rs[k].jobId in Now(r.launched).running
  {
    hide Decide, After, Next;
    DecisionNames(r.launching.h, After(r.launching.h, r.launching.s, r.launching.rs, k), r.launching.rs[k]);
  }
}
