/** Who is ahead of a job in the queue of a quiet host, from pass to pass: with
    nobody cancelled, submitted, moved or queued again ahead of it, those the
    dispatcher has neither started nor failed. */
module Queueing {
  import opened Lists
  import opened Preempt
  import opened Rule
  import opened RuleTheorems
  import opened Machine
  import opened Ledger
  import opened Quiet
  import opened Bookkeeping
  import opened Passes
  import opened Service
  import Turns

  /** This job's place in the queue is at or ahead of the key. */
  predicate AtOrAhead(w: World, job: JobId, key: Key) {
    job in w.jobs && !Before(key, Key(w.jobs[job].priority, job))
  }

  /** The step cancels, submits and moves nobody queued at or ahead of the key. */
  predicate KeepsAhead(w: World, a: Act, key: Key) {
    && (a.Env? && a.event.Submit? ==> a.event.job in w.jobs || Before(key, Key(a.event.priority, a.event.job)))
    && (a.Env? && a.event.Cancel? ==> !(AtOrAhead(w, a.event.job, key) && w.jobs[a.event.job].status == Queued))
    && (a.Env? && a.event.Prioritise? && a.event.job in w.jobs && w.jobs[a.event.job].status == Queued ==>
         !AtOrAhead(w, a.event.job, key) && Before(key, Key(a.event.priority, a.event.job)))
  }

  /** A job the dispatcher still counts, or is settling, has been queued again. */
  predicate Returning(s: Snapshot, job: JobId) {
    && job in s.world.jobs && s.world.jobs[job].status == Queued
    && ((job in s.running && s.running[job].attempt < s.world.jobs[job].attempt)
        || (IsSettling(s, job) && s.settling.value.entry.attempt < s.world.jobs[job].attempt))
  }

  ghost predicate NoneReturning(s: Snapshot, key: Key) {
    forall j :: AtOrAhead(s.world, j, key) ==> !Returning(s, j)
  }

  /** At or ahead of the key nobody is cancelled, submitted, moved or queued
      again between these two moments. */
  ghost predicate Undisturbed(log: Log, i: nat, k: nat, key: Key) {
    && k < |log.states| && k <= |log.acts|
    && (forall t :: i <= t < k ==> KeepsAhead(log.states[t].world, log.acts[t], key))
    && (forall t :: i <= t <= k ==> NoneReturning(log.states[t], key))
  }

  /** Queued, and neither counted nor being settled. */
  predicate InLine(s: Snapshot, job: JobId, key: Key) {
    && AtOrAhead(s.world, job, key) && s.world.jobs[job].status == Queued
    && job !in s.running && !IsSettling(s, job)
  }

  predicate SamePlace(v: World, w: World, job: JobId) {
    job in v.jobs && job in w.jobs && w.jobs[job].priority == v.jobs[job].priority && w.jobs[job].spec == v.jobs[job].spec
  }

  lemma {:induction false} EventBack(s: Snapshot, e: Event, job: JobId, key: Key)
    requires Whole(s) && Quiet.Undisturbed(e) && KeepsAhead(s.world, Env(e), key)
    requires InLine(Apply(s, Env(e)), job, key)
    ensures InLine(s, job, key) && SamePlace(s.world, Happens(s.world, e), job)
  {
    hide SomebodyAhead, EntriesApart, NoneShared;
    if e.Requeue? && e.pid in s.world.live {
      assert Counted(s, e.pid);
    }
  }

  lemma {:induction false} FitsEntry(s: Snapshot, job: JobId)
    requires Whole(s)
    ensures job in s.running ==> Quiet.Fits(s.world, job, s.running[job])
  {
  }

  /** Who is in line was so before. */
  lemma {:induction false} StepBack(s: Snapshot, a: Act, job: JobId, key: Key)
    requires Whole(s) && Allowed(true, s, a) && QuietAct(s, a) && KeepsAhead(s.world, a, key) && NoneReturning(s, key)
    requires InLine(Apply(s, a), job, key)
    ensures InLine(s, job, key) && SamePlace(s.world, Apply(s, a).world, job)
  {
    if a.Env? {
      EventBack(s, a.event, job, key);
    } else {
      hide SomebodyAhead, EntriesApart, NoneShared, Sound, Names, Happens;
      assert AtOrAhead(s.world, job, key) ==> !Returning(s, job);
      FitsEntry(s, job);
    }
  }

  lemma {:induction false} EventForth(s: Snapshot, e: Event, job: JobId, key: Key)
    requires Whole(s) && Quiet.Undisturbed(e) && KeepsAhead(s.world, Env(e), key) && InLine(s, job, key)
    ensures InLine(Apply(s, Env(e)), job, key) && SamePlace(s.world, Happens(s.world, e), job)
  {
    hide SomebodyAhead, EntriesApart, NoneShared;
    if e.Claim? && e.pid in s.world.live {
      assert Counted(s, e.pid);
    }
  }

  /** Who is in line stays so, unless the dispatcher starts or fails it. */
  lemma {:induction false} StepForth(s: Snapshot, a: Act, job: JobId, key: Key)
    requires Whole(s) && Allowed(true, s, a) && QuietAct(s, a) && KeepsAhead(s.world, a, key) && InLine(s, job, key)
    requires !(a.Spawn? && a.job == job) && !(a.Dismiss? && a.job == job)
    ensures InLine(Apply(s, a), job, key) && SamePlace(s.world, Apply(s, a).world, job)
  {
    if a.Env? {
      EventForth(s, a.event, job, key);
    } else {
      hide SomebodyAhead, Whole, Happens, Allowed;
    }
  }

  // Stretches of a run.

  lemma {:induction false} InLineIsThere(s: Snapshot, job: JobId, key: Key)
    requires InLine(s, job, key)
    ensures SamePlace(s.world, s.world, job)
  {
  }

  lemma {:induction false} StepOf(log: Log, from: nat, i: nat, k: nat, key: Key)
    requires Lawful(true, log) && QuietLog(log, from) && from <= i < k && Undisturbed(log, i, k, key)
    ensures k < |log.states| && k <= |log.acts|
    ensures var s, a := log.states[k - 1], log.acts[k - 1];
            && Whole(s) && Allowed(true, s, a) && QuietAct(s, a) && log.states[k] == Apply(s, a)
            && KeepsAhead(s.world, a, key) && NoneReturning(s, key)
    ensures Undisturbed(log, i, k - 1, key)
  {
    LawfulStep(true, log, k - 1);
    QuietAt(log, from, k - 1);
    Sooner(log, i, k, k - 1, key);
    hide Lawful, QuietLog, Whole, QuietAct, Allowed, Apply, KeepsAhead, NoneReturning;
  }

  lemma {:induction false} SameTwice(u: World, v: World, w: World, job: JobId)
    requires SamePlace(u, v, job) && SamePlace(v, w, job)
    ensures SamePlace(u, w, job)
  {
  }

  lemma {:induction false} Bounds(log: Log, i: nat, k: nat, key: Key)
    requires Undisturbed(log, i, k, key)
    ensures k < |log.states| && k <= |log.acts|
  {
  }

  lemma {:induction false} BackAt(log: Log, from: nat, i: nat, k: nat, job: JobId, key: Key)
    requires Lawful(true, log) && QuietLog(log, from) && from <= i < k && Undisturbed(log, i, k, key)
    requires k < |log.states| && InLine(log.states[k], job, key)
    ensures InLine(log.states[k - 1], job, key) && SamePlace(log.states[k - 1].world, log.states[k].world, job)
    ensures Undisturbed(log, i, k - 1, key)
  {
    hide Lawful, QuietLog, Whole, QuietAct, Allowed, Apply, Undisturbed, InLine, KeepsAhead, NoneReturning, SamePlace;
    StepOf(log, from, i, k, key);
    StepBack(log.states[k - 1], log.acts[k - 1], job, key);
  }

  lemma {:induction false} LineBackTo(log: Log, from: nat, i: nat, k: nat, job: JobId, key: Key)
    requires Lawful(true, log) && QuietLog(log, from) && from <= i <= k && Undisturbed(log, i, k, key)
    requires InLine(log.states[k], job, key)
    ensures InLine(log.states[i], job, key) && SamePlace(log.states[i].world, log.states[k].world, job)
    decreases k
  {
    hide *;
    Bounds(log, i, k, key);
    InLineIsThere(log.states[k], job, key);
    if i < k {
      BackAt(log, from, i, k, job, key);
      LineBackTo(log, from, i, k - 1, job, key);
      SameTwice(log.states[i].world, log.states[k - 1].world, log.states[k].world, job);
    }
  }

  lemma {:induction false} LineBack(log: Log, from: nat, i: nat, k: nat, job: JobId, key: Key)
    requires Lawful(true, log) && QuietLog(log, from) && from <= i <= k && Undisturbed(log, i, k, key)
    requires InLine(log.states[k], job, key)
    ensures forall t :: i <= t <= k ==> InLine(log.states[t], job, key) && SamePlace(log.states[t].world, log.states[k].world, job)
  {
    hide *;
    Bounds(log, i, k, key);
    forall t: nat | i <= t <= k
      ensures InLine(log.states[t], job, key) && SamePlace(log.states[t].world, log.states[k].world, job)
    {
      Later(log, i, t, k, key);
      LineBackTo(log, from, t, k, job, key);
    }
  }

  lemma {:induction false} Sooner(log: Log, i: nat, k: nat, n: nat, key: Key)
    requires Undisturbed(log, i, k, key) && n <= k
    ensures Undisturbed(log, i, n, key)
  {
  }

  lemma {:induction false} Later(log: Log, i: nat, n: nat, k: nat, key: Key)
    requires Undisturbed(log, i, k, key) && i <= n
    ensures Undisturbed(log, n, k, key)
  {
  }

  /** The dispatcher neither starts nor fails this job in the stretch. */
  predicate LeftInLine(log: Log, i: nat, k: nat, job: JobId)
    requires k <= |log.acts|
  {
    forall t :: i <= t < k ==> !(log.acts[t].Spawn? && log.acts[t].job == job) && !(log.acts[t].Dismiss? && log.acts[t].job == job)
  }

  lemma {:induction false} LeftSooner(log: Log, i: nat, k: nat, job: JobId)
    requires i < k <= |log.acts| && LeftInLine(log, i, k, job)
    ensures LeftInLine(log, i, k - 1, job)
    ensures var a := log.acts[k - 1]; !(a.Spawn? && a.job == job) && !(a.Dismiss? && a.job == job)
  {
  }

  lemma {:induction false} ForthAt(log: Log, from: nat, i: nat, k: nat, job: JobId, key: Key)
    requires Lawful(true, log) && QuietLog(log, from) && from <= i < k && Undisturbed(log, i, k, key)
    requires k < |log.states| && k <= |log.acts| && InLine(log.states[k - 1], job, key) && LeftInLine(log, i, k, job)
    ensures InLine(log.states[k], job, key) && SamePlace(log.states[k - 1].world, log.states[k].world, job)
    ensures Undisturbed(log, i, k - 1, key) && LeftInLine(log, i, k - 1, job)
  {
    hide Lawful, QuietLog, Whole, QuietAct, Allowed, Apply, Undisturbed, InLine, KeepsAhead, NoneReturning, SamePlace, LeftInLine;
    StepOf(log, from, i, k, key);
    LeftSooner(log, i, k, job);
    StepForth(log.states[k - 1], log.acts[k - 1], job, key);
  }

  lemma {:induction false} LineForth(log: Log, from: nat, i: nat, k: nat, job: JobId, key: Key)
    requires Lawful(true, log) && QuietLog(log, from) && from <= i <= k && Undisturbed(log, i, k, key)
    requires InLine(log.states[i], job, key) && LeftInLine(log, i, k, job)
    ensures InLine(log.states[k], job, key) && SamePlace(log.states[i].world, log.states[k].world, job)
    decreases k
  {
    hide *;
    Bounds(log, i, k, key);
    InLineIsThere(log.states[i], job, key);
    if i < k {
      SoonerInLine(log, i, k, job, key);
      LineForth(log, from, i, k - 1, job, key);
      ForthAt(log, from, i, k, job, key);
      SameTwice(log.states[i].world, log.states[k - 1].world, log.states[k].world, job);
    }
  }

  lemma {:induction false} SoonerInLine(log: Log, i: nat, k: nat, job: JobId, key: Key)
    requires i < k && Undisturbed(log, i, k, key) && LeftInLine(log, i, k, job)
    ensures Undisturbed(log, i, k - 1, key) && LeftInLine(log, i, k - 1, job)
  {
    Sooner(log, i, k, k - 1, key);
    hide Undisturbed;
  }

  // The queue of a pass.

  /** What a queued job asks for just now. */
  function AskedBy(w: World, job: JobId): Option<Request> {
    if job in w.jobs && w.jobs[job].spec.Some? then
      Some(RequestOf(QueueEntry(w.jobs[job].priority, job, w.jobs[job].attempt), w.jobs[job].spec.value))
    else None
  }

  /** A pass that made its plan between these two moments, undisturbed. */
  ghost predicate Planning(log: Log, from: nat, p: Readings, r: Round, key: Key) {
    && Serving(log, from, p, r) && Kept(r.reaped) && Kept(r.launching.at)
    && Undisturbed(log, |r.reaped.acts|, |r.launching.at.acts|, key)
  }

  lemma {:induction false} PlanningIs(log: Log, from: nat, p: Readings, r: Round, key: Key)
    requires Planning(log, from, p, r, key)
    ensures Lawful(true, log) && QuietLog(log, from) && from <= |r.reaped.acts| <= |r.launching.at.acts| < |log.states|
    ensures |r.launching.at.acts| <= |log.acts| && Kept(r.reaped) && Kept(r.launching.at)
    ensures RequestsAre(r.launching.rs, r.launching.attempts, Now(r.reaped).running, r.launching.at, |r.reaped.acts|)
    ensures forall t :: |r.reaped.acts| <= t <= |r.launching.at.acts| ==>
      log.states[t] == r.launching.at.states[t] && log.states[t].running == Now(r.reaped).running && log.states[t].settling.None?
    ensures forall t :: |r.reaped.acts| <= t < |r.launching.at.acts| ==> IsPlain(log.states[t].world, log.acts[t])
    ensures Now(r.launching.at) == log.states[|r.launching.at.acts|]
    ensures Undisturbed(log, |r.reaped.acts|, |r.launching.at.acts|, key)
  {
    ServingIs(log, from, p, r);
    hide Lawful, QuietLog, RequestsAre, RoundIs, HostFor, ScanIs, StateFor, Done, OwnOnly, Undisturbed;
    forall t | |r.reaped.acts| <= t <= |r.launching.at.acts|
      ensures log.states[t] == r.launching.at.states[t] && log.states[t].running == Now(r.reaped).running && log.states[t].settling.None?
    {
      PlanStates(log, |r.reaped.acts|, r.reaped, r.launching, t);
    }
    forall t | |r.reaped.acts| <= t < |r.launching.at.acts|
      ensures IsPlain(log.states[t].world, log.acts[t])
    {
      assert log.acts[t] == r.launching.at.acts[t] && log.states[t] == r.launching.at.states[t];
    }
  }

  /** The requests at or ahead of the key are those of the jobs in line. */
  lemma {:induction false} RequestIsInLine(log: Log, from: nat, p: Readings, r: Round, key: Key, x: Request)
    requires Planning(log, from, p, r, key) && x in r.launching.rs && !Before(key, x.SortKey())
    ensures InLine(Now(r.launching.at), x.jobId, key) && AskedBy(Now(r.launching.at).world, x.jobId) == Some(x)
  {
    hide Planning, Serving, Lawful, QuietLog, Undisturbed, RequestsAre, IsPlain, LeftInLine;
    PlanningIs(log, from, p, r, key);
    var a, b := |r.reaped.acts|, |r.launching.at.acts|;
    var e, t := FoundAt(r.launching, Now(r.reaped).running, a, x);
    Later(log, a, t, b, key);
    LastPlain(log, t, b, x.jobId, Now(r.launching.at).world);
    LineForth(log, from, t, b, x.jobId, key);
  }

  lemma {:induction false} FoundAt(plan: Plan, running: map<JobId, Entry>, began: nat, x: Request) returns (e: QueueEntry, t: nat)
    requires Kept(plan.at) && RequestsAre(plan.rs, plan.attempts, running, plan.at, began) && x in plan.rs
    ensures began <= t <= |plan.at.acts| && IsQueued(plan.at.states[t].world, e) && Makes(e, x, Now(plan.at).world) && e.jobId == x.jobId
    ensures x.jobId !in running
  {
    hide IsQueued;
    var k :| 0 <= k < |plan.rs| && plan.rs[k] == x;
    assert FoundAsking(plan.at, began, x, plan.attempts[x.jobId]);
    e :| SeenQueued(plan.at.states, began, |plan.at.acts|, e) && Makes(e, x, Now(plan.at).world);
    t :| began <= t <= |plan.at.acts| && IsQueued(plan.at.states[t].world, e);
  }

  lemma {:induction false} LastPlain(log: Log, t: nat, b: nat, job: JobId, w: World)
    requires Lawful(true, log) && t <= b < |log.states| && b <= |log.acts| && w == log.states[b].world
    requires SpecOf(w, job).Some? && forall u :: t <= u < b ==> IsPlain(log.states[u].world, log.acts[u])
    ensures LeftInLine(log, t, b, job)
  {
    forall u | t <= u < b
      ensures !(log.acts[u].Spawn? && log.acts[u].job == job) && !(log.acts[u].Dismiss? && log.acts[u].job == job)
    {
      LogGrows(true, log, u, b);
      hide Lawful;
      assert IsPlain(log.states[u].world, log.acts[u]);
    }
  }

  lemma {:induction false} InLineIsRequested(log: Log, from: nat, p: Readings, r: Round, key: Key, job: JobId)
    requires Planning(log, from, p, r, key) && InLine(Now(r.launching.at), job, key)
    ensures HasRequest(r.launching.rs, job)
  {
    hide Planning, Serving, Lawful, QuietLog, Undisturbed, IsPlain, HasRequest;
    PlanningIs(log, from, p, r, key);
    var a, b := |r.reaped.acts|, |r.launching.at.acts|;
    LineBack(log, from, a, b, job, key);
    forall t | a <= t <= b
      ensures Reads(r.launching.at.states[t].world, job, Queued)
    {
      assert log.states[t] == r.launching.at.states[t];
      QuietAt(log, from, t);
      InLineReads(log.states[t], job, key);
    }
    hide InLine, RequestsAre;
    Requested(r.launching, Now(r.reaped).running, a, job);
  }

  lemma {:induction false} InLineReads(s: Snapshot, job: JobId, key: Key)
    requires Whole(s) && InLine(s, job, key)
    ensures Reads(s.world, job, Queued) && job !in s.running
  {
  }

  lemma {:induction false} Requested(plan: Plan, running: map<JobId, Entry>, began: nat, job: JobId)
    requires Kept(plan.at) && RequestsAre(plan.rs, plan.attempts, running, plan.at, began) && job !in running
    requires forall t :: began <= t <= |plan.at.acts| ==> Reads(plan.at.states[t].world, job, Queued)
    ensures HasRequest(plan.rs, job)
  {
    hide Reads;
    assert StandsQueued(plan.at.states, began, |plan.at.acts|, job);
  }

  // From one pass to the next.

  /** Two passes, with nobody at or ahead of the key disturbed from the plan of
      the first to that of the second. */
  ghost predicate Between(log: Log, from: nat, p: Readings, r: Round, next: Round, key: Key) {
    && Consecutive(log, from, p, r, next) && Kept(r.reaped) && Kept(r.launching.at) && Kept(next.reaped) && Kept(next.launching.at)
    && |r.reaped.acts| <= |r.launching.at.acts| <= |next.reaped.acts| <= |next.launching.at.acts|
    && Undisturbed(log, |r.reaped.acts|, |next.launching.at.acts|, key)
  }

  lemma {:induction false} BothPlanning(log: Log, from: nat, p: Readings, r: Round, next: Round, key: Key)
    requires Between(log, from, p, r, next, key)
    ensures Planning(log, from, p, r, key) && Planning(log, from, p, next, key)
  {
    var a, b, c, d := |r.reaped.acts|, |r.launching.at.acts|, |next.reaped.acts|, |next.launching.at.acts|;
    Sooner(log, a, d, b, key);
    Later(log, a, c, d, key);
    hide Serving, Undisturbed;
  }

  /** What the dispatcher may do from one plan to the next. */
  lemma {:induction false} ActsBetween(log: Log, from: nat, p: Readings, r: Round, next: Round, t: nat)
    requires Consecutive(log, from, p, r, next) && Kept(r.launching.at) && Kept(r.launched) && Kept(r.after) && Kept(next.reaped) && Kept(next.launching.at)
    requires |r.launching.at.acts| <= t < |next.launching.at.acts|
    ensures t < |log.acts| && t < |log.states|
    ensures t < |r.launched.acts| ==> OfLaunching(log.acts[t])
    ensures |r.launched.acts| <= t ==> !log.acts[t].Spawn? && (log.acts[t].Dismiss? ==> IsPlain(log.states[t].world, log.acts[t]))
  {
    hide Serving, PlanIs, Done, FailedFor, BlockedApart, Decisions, IsPlain, During;
    ServingIs(log, from, p, next);
    LaunchFacts(log, from, p, r);
    StopsPlainly(log, from, p, r);
    ReapsThen(log, from, p, next);
    hide OfLaunching;
    if t < |r.launched.acts| {
      assert log.acts[t] == r.launched.acts[t];
    } else if t < |r.after.acts| {
      assert log.acts[t] == r.after.acts[t] && log.states[t] == r.after.states[t];
    } else if t < |next.reaped.acts| {
      assert log.acts[t] == next.reaped.acts[t];
    } else {
      assert log.acts[t] == next.launching.at.acts[t] && log.states[t] == next.launching.at.states[t];
    }
  }

  lemma {:induction false} StopsPlainly(log: Log, from: nat, p: Readings, r: Round)
    requires Serving(log, from, p, r)
    ensures Kept(r.after) && Extends(r.after, log)
    ensures forall t :: |r.launched.acts| <= t < |r.after.acts| ==>
      !r.after.acts[t].Spawn? && (r.after.acts[t].Dismiss? ==> IsPlain(r.after.states[t].world, r.after.acts[t]))
  {
    hide Lawful, QuietLog, Done, PlanIs, LaunchPass, SeenAlive, Decisions, OnlyReaps, IsPlain, CandidatesAre, MayStop, StopsFor, AskedSince;
  }

  lemma {:induction false} ReapsThen(log: Log, from: nat, p: Readings, r: Round)
    requires Serving(log, from, p, r)
    ensures Kept(r.before) && Kept(r.reaped) && Extends(r.reaped, log)
    ensures forall t :: |r.before.acts| <= t < |r.reaped.acts| ==> !r.reaped.acts[t].Spawn? && !r.reaped.acts[t].Dismiss?
    ensures forall t :: |r.reaped.acts| <= t < |r.launching.at.acts| ==> t < |r.launching.at.states| && IsPlain(r.launching.at.states[t].world, r.launching.at.acts[t]) && !r.launching.at.acts[t].Spawn?
  {
    hide Lawful, QuietLog, Done, PreemptPass, SeenAlive, Decisions, DropsFirst, IsPlain, PlanIs, During, ServedThen;
    ServingIs(log, from, p, r);
    PlanIsPlain(r.launching, p, |r.reaped.acts|, r.reaped);
  }

  lemma {:induction false} PlanIsPlain(plan: Plan, p: Readings, began: nat, before: Log)
    requires PlanIs(plan, p, None, began, before)
    ensures forall t :: |before.acts| <= t < |plan.at.acts| ==> t < |plan.at.states| && IsPlain(plan.at.states[t].world, plan.at.acts[t]) && !plan.at.acts[t].Spawn?
  {
    hide RequestsAre, HostFor, ScanIs, StateFor;
  }

  /** A job whose decision does not make it leave is neither started nor failed
      before the next plan. */
  lemma {:induction false} StaysLeft(log: Log, from: nat, p: Readings, r: Round, next: Round, k: nat)
    requires Consecutive(log, from, p, r, next) && Kept(r.reaped) && Kept(r.launching.at) && Kept(next.reaped) && Kept(next.launching.at)
    requires k < |r.launching.rs| && !Turns.Leaves(r.launching.Dealt()[k], p.patient) && r.launching.rs[k].jobId !in Now(r.reaped).running
    requires |r.launching.at.acts| <= |next.launching.at.acts| <= |log.acts| && SpecOf(Now(r.launching.at).world, r.launching.rs[k].jobId).Some?
    ensures LeftInLine(log, |r.launching.at.acts|, |next.launching.at.acts|, r.launching.rs[k].jobId)
  {
    hide PlanIs, Done, FailedFor, BlockedApart, Decisions, IsPlain, QuietLog, OfLaunching, During, RoundIs, Turns.Leaves;
    var job := r.launching.rs[k].jobId;
    ServingIs(log, from, p, r);
    LaunchFacts(log, from, p, r);
    StopsPlainly(log, from, p, r);
    assert Lawful(true, log);
    hide Consecutive, Serving, Lawful;
    forall t | |r.launching.at.acts| <= t < |next.launching.at.acts|
      ensures !(log.acts[t].Spawn? && log.acts[t].job == job) && !(log.acts[t].Dismiss? && log.acts[t].job == job)
    {
      ActsBetween(log, from, p, r, next, t);
      if t < |r.launched.acts| {
        NotStartedHere(log, from, p, r, k, t);
      } else {
        SpecStays(log, |r.launching.at.acts|, t, job);
      }
    }
  }

  lemma {:induction false} SpecStays(log: Log, i: nat, t: nat, job: JobId)
    requires Lawful(true, log) && i <= t < |log.states| && t < |log.acts| && SpecOf(log.states[i].world, job).Some?
    ensures !(IsPlain(log.states[t].world, log.acts[t]) && log.acts[t].Dismiss? && log.acts[t].job == job)
  {
    LogGrows(true, log, i, t);
    hide Lawful;
  }

  lemma {:induction false} NotStartedHere(log: Log, from: nat, p: Readings, r: Round, k: nat, t: nat)
    requires Serving(log, from, p, r) && Kept(r.reaped) && Kept(r.launched) && |r.launching.at.acts| <= t < |r.launched.acts| <= |log.acts|
    requires k < |r.launching.rs| && !Turns.Leaves(r.launching.Dealt()[k], p.patient) && r.launching.rs[k].jobId !in Now(r.reaped).running
    ensures var job := r.launching.rs[k].jobId;
            !(log.acts[t].Spawn? && log.acts[t].job == job) && !(log.acts[t].Dismiss? && log.acts[t].job == job)
  {
    hide Serving, PlanIs, BlockedApart, During, OfLaunching, Decisions, Waiting, Done, FailedFor, MayFail, Turns.Leaves;
    LaunchFacts(log, from, p, r);
    ServingIs(log, from, p, r);
    RequestsDiffer(log, from, p, r);
    NotCountedAfter(r.launching, Now(r.reaped).running, Now(r.launched).running, r.blocks.Keys, p.patient, k);
    SpawnCounts(log, from, p, r, t);
    NobodyGivesUp(r.launching, p.patient, r.blocks, k);
    FailsOnlyThose(r.launching, p.patient, r.blocks, r.launched, t);
    assert log.acts[t] == r.launched.acts[t];
  }

  /** No job is twice in the queue of a pass. */
  lemma {:induction false} RequestsDiffer(log: Log, from: nat, p: Readings, r: Round)
    requires Serving(log, from, p, r)
    ensures forall k, l :: 0 <= k < l < |r.launching.rs| ==>
      r.launching.rs[k].jobId != r.launching.rs[l].jobId && Before(r.launching.rs[k].SortKey(), r.launching.rs[l].SortKey())
    ensures Kept(r.reaped) && forall k :: 0 <= k < |r.launching.rs| ==> r.launching.rs[k].jobId !in Now(r.reaped).running
  {
    PlanOf(log, from, p, r);
    hide Serving, HostFor, ScanIs, StateFor, FoundAsking, HasRequest, Before;
  }

  lemma {:induction false} DealtTo(plan: Plan, l: nat)
    requires l < |plan.rs|
    ensures plan.Dealt()[l].jobId == plan.rs[l].jobId
  {
    hide Decide, After;
    DecisionNames(plan.h, After(plan.h, plan.s, plan.rs, l), plan.rs[l]);
  }

  predicate AllDiffer(rs: seq<Request>) {
    forall k, l :: 0 <= k < l < |rs| ==> rs[k].jobId != rs[l].jobId
  }

  lemma {:induction false} NotCountedAfter(plan: Plan, was: map<JobId, Entry>, now: map<JobId, Entry>, blocked: set<JobId>, patient: bool, k: nat)
    requires Done(plan.Dealt(), |plan.rs|, plan.attempts, was, now, blocked) && AllDiffer(plan.rs)
    requires k < |plan.rs| && !Turns.Leaves(plan.Dealt()[k], patient) && plan.rs[k].jobId !in was
    ensures plan.rs[k].jobId !in now
  {
    hide Decisions, Done, Decide, After;
    forall l | 0 <= l < |plan.rs|
      ensures plan.Dealt()[l].Assigned? ==> plan.Dealt()[l].jobId != plan.rs[k].jobId
    {
      DealtTo(plan, l);
    }
    NotStartedThen(plan.Dealt(), |plan.rs|, plan.attempts, was, now, blocked, plan.rs[k].jobId);
  }

  lemma {:induction false} NotStartedThen(ds: seq<Decision>, n: nat, attempts: map<JobId, nat>, was: map<JobId, Entry>, now: map<JobId, Entry>, blocked: set<JobId>, job: JobId)
    requires Done(ds, n, attempts, was, now, blocked) && job !in was
    requires forall l :: 0 <= l < n ==> ds[l].Assigned? ==> ds[l].jobId != job
    ensures job !in now
  {
  }

  lemma {:induction false} NobodyGivesUp(plan: Plan, patient: bool, blocks: map<JobId, Block>, k: nat)
    requires AllDiffer(plan.rs) && k < |plan.rs| && !Turns.Leaves(plan.Dealt()[k], patient)
    ensures !MayFail(plan.Dealt(), |plan.rs|, patient, blocks, plan.rs[k].jobId)
  {
    hide Decisions, MayFail, GivesUp;
    GivesUpLeaves(plan.Dealt()[k], patient, blocks);
    forall l | 0 <= l < |plan.rs|
      ensures plan.Dealt()[l].jobId == plan.rs[k].jobId ==> !GivesUp(plan.Dealt()[l], patient, blocks)
    {
      DealtTo(plan, l);
    }
    NobodyMayFail(plan.Dealt(), |plan.rs|, patient, blocks, plan.rs[k].jobId);
  }

  lemma {:induction false} GivesUpLeaves(d: Decision, patient: bool, blocks: map<JobId, Block>)
    requires !Turns.Leaves(d, patient)
    ensures !GivesUp(d, patient, blocks)
  {
  }

  lemma {:induction false} NobodyMayFail(ds: seq<Decision>, n: nat, patient: bool, blocks: map<JobId, Block>, job: JobId)
    requires n <= |ds| && forall l :: 0 <= l < n ==> (ds[l].jobId == job ==> !GivesUp(ds[l], patient, blocks))
    ensures !MayFail(ds, n, patient, blocks, job)
  {
    hide GivesUp;
  }

  lemma {:induction false} FailsOnlyThose(plan: Plan, patient: bool, blocks: map<JobId, Block>, log: Log, t: nat)
    requires FailedFor(plan.Dealt(), |plan.rs|, patient, blocks, log, |plan.at.acts|) && |plan.at.acts| <= t < |log.acts|
    ensures log.acts[t].Dismiss? ==> MayFail(plan.Dealt(), |plan.rs|, patient, blocks, log.acts[t].job)
  {
    hide MayFail, Decisions;
  }

  lemma {:induction false} SpawnCounts(log: Log, from: nat, p: Readings, r: Round, t: nat)
    requires Serving(log, from, p, r) && Kept(r.launched) && |r.launching.at.acts| <= t < |r.launched.acts| <= |log.acts|
    ensures log.acts[t].Spawn? ==> log.acts[t].job in Now(r.launched).running
  {
    hide PlanIs, Done, During, QuietLog, RoundIs;
    ServingIs(log, from, p, r);
    NoneDroppedIn(log, from, p, r);
    assert Lawful(true, log) && QuietLog(log, from) && from <= |r.reaped.acts|;
    hide Serving, Lawful;
    if log.acts[t].Spawn? {
      LawfulStep(true, log, t);
      MoreEntries(log, from, t + 1, |r.launched.acts|);
      assert log.acts[t].job in log.states[t + 1].running;
    }
  }

  // The same jobs ahead.

  /** What stays of the queue up to the key is in the next pass's. */
  lemma {:induction false} StaysInLine(log: Log, from: nat, p: Readings, r: Round, next: Round, key: Key, k: nat)
    requires Between(log, from, p, r, next, key) && k < |r.launching.rs| && !Before(key, r.launching.rs[k].SortKey())
    requires !Turns.Leaves(r.launching.Dealt()[k], p.patient)
    ensures r.launching.rs[k] in next.launching.rs
  {
    hide Between, Planning, Serving, Undisturbed, InLine, Decisions, Turns.Leaves, HasRequest, Before, LeftInLine;
    var x, b, d := r.launching.rs[k], |r.launching.at.acts|, |next.launching.at.acts|;
    BetweenIs(log, from, p, r, next, key);
    BothPlanning(log, from, p, r, next, key);
    RequestIsInLine(log, from, p, r, key, x);
    RequestsDiffer(log, from, p, r);
    PlanningIs(log, from, p, r, key);
    PlanningIs(log, from, p, next, key);
    hide RequestsAre, IsPlain, Lawful, QuietLog;
    AskedIsSpecified(Now(r.launching.at).world, x);
    StaysLeft(log, from, p, r, next, k);
    LineForth(log, from, b, d, x.jobId, key);
    StillRequested(log, from, p, next, key, x, Now(r.launching.at).world);
  }

  lemma {:induction false} AskedIsSpecified(w: World, x: Request)
    requires AskedBy(w, x.jobId) == Some(x)
    ensures SpecOf(w, x.jobId).Some?
  {
  }

  lemma {:induction false} BetweenIs(log: Log, from: nat, p: Readings, r: Round, next: Round, key: Key)
    requires Between(log, from, p, r, next, key)
    ensures Consecutive(log, from, p, r, next) && Kept(r.reaped) && Kept(r.launching.at) && Kept(next.reaped) && Kept(next.launching.at)
    ensures |r.reaped.acts| <= |r.launching.at.acts| <= |next.reaped.acts| <= |next.launching.at.acts| <= |log.acts|
    ensures |next.launching.at.acts| < |log.states| && from <= |r.reaped.acts|
    ensures Undisturbed(log, |r.launching.at.acts|, |next.launching.at.acts|, key)
    ensures Undisturbed(log, |r.reaped.acts|, |next.launching.at.acts|, key)
  {
    ServingIs(log, from, p, r);
    Later(log, |r.reaped.acts|, |r.launching.at.acts|, |next.launching.at.acts|, key);
    hide Serving, PlanIs, Done, During;
  }

  /** A job in line that asked this at some moment asks it now. */
  lemma {:induction false} StillRequested(log: Log, from: nat, p: Readings, r: Round, key: Key, x: Request, v: World)
    requires Planning(log, from, p, r, key) && InLine(Now(r.launching.at), x.jobId, key)
    requires AskedBy(v, x.jobId) == Some(x) && SamePlace(v, Now(r.launching.at).world, x.jobId)
    ensures x in r.launching.rs
  {
    hide Planning, InLine;
    InLineIsRequested(log, from, p, r, key, x.jobId);
    var y :| y in r.launching.rs && y.jobId == x.jobId;
    YoursIsInLine(log, from, p, r, key, y);
  }

  lemma {:induction false} YoursIsInLine(log: Log, from: nat, p: Readings, r: Round, key: Key, y: Request)
    requires Planning(log, from, p, r, key) && y in r.launching.rs && InLine(Now(r.launching.at), y.jobId, key)
    ensures !Before(key, y.SortKey()) && AskedBy(Now(r.launching.at).world, y.jobId) == Some(y)
  {
    hide Planning, Serving, Lawful, QuietLog, Undisturbed, RequestsAre, IsPlain;
    PlanningIs(log, from, p, r, key);
    var a, b := |r.reaped.acts|, |r.launching.at.acts|;
    var e, t := FoundAt(r.launching, Now(r.reaped).running, a, y);
    LineBack(log, from, a, b, y.jobId, key);
    assert log.states[t] == r.launching.at.states[t];
    assert SamePlace(log.states[t].world, log.states[b].world, y.jobId) && InLine(log.states[t], y.jobId, key);
  }

  /** Who was in line all through a pass has been neither started nor failed. */
  lemma {:induction false} InLineHasNotLeft(log: Log, from: nat, p: Readings, r: Round, key: Key, k: nat)
    requires Serving(log, from, p, r) && Kept(r.reaped) && Kept(r.launched) && k < |r.launching.rs|
    requires |r.launching.at.acts| <= |r.launched.acts| < |log.states| && from <= |r.launching.at.acts|
    requires forall t :: |r.launching.at.acts| <= t <= |r.launched.acts| ==> InLine(log.states[t], r.launching.rs[k].jobId, key)
    ensures !Turns.Leaves(r.launching.Dealt()[k], p.patient)
  {
    hide PlanIs, Done, FailedFor, BlockedApart, Decisions, During, RoundIs, OfLaunching, SeenUnqueued, InLine;
    var job := r.launching.rs[k].jobId;
    ServingIs(log, from, p, r);
    LaunchFacts(log, from, p, r);
    OnlySpawnsBlock(log, from, p, r);
    AlwaysQueued(log, from, p, r, key, job);
    hide Serving;
    DealtTo(r.launching, k);
    InLineReads(log.states[|r.launched.acts|], job, key) by { AlwaysWhole(log, from, p, r); }
    hide GivenUpFor;
    LeavesThen(r.launching, p.patient, Now(r.reaped).running, Now(r.launched).running, r.blocks, r.launched, k);
  }

  lemma {:induction false} AlwaysWhole(log: Log, from: nat, p: Readings, r: Round)
    requires Serving(log, from, p, r)
    ensures Kept(r.launched) && from <= |r.launched.acts| < |log.states| && Whole(log.states[|r.launched.acts|])
  {
    hide PlanIs, Done, During, RoundIs, Lawful, Whole;
    ServingIs(log, from, p, r);
    QuietAt(log, from, |r.launched.acts|);
  }

  lemma {:induction false} AlwaysQueued(log: Log, from: nat, p: Readings, r: Round, key: Key, job: JobId)
    requires Serving(log, from, p, r) && Kept(r.launched) && |r.launching.at.acts| <= |r.launched.acts| < |log.states| && from <= |r.launching.at.acts|
    requires forall t :: |r.launching.at.acts| <= t <= |r.launched.acts| ==> InLine(log.states[t], job, key)
    ensures !SeenUnqueued(r.launched, |r.launching.at.acts|, job)
  {
    hide RoundIs, Lawful, InLine, OwnOnly;
    LaunchFacts(log, from, p, r);
    assert QuietLog(log, from);
    hide Serving, QuietLog;
    forall t: nat | |r.launching.at.acts| <= t < |r.launched.states|
      ensures Reads(r.launched.states[t].world, job, Queued)
    {
      assert r.launched.states[t] == log.states[t];
      QuietAt(log, from, t);
      InLineReads(log.states[t], job, key);
    }
  }

  lemma {:induction false} LeavesThen(plan: Plan, patient: bool, was: map<JobId, Entry>, now: map<JobId, Entry>, blocks: map<JobId, Block>, log: Log, k: nat)
    requires Done(plan.Dealt(), |plan.rs|, plan.attempts, was, now, blocks.Keys) && k < |plan.rs| && plan.Dealt()[k].jobId == plan.rs[k].jobId
    requires FailedFor(plan.Dealt(), |plan.rs|, patient, blocks, log, |plan.at.acts|) && forall j :: j in blocks ==> blocks[j].SpawnFailed?
    requires plan.rs[k].jobId !in now && !SeenUnqueued(log, |plan.at.acts|, plan.rs[k].jobId)
    ensures !Turns.Leaves(plan.Dealt()[k], patient)
  {
    hide Decisions, SeenUnqueued, MayFail;
    assert !GivesUp(plan.Dealt()[k], patient, blocks);
  }

  /** What the next pass finds in its queue up to the key was in this one's, and
      did not leave it. */
  lemma {:induction false} WasInLine(log: Log, from: nat, p: Readings, r: Round, next: Round, key: Key, y: Request) returns (k: nat)
    requires Between(log, from, p, r, next, key) && y in next.launching.rs && !Before(key, y.SortKey())
    ensures k < |r.launching.rs| && r.launching.rs[k] == y && !Turns.Leaves(r.launching.Dealt()[k], p.patient)
  {
    hide Between, Planning, Serving, Undisturbed, InLine, Decisions, Turns.Leaves, HasRequest, Before, SamePlace;
    var a, b, d := |r.reaped.acts|, |r.launching.at.acts|, |next.launching.at.acts|;
    BetweenIs(log, from, p, r, next, key);
    BothPlanning(log, from, p, r, next, key);
    RequestIsInLine(log, from, p, next, key, y);
    PlanningIs(log, from, p, r, key);
    PlanningIs(log, from, p, next, key);
    hide RequestsAre, IsPlain;
    LineBack(log, from, a, d, y.jobId, key);
    OtherWay(log.states[b].world, log.states[d].world, y.jobId);
    StillRequested(log, from, p, r, key, y, log.states[d].world);
    k :| 0 <= k < |r.launching.rs| && r.launching.rs[k] == y;
    LaunchedBetween(log, from, p, r, next);
    InLineHasNotLeft(log, from, p, r, key, k);
  }

  lemma {:induction false} OtherWay(v: World, w: World, job: JobId)
    requires SamePlace(v, w, job)
    ensures SamePlace(w, v, job)
  {
  }

  lemma {:induction false} LaunchedBetween(log: Log, from: nat, p: Readings, r: Round, next: Round)
    requires Consecutive(log, from, p, r, next) && Kept(r.launching.at) && Kept(next.launching.at)
    ensures Serving(log, from, p, r) && Kept(r.launched)
    ensures |r.launching.at.acts| <= |r.launched.acts| <= |next.launching.at.acts| && |r.launched.acts| < |log.states|
  {
    hide Serving, PlanIs, Done, During;
    ServingIs(log, from, p, r);
    ServingIs(log, from, p, next);
  }

  // Queues in order.

  predicate Sorted(rs: seq<Request>) {
    forall i, j :: 0 <= i < j < |rs| ==> Before(rs[i].SortKey(), rs[j].SortKey())
  }

  lemma {:induction false} SortedSame(a: seq<Request>, b: seq<Request>)
    requires Sorted(a) && Sorted(b) && forall x :: x in a <==> x in b
    ensures a == b
  {
    if a != [] {
      assert a[0] in b;
      FirstIsFirst(a, b);
      assert forall x :: x in a[1..] ==> x in a && x != a[0];
      assert forall x :: x in b[1..] ==> x in b && x != b[0];
      TailHas(a);
      TailHas(b);
      SortedSame(a[1..], b[1..]);
    } else {
      NoElements(b);
    }
  }

  lemma {:induction false} TailHas(a: seq<Request>)
    requires a != []
    ensures forall x :: x in a ==> x == a[0] || x in a[1..]
  {
    assert a == [a[0]] + a[1..];
  }

  lemma {:induction false} FirstIsFirst(a: seq<Request>, b: seq<Request>)
    requires Sorted(a) && Sorted(b) && a != [] && b != [] && a[0] in b && b[0] in a
    ensures a[0] == b[0]
  {
    var i :| 0 <= i < |b| && b[i] == a[0];
    var j :| 0 <= j < |a| && a[j] == b[0];
    assert i > 0 ==> Before(b[0].SortKey(), b[i].SortKey());
    assert j > 0 ==> Before(a[0].SortKey(), a[j].SortKey());
  }

  /** What is left of a queue in order is in order, and is the jobs that have not
      left. */
  lemma {:induction false} LeftIs(rs: seq<Request>, ds: seq<Decision>, patient: bool, k: nat)
    requires Sorted(rs) && k <= |rs| <= |ds|
    ensures var left := Turns.Left(rs, ds, patient, k);
            && Sorted(left)
            && (forall x :: x in left ==> exists i :: 0 <= i < k && rs[i] == x && !Turns.Leaves(ds[i], patient))
            && (forall i :: 0 <= i < k && !Turns.Leaves(ds[i], patient) ==> rs[i] in left)
  {
    hide Turns.Leaves, Before;
    if k > 0 {
      LeftIs(rs, ds, patient, k - 1);
      var before := Turns.Left(rs, ds, patient, k - 1);
      forall x | x in before
        ensures Before(x.SortKey(), rs[k - 1].SortKey())
      {
        var i :| 0 <= i < k - 1 && rs[i] == x && !Turns.Leaves(ds[i], patient);
      }
    }
  }

  /** The queue up to the watched job is, in the next pass, what this one has
      left of it. */
  lemma {:induction false} AheadIsWhatWasLeft(log: Log, from: nat, p: Readings, r: Round, next: Round, j: nat, job: Request) returns (l: nat)
    requires Between(log, from, p, r, next, job.SortKey()) && 0 < j <= |r.launching.rs| && r.launching.rs[j - 1] == job && job in next.launching.rs
    ensures 0 < l <= |next.launching.rs| && next.launching.rs[l - 1] == job
    ensures |r.launching.Dealt()| == |r.launching.rs|
    ensures next.launching.rs[..l] == Turns.Left(r.launching.rs[..j], r.launching.Dealt(), p.patient, j)
    ensures !Turns.Leaves(r.launching.Dealt()[j - 1], p.patient)
  {
    hide *;
    var m :| 0 <= m < |next.launching.rs| && next.launching.rs[m] == job;
    l := m + 1;
    SameQueue(log, from, p, r, next, j, m, job);
    NotBehindHere(log, from, p, r, next, j, m, job);
  }

  lemma {:induction false} SameQueue(log: Log, from: nat, p: Readings, r: Round, next: Round, j: nat, m: nat, job: Request)
    requires Between(log, from, p, r, next, job.SortKey()) && 0 < j <= |r.launching.rs| && r.launching.rs[j - 1] == job
    requires m < |next.launching.rs| && next.launching.rs[m] == job
    ensures |r.launching.Dealt()| == |r.launching.rs|
    ensures next.launching.rs[..m + 1] == Turns.Left(r.launching.rs[..j], r.launching.Dealt(), p.patient, j)
  {
    hide *;
    BothSorted(log, from, p, r, next, job.SortKey());
    var x, y := Turns.Left(r.launching.rs[..j], r.launching.Dealt(), p.patient, j), next.launching.rs[..m + 1];
    SortedPrefix(r.launching.rs, j);
    SortedPrefix(next.launching.rs, m + 1);
    LeftIs(r.launching.rs[..j], r.launching.Dealt(), p.patient, j);
    forall z
      ensures z in x <==> z in y
    {
      if z in x {
        LeftIsNext(log, from, p, r, next, j, m, z);
      }
      if z in y {
        NextIsLeft(log, from, p, r, next, j, m, z);
      }
    }
    SortedSame(y, x);
  }

  lemma {:induction false} NotBehindHere(log: Log, from: nat, p: Readings, r: Round, next: Round, j: nat, m: nat, job: Request)
    requires Between(log, from, p, r, next, job.SortKey()) && 0 < j <= |r.launching.rs| && r.launching.rs[j - 1] == job
    requires m < |next.launching.rs| && next.launching.rs[m] == job
    ensures |r.launching.Dealt()| == |r.launching.rs| && !Turns.Leaves(r.launching.Dealt()[j - 1], p.patient)
  {
    hide *;
    BothSorted(log, from, p, r, next, job.SortKey());
    NotItself(job.SortKey());
    var k := WasInLine(log, from, p, r, next, job.SortKey(), job);
    OnceIn(r.launching.rs, k, j - 1, job);
  }

  lemma {:induction false} SortedPrefix(rs: seq<Request>, k: nat)
    requires Sorted(rs) && k <= |rs|
    ensures Sorted(rs[..k])
  {
    hide Before;
  }

  lemma {:induction false} LeftIsNext(log: Log, from: nat, p: Readings, r: Round, next: Round, j: nat, m: nat, z: Request)
    requires 0 < j <= |r.launching.rs| && m < |next.launching.rs| && r.launching.rs[j - 1] == next.launching.rs[m]
    requires Between(log, from, p, r, next, r.launching.rs[j - 1].SortKey())
    requires z in Turns.Left(r.launching.rs[..j], r.launching.Dealt(), p.patient, j)
    ensures z in next.launching.rs[..m + 1]
  {
    hide *;
    var rs, ns, ds, key := r.launching.rs, next.launching.rs, r.launching.Dealt(), r.launching.rs[j - 1].SortKey();
    BothSorted(log, from, p, r, next, key);
    SortedPrefix(rs, j);
    LeftIs(rs[..j], ds, p.patient, j);
    var i :| 0 <= i < j && rs[..j][i] == z && !Turns.Leaves(ds[i], p.patient);
    NotBehind(rs, i, j - 1);
    StaysInLine(log, from, p, r, next, key, i);
    UpTo(ns, z, m);
  }

  lemma {:induction false} NextIsLeft(log: Log, from: nat, p: Readings, r: Round, next: Round, j: nat, m: nat, z: Request)
    requires 0 < j <= |r.launching.rs| && m < |next.launching.rs| && r.launching.rs[j - 1] == next.launching.rs[m]
    requires Between(log, from, p, r, next, r.launching.rs[j - 1].SortKey())
    requires z in next.launching.rs[..m + 1]
    ensures z in Turns.Left(r.launching.rs[..j], r.launching.Dealt(), p.patient, j)
  {
    hide *;
    var rs, ns, ds, key := r.launching.rs, next.launching.rs, r.launching.Dealt(), r.launching.rs[j - 1].SortKey();
    BothSorted(log, from, p, r, next, key);
    var i :| 0 <= i < m + 1 && ns[..m + 1][i] == z;
    NotBehind(ns, i, m);
    var k := WasInLine(log, from, p, r, next, key, z);
    OnceIn(rs, k, j - 1, z);
    SortedPrefix(rs, j);
    LeftIs(rs[..j], ds, p.patient, j);
    assert rs[..j][k] == z;
  }

  lemma {:induction false} NotBehind(rs: seq<Request>, i: nat, j: nat)
    requires Sorted(rs) && i <= j < |rs|
    ensures !Before(rs[j].SortKey(), rs[i].SortKey())
  {
    assert i < j ==> Before(rs[i].SortKey(), rs[j].SortKey());
  }

  lemma {:induction false} OrderAt(rs: seq<Request>, i: nat, j: nat)
    requires Sorted(rs)
    ensures i < j < |rs| ==> Before(rs[i].SortKey(), rs[j].SortKey())
  {
  }

  lemma {:induction false} UpTo(rs: seq<Request>, z: Request, m: nat)
    requires Sorted(rs) && m < |rs| && z in rs && !Before(rs[m].SortKey(), z.SortKey())
    ensures z in rs[..m + 1]
  {
    var i :| 0 <= i < |rs| && rs[i] == z;
    OrderAt(rs, m, i);
    assert rs[..m + 1][i] == z;
  }

  lemma {:induction false} OnceIn(rs: seq<Request>, k: nat, m: nat, z: Request)
    requires Sorted(rs) && k < |rs| && m < |rs| && rs[k] == z && !Before(rs[m].SortKey(), z.SortKey())
    ensures k <= m && (rs[m] == z ==> k == m)
  {
    OrderAt(rs, m, k);
    OrderAt(rs, k, m);
  }

  lemma {:induction false} BothSorted(log: Log, from: nat, p: Readings, r: Round, next: Round, key: Key)
    requires Between(log, from, p, r, next, key)
    ensures Sorted(r.launching.rs) && Sorted(next.launching.rs) && |r.launching.Dealt()| == |r.launching.rs|
  {
    BetweenIs(log, from, p, r, next, key);
    hide Between, Serving;
    RequestsDiffer(log, from, p, r);
    RequestsDiffer(log, from, p, next);
  }

  // Whole runs.

  lemma {:induction false} PassesInTurn(log: Log, from: nat, p: Readings, rounds: seq<Round>, i: nat, k: nat)
    requires InService(log, from, p, rounds) && i <= k < |rounds|
    ensures |rounds[i].reaped.acts| <= |rounds[k].reaped.acts| <= |rounds[k].launching.at.acts| <= |log.acts|
    ensures i < k ==> |rounds[i].launching.at.acts| <= |rounds[k].reaped.acts|
    decreases k
  {
    hide Serving, PlanIs, Done, During;
    ServingIs(log, from, p, rounds[k]);
    if i < k {
      PassesInTurn(log, from, p, rounds, i, k - 1);
      ServingIs(log, from, p, rounds[k - 1]);
    }
  }

  /** From the plan of pass `i` to that of pass `n` nobody is disturbed at or
      ahead of this job. */
  ghost predicate Orderly(log: Log, rounds: seq<Round>, i: nat, n: nat, job: Request)
    requires i <= n < |rounds|
  {
    Undisturbed(log, |rounds[i].reaped.acts|, |rounds[n].launching.at.acts|, job.SortKey())
  }

  lemma {:induction false} InTurn(log: Log, from: nat, p: Readings, rounds: seq<Round>, k: nat)
    requires InService(log, from, p, rounds) && k + 1 < |rounds|
    ensures Consecutive(log, from, p, rounds[k], rounds[k + 1])
    ensures Kept(rounds[k].reaped) && Kept(rounds[k].launching.at) && Kept(rounds[k + 1].reaped) && Kept(rounds[k + 1].launching.at)
    ensures |rounds[k].reaped.acts| <= |rounds[k].launching.at.acts|
  {
    hide Serving, PlanIs, Done, During;
    ServingIs(log, from, p, rounds[k]);
    ServingIs(log, from, p, rounds[k + 1]);
  }

  lemma {:induction false} OrderlyBetween(log: Log, from: nat, p: Readings, rounds: seq<Round>, k: nat, n: nat, job: Request)
    requires InService(log, from, p, rounds) && k < n < |rounds| && Orderly(log, rounds, 0, n, job)
    ensures Between(log, from, p, rounds[k], rounds[k + 1], job.SortKey())
  {
    hide InService, Undisturbed, Consecutive;
    InTurn(log, from, p, rounds, k);
    PassesInTurn(log, from, p, rounds, 0, k);
    PassesInTurn(log, from, p, rounds, k, k + 1);
    PassesInTurn(log, from, p, rounds, k + 1, n);
    var a, b, c, d := |rounds[0].reaped.acts|, |rounds[k].reaped.acts|, |rounds[k + 1].launching.at.acts|, |rounds[n].launching.at.acts|;
    Later(log, a, b, d, job.SortKey());
    Sooner(log, b, d, c, job.SortKey());
  }

  /** The queue of pass `k` up to the job. */
  predicate StandsAt(r: Round, j: nat, job: Request) {
    0 < j <= |r.launching.rs| && r.launching.rs[j - 1] == job
  }

  /** A job queued for the last of these passes was so for each of them. */
  lemma {:induction false} QueuedThroughout(log: Log, from: nat, p: Readings, rounds: seq<Round>, k: nat, n: nat, job: Request)
    requires InService(log, from, p, rounds) && k <= n < |rounds| && Orderly(log, rounds, 0, n, job) && job in rounds[n].launching.rs
    ensures job in rounds[k].launching.rs
    decreases n - k
  {
    hide InService, Orderly, Between, Turns.Leaves, Decisions;
    if k < n {
      QueuedThroughout(log, from, p, rounds, k + 1, n, job);
      OrderlyBetween(log, from, p, rounds, k, n, job);
      NotItself(job.SortKey());
      var i := WasInLine(log, from, p, rounds[k], rounds[k + 1], job.SortKey(), job);
    }
  }

  lemma {:induction false} NotItself(key: Key)
    ensures !Before(key, key)
  {
  }

  predicate LeftAhead(p: Readings, r: Round, next: Round, j: nat, l: nat) {
    && j <= |r.launching.rs| && l <= |next.launching.rs|
    && next.launching.rs[..l] == Turns.Left(r.launching.rs[..j], r.launching.Dealt(), p.patient, j)
  }

  /** Where the job stands in each of the passes up to `m`: with the same jobs
      ahead of it as the pass before has left there. */
  predicate StandsThrough(p: Readings, rounds: seq<Round>, js: seq<nat>, m: nat, job: Request) {
    && |js| == m + 1 <= |rounds|
    && (forall k :: 0 <= k <= m ==> StandsAt(rounds[k], js[k], job))
    && (forall k :: 0 <= k < m ==> LeftAhead(p, rounds[k], rounds[k + 1], js[k], js[k + 1]) && WaitsIn(p, rounds[k], js[k]))
  }

  lemma {:induction false} StandsMore(p: Readings, rounds: seq<Round>, js: seq<nat>, m: nat, job: Request, l: nat)
    requires m + 1 < |rounds| && StandsThrough(p, rounds, js, m, job) && StandsAt(rounds[m + 1], l, job) && js[m] <= |rounds[m].launching.rs|
    requires LeftAhead(p, rounds[m], rounds[m + 1], js[m], l) && WaitsIn(p, rounds[m], js[m])
    ensures StandsThrough(p, rounds, js + [l], m + 1, job)
  {
    hide LeftAhead, WaitsIn;
  }

  lemma {:induction false} StandsNext(log: Log, from: nat, p: Readings, rounds: seq<Round>, js: seq<nat>, n: nat, m: nat, job: Request) returns (l: nat)
    requires InService(log, from, p, rounds) && m < n < |rounds| && Orderly(log, rounds, 0, n, job) && job in rounds[n].launching.rs
    requires StandsThrough(p, rounds, js, m, job)
    ensures StandsThrough(p, rounds, js + [l], m + 1, job)
  {
    hide *;
    LastStand(p, rounds, js, m, job);
    QueuedThroughout(log, from, p, rounds, m + 1, n, job);
    OrderlyBetween(log, from, p, rounds, m, n, job);
    StandsIs(rounds[m], js[m], job);
    l := AheadIsWhatWasLeft(log, from, p, rounds[m], rounds[m + 1], js[m], job);
    LeftIsAhead(p, rounds[m], rounds[m + 1], js[m], l, job);
    StandsMore(p, rounds, js, m, job, l);
  }

  lemma {:induction false} LastStand(p: Readings, rounds: seq<Round>, js: seq<nat>, m: nat, job: Request)
    requires StandsThrough(p, rounds, js, m, job)
    ensures |js| == m + 1 <= |rounds| && StandsAt(rounds[m], js[m], job)
  {
  }

  lemma {:induction false} StandsIs(r: Round, j: nat, job: Request)
    requires StandsAt(r, j, job)
    ensures 0 < j <= |r.launching.rs| && r.launching.rs[j - 1] == job
  {
  }

  lemma {:induction false} LeftIsAhead(p: Readings, r: Round, next: Round, j: nat, l: nat, job: Request)
    requires StandsAt(r, j, job) && 0 < l <= |next.launching.rs| && next.launching.rs[l - 1] == job && |r.launching.Dealt()| == |r.launching.rs|
    requires next.launching.rs[..l] == Turns.Left(r.launching.rs[..j], r.launching.Dealt(), p.patient, j)
    requires !Turns.Leaves(r.launching.Dealt()[j - 1], p.patient)
    ensures LeftAhead(p, r, next, j, l) && WaitsIn(p, r, j) && StandsAt(next, l, job)
  {
    hide Turns.Left, Turns.Leaves, Decisions;
  }

  lemma {:induction false} Standing(log: Log, from: nat, p: Readings, rounds: seq<Round>, j: nat, n: nat, m: nat, job: Request) returns (js: seq<nat>)
    requires InService(log, from, p, rounds) && m <= n < |rounds| && Orderly(log, rounds, 0, n, job) && job in rounds[n].launching.rs
    requires StandsAt(rounds[0], j, job)
    ensures StandsThrough(p, rounds, js, m, job) && |js| == m + 1 && js[0] == j
    decreases m
  {
    hide InService, Orderly, StandsAt, LeftAhead, WaitsIn;
    if m == 0 {
      js := [j];
    } else {
      js := Standing(log, from, p, rounds, j, n, m - 1, job);
      hide StandsThrough;
      var l := StandsNext(log, from, p, rounds, js, n, m - 1, job);
      js := js + [l];
    }
  }

  lemma {:induction false} StandingIsPlaced(p: Readings, rounds: seq<Round>, js: seq<nat>, n: nat, job: Request)
    requires StandsThrough(p, rounds, js, n, job) && forall k :: 0 <= k <= n ==> NoneBorrows(rounds[k].launching.rs)
    ensures var first := rounds[..n + 1]; Placed(first, js) && forall k :: 0 <= k < n ==> SameAhead(p, first, js, k) && WaitsIn(p, first[k], js[k])
  {
    hide NoneBorrows, WaitsIn, Turns.Left, Decisions;
    var first := rounds[..n + 1];
    assert Placed(first, js);
    forall k | 0 <= k < n
      ensures SameAhead(p, first, js, k) && WaitsIn(p, first[k], js[k])
    {
      assert LeftAhead(p, rounds[k], rounds[k + 1], js[k], js[k + 1]);
    }
  }

  /** The pass finds the job at this place and covered. */
  predicate FindsCovered(p: Readings, r: Round, j: nat, job: Request) {
    StandsAt(r, j, job) && Turns.CoveredFor(SceneOf(p, r, j))
  }

  ghost predicate KeepsOrder(r: Round, j: nat) {
    Kept(r.reaped) && Kept(r.launched) && NobodyOvertakes(r, j)
  }

  /** Passes in service, the first of them with the job at place `j` and covered
      and the last with it still queued; none of the queues borrows, and nobody
      at or ahead of it is disturbed from without. */
  ghost predicate Watched(log: Log, from: nat, p: Readings, rounds: seq<Round>, j: nat, job: Request) {
    && InService(log, from, p, rounds) && rounds != [] && FindsCovered(p, rounds[0], j, job)
    && (forall k :: 0 <= k < |rounds| ==> NoneBorrows(rounds[k].launching.rs))
    && Orderly(log, rounds, 0, |rounds| - 1, job) && job in rounds[|rounds| - 1].launching.rs
  }

  /** No livelock in service: on a quiet host that lends nothing, with nobody
      cancelled, submitted, moved or queued again at or ahead of the job, from a
      pass that finds it covered by the cards free and on their way back, every
      pass that still finds it queued finds it covered, and every one before
      starts nobody behind it on a card. */
  lemma {:induction false} ServedInOrder(log: Log, from: nat, p: Readings, rounds: seq<Round>, j: nat, job: Request) returns (js: seq<nat>)
    requires Watched(log, from, p, rounds, j, job)
    ensures |js| == |rounds| > 0 && js[0] == j && FindsCovered(p, rounds[|rounds| - 1], js[|rounds| - 1], job)
    ensures forall k :: 0 <= k < |rounds| ==> StandsAt(rounds[k], js[k], job)
    ensures forall k :: 0 <= k < |rounds| - 1 ==> KeepsOrder(rounds[k], js[k])
  {
    hide Orderly, Turns.CoveredFor, Decisions, WaitsIn, NobodyOvertakes, NoneBorrows, InService, SceneOf, SameAhead, Placed, LeftAhead;
    var n := |rounds| - 1;
    js := Standing(log, from, p, rounds, j, n, n, job);
    assert rounds[..n + 1] == rounds;
    StandingIsPlaced(p, rounds, js, n, job);
    WaitsThere(p, rounds[0], j, job);
    hide Watched;
    CoveredWhileAhead(log, from, p, rounds, js, n, job);
  }

  lemma {:induction false} WaitsThere(p: Readings, r: Round, j: nat, job: Request)
    requires StandsAt(r, j, job)
    ensures Turns.Waits(SceneOf(p, r, j), job)
  {
  }
}
