/** Stretches of a run in which nothing happens on the machine but what the
    dispatcher does: then a plan is a function of the moment it is made in. */
module Still {
  import opened Lists
  import opened Preempt
  import opened Rule
  import opened Pass
  import opened Machine
  import opened Ledger
  import opened Quiet
  import opened Bookkeeping
  import opened Passes

  // Scripts that have come to their end.

  predicate Eventless(log: Log, i: nat, k: nat)
    requires k <= |log.acts|
  {
    forall t :: i <= t < k ==> !log.acts[t].Env?
  }

  lemma {:induction false} EventsBefore(acts: seq<Act>, i: nat)
    requires i <= |acts|
    ensures |EventsOf(acts[..i])| <= |EventsOf(acts)|
  {
    if i < |acts| {
      var most := acts[..|acts| - 1];
      EventsBefore(most, i);
      assert most[..i] == acts[..i];
    } else {
      assert acts[..i] == acts;
    }
  }

  lemma {:induction false} NoNewEvents(acts: seq<Act>, i: nat)
    requires i <= |acts| && |EventsOf(acts)| == |EventsOf(acts[..i])|
    ensures forall t :: i <= t < |acts| ==> !acts[t].Env?
  {
    if i < |acts| {
      var most := acts[..|acts| - 1];
      assert most[..i] == acts[..i];
      EventsBefore(most, i);
      NoNewEvents(most, i);
      assert forall t :: i <= t < |most| ==> acts[t] == most[t];
    }
  }

  /** Nothing happens from this turn on. */
  ghost predicate EndsBy(script: nat -> seq<Event>, n: nat) {
    forall m: nat :: n <= m ==> script(m) == []
  }

  lemma {:induction false} HappenedAll(script: nat -> seq<Event>, n: nat, m: nat)
    requires EndsBy(script, n) && n <= m
    ensures Happened(script, m) == Happened(script, n)
    decreases m
  {
    if n < m {
      HappenedAll(script, n, m - 1);
      assert script(m - 1) == [];
    }
  }

  lemma {:induction false} PassedAll(w: World, script: nat -> seq<Event>, from: nat, n: nat, m: nat)
    requires EndsBy(script, n) && n <= m
    ensures Passing(w, script, from, m) == Passing(w, script, from, n)
    decreases m
  {
    if n < m {
      PassedAll(w, script, from, n, m - 1);
      assert script(m - 1) == [];
    }
  }

  /** A log that has grown while the script had nothing left. */
  lemma {:induction false} NothingHappens(past: Log, log: Log, script: nat -> seq<Event>, n: nat, m: nat)
    requires Extends(past, log) && EndsBy(script, n) && n <= m
    requires EventsOf(past.acts) == Happened(script, n) && EventsOf(log.acts) == Happened(script, m)
    ensures Eventless(log, |past.acts|, |log.acts|)
  {
    HappenedAll(script, n, m);
    assert log.acts[..|past.acts|] == past.acts;
    NoNewEvents(log.acts, |past.acts|);
  }

  // What stays.

  lemma {:induction false} StepAdds(s: Snapshot, a: Act, job: JobId, card: Uuid)
    requires OfLaunching(a) && !a.Env?
    ensures Claims(Apply(s, a).world, job, card) ==> Claims(s.world, job, card)
  {
  }

  lemma {:induction false} NoNewClaims(alone: bool, log: Log, i: nat, k: nat, job: JobId, card: Uuid)
    requires Lawful(alone, log) && i <= k < |log.states| && k <= |log.acts| && Eventless(log, i, k)
    requires forall t :: i <= t < k ==> OfLaunching(log.acts[t])
    ensures Claims(log.states[k].world, job, card) ==> Claims(log.states[i].world, job, card)
    decreases k
  {
    if i < k {
      NoNewClaims(alone, log, i, k - 1, job, card);
      LawfulStep(alone, log, k - 1);
      StepAdds(log.states[k - 1], log.acts[k - 1], job, card);
      hide Lawful, Claims, Apply, OfLaunching;
    }
  }

  predicate LivesOn(v: World, w: World) {
    v.next <= w.next && forall p :: p in v.live && p < v.next ==> p in w.live && w.live[p] == v.live[p]
  }

  lemma {:induction false} StepLivesOn(s: Snapshot, a: Act)
    requires !a.Env?
    ensures LivesOn(s.world, Apply(s, a).world)
  {
    hide SomebodyAhead;
  }

  lemma {:induction false} RunnersLiveOn(alone: bool, log: Log, i: nat, k: nat)
    requires Lawful(alone, log) && i <= k < |log.states| && k <= |log.acts| && Eventless(log, i, k)
    ensures LivesOn(log.states[i].world, log.states[k].world)
    decreases k
  {
    if i < k {
      RunnersLiveOn(alone, log, i, k - 1);
      LawfulStep(alone, log, k - 1);
      StepLivesOn(log.states[k - 1], log.acts[k - 1]);
      hide Lawful, Apply;
    }
  }

  /** An entry made since, with its runner alive. */
  predicate MadeSince(s: Snapshot, job: JobId, next: Pid)
    requires job in s.running
  {
    var e := s.running[job];
    next <= e.pid < s.world.next && e.pid in s.world.live && s.world.live[e.pid] == Runner(job, e.gpus, e.attempt, Spawned)
  }

  lemma {:induction false} NewEntries(alone: bool, log: Log, i: nat, k: nat, job: JobId)
    requires Lawful(alone, log) && i <= k < |log.states| && k <= |log.acts| && Eventless(log, i, k)
    requires forall t :: i <= t < k ==> OfLaunching(log.acts[t])
    ensures job in log.states[k].running && job !in log.states[i].running ==> MadeSince(log.states[k], job, log.states[i].world.next)
    decreases k
  {
    if i < k {
      NewEntries(alone, log, i, k - 1, job);
      RunnersLiveOn(alone, log, i, k - 1);
      LawfulStep(alone, log, k - 1);
      assert OfLaunching(log.acts[k - 1]) && !log.acts[k - 1].Env?;
      hide Lawful;
      StepMakes(log.states[k - 1], log.acts[k - 1], job, log.states[i].world.next);
    }
  }

  lemma {:induction false} StepMakes(s: Snapshot, a: Act, job: JobId, next: Pid)
    requires OfLaunching(a) && !a.Env? && next <= s.world.next
    ensures job in Apply(s, a).running ==>
      || (job in s.running && Apply(s, a).running[job] == s.running[job] && (MadeSince(s, job, next) ==> MadeSince(Apply(s, a), job, next)))
      || MadeSince(Apply(s, a), job, next)
  {
  }

  // A plan made at one moment.

  /** Every spec can be read. */
  predicate Specified(w: World) {
    forall j :: j in w.jobs ==> w.jobs[j].spec.Some?
  }

  lemma {:induction false} MadeAtOnce(plan: Plan, p: Readings, memo: Option<Reading>, before: Log)
    requires PlanIs(plan, p, memo, |before.acts|, before) && Eventless(plan.at, |before.acts|, |plan.at.acts|) && Specified(Now(before).world)
    ensures plan.at == before && plan.left == before
  {
    hide RequestsAre, LeaversAre, CandidatesAre, ScanIs, StateFor;
    var n := |before.acts|;
    assert plan.at.states[n] == Now(before);
    assert plan.at.acts == before.acts && plan.at.states == before.states;
    assert plan.left.acts == before.acts && plan.left.states == before.states;
  }

  /** The request of a job queued just now. */
  predicate AsksNow(w: World, r: Request) {
    && Reads(w, r.jobId, Queued) && w.jobs[r.jobId].spec.Some?
    && var spec := w.jobs[r.jobId].spec.value;
       r == Request(r.jobId, spec.gpus, spec.mayBorrow, None, w.jobs[r.jobId].priority, spec.autoPreempt)
  }

  lemma {:induction false} RequestsNow(rs: seq<Request>, attempts: map<JobId, nat>, running: map<JobId, Entry>, log: Log)
    requires RequestsAre(rs, attempts, running, log, |log.acts|)
    ensures Waiting(rs, running) && forall r :: r in rs ==> AsksNow(Now(log).world, r)
    ensures forall j :: Reads(Now(log).world, j, Queued) && j !in running ==> HasRequest(rs, j)
  {
    hide Waiting;
    var n := |log.acts|;
    forall r | r in rs
      ensures AsksNow(Now(log).world, r)
    {
      var e :| SeenQueued(log.states, n, n, e) && Makes(e, r, Now(log).world);
      var t: nat :| n <= t <= n && IsQueued(log.states[t].world, e);
    }
    forall j | Reads(Now(log).world, j, Queued) && j !in running
      ensures HasRequest(rs, j)
    {
      assert StandsQueued(log.states, n, n, j);
    }
  }

  lemma {:induction false} LeaversNow(coming: seq<Uuid>, leavers: seq<JobId>, running: map<JobId, Entry>, visible: set<Uuid>, log: Log)
    requires LeaversAre(coming, leavers, running, visible, log, |log.acts|) && Kept(log)
    ensures NoDup(leavers) && AllIn(leavers, running) && coming == CardsIn(leavers, running, visible)
    ensures forall j :: j in leavers <==> j in running && IsLeaving(Read(Now(log).world, j), running[j])
  {
    hide IsLeaving, NoDup;
    var n := |log.acts|;
    forall j
      ensures j in leavers <==> j in running && IsLeaving(Read(Now(log).world, j), running[j])
    {
      if j in leavers {
        var t: nat :| n <= t < |log.states| && IsLeaving(Read(log.states[t].world, j), running[j]);
        assert t == n;
      }
      if j in running && IsLeaving(Read(Now(log).world, j), running[j]) {
        assert StandsLeaving(log, n, running, j);
      }
    }
  }

  lemma {:induction false} ClaimsNow(log: Log, claims: set<Uuid>)
    requires Kept(log) && ScanIs(log.states, |log.acts|, |log.acts|, claims, {})
    ensures forall c :: c in claims <==> exists j :: Claims(Now(log).world, j, c)
  {
    var n := |log.acts|;
    forall c
      ensures c in claims <==> exists j :: Claims(Now(log).world, j, c)
    {
      if c in claims {
        var t: nat, j :| n <= t <= n && Claims(log.states[t].world, j, c);
        assert Claims(Now(log).world, j, c);
      }
      if j :| Claims(Now(log).world, j, c) {
        assert Standing(log.states, n, n, j, c);
      }
    }
  }

  lemma {:induction false} CandidatesNow(found: seq<Preemptable>, running: map<JobId, Entry>, p: Readings, log: Log)
    requires CandidatesAre(found, running, p, log, |log.acts|) && Kept(log)
    ensures forall x :: x in found ==> x.jobId in running && Stoppable(Now(log).world, x.jobId)
  {
    hide Stoppable;
    forall x | x in found
      ensures x.jobId in running && Stoppable(Now(log).world, x.jobId)
    {
      var t: nat :| |log.acts| <= t < |log.states| && AsFound(log.states[t].world, x);
    }
  }

  /** A plan made at one moment, by that moment alone. */
  ghost predicate PlannedAt(s: Snapshot, p: Readings, memo: Option<Reading>, plan: Plan) {
    && Waiting(plan.rs, s.running) && (forall r :: r in plan.rs ==> AsksNow(s.world, r))
    && (forall j :: Reads(s.world, j, Queued) && j !in s.running ==> HasRequest(plan.rs, j))
    && plan.h.ownedPresent == |p.owned| && plan.h.sharedVisible == |p.shared| && plan.h.shared == Elems(p.shared)
    && NoDup(plan.leavers) && AllIn(plan.leavers, s.running)
    && plan.h.coming == CardsIn(plan.leavers, s.running, Elems(p.owned) + Elems(p.shared))
    && (forall j :: j in plan.leavers <==> j in s.running && IsLeaving(Read(s.world, j), s.running[j]))
    && (forall x :: x in plan.h.preemptable ==> x.jobId in s.running && Stoppable(s.world, x.jobId))
    && (forall c :: c in plan.claims <==> exists j :: Claims(s.world, j, c))
    && plan.s == StateFor(p, memo, CardsOf(s.running) + plan.claims)
  }

  lemma {:induction false} StillPlan(plan: Plan, p: Readings, memo: Option<Reading>, before: Log)
    requires PlanIs(plan, p, memo, |before.acts|, before) && Eventless(plan.at, |before.acts|, |plan.at.acts|) && Specified(Now(before).world)
    ensures PlannedAt(Now(before), p, memo, plan)
  {
    hide RequestsAre, LeaversAre, CandidatesAre, ScanIs, StateFor, Claims, IsLeaving, Stoppable, AsksNow, NoDup, Waiting, HasRequest;
    MadeAtOnce(plan, p, memo, before);
    RequestsNow(plan.rs, plan.attempts, Now(before).running, before);
    LeaversNow(plan.h.coming, plan.leavers, Now(before).running, Elems(p.owned) + Elems(p.shared), before);
    CandidatesNow(plan.h.preemptable, Now(before).running, p, before);
    ClaimsNow(before, plan.claims);
  }
}
