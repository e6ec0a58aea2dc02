/** The compare-and-sets every change of a job's state goes through
    (gpuc/host/queue.py): what each writes, what it leaves alone, and what no
    run of them can undo. */
module Protocol {
  import opened Lists
  import opened Preempt
  import opened Machine
  import opened Ledger
  import opened Quiet
  import opened Bookkeeping

  /** Nothing but this job's state, and the phase of this runner, is different. */
  predicate OnlyIts(v: World, w: World, job: JobId, pid: Pid) {
    && w.jobs.Keys == v.jobs.Keys && (forall j :: j in v.jobs && j != job ==> w.jobs[j] == v.jobs[j])
    && w.live.Keys == v.live.Keys && (forall p :: p in v.live && p != pid ==> w.live[p] == v.live[p])
    && w.next == v.next && w.garbled == v.garbled
  }

  /** The same job as before, in its place in the dispatch order. */
  predicate SameJob(s: Job, t: Job) {
    t.priority == s.priority && t.spec == s.spec
  }

  /** A runner that claims its job. */
  predicate MayClaim(w: World, pid: Pid) {
    && pid in w.live && w.live[pid].phase == Spawned
    && var r := w.live[pid];
       r.job in w.jobs && r.job !in w.garbled && w.jobs[r.job].status == Queued && w.jobs[r.job].attempt == r.attempt
  }

  /** A claim is for the attempt the runner was started for, while it is queued,
      and writes down the cards and the runner they are under; a runner that
      comes late writes nothing. */
  lemma {:induction false} ClaimIs(w: World, pid: Pid, at: real)
    ensures var v := Happens(w, Claim(pid, at));
            if !MayClaim(w, pid) then v == w
            else
              var r := w.live[pid];
              var s, t := w.jobs[r.job], v.jobs[r.job];
              && OnlyIts(w, v, r.job, pid) && v.live[pid] == r.(phase := Claimed) && SameJob(s, t)
              && t.status == Running && t.attempt == s.attempt && t.gpus == r.gpus && t.pid == pid && t.started == at
              && t.intent == s.intent
  {
  }

  predicate MayReturn(w: World, pid: Pid) {
    && pid in w.live && w.live[pid].phase == Claimed
    && var job := w.live[pid].job;
       job in w.jobs && job !in w.garbled && w.jobs[job].status == Running && w.jobs[job].intent == ToPreempt
  }

  /** A preempted job is back in the queue at the next attempt, on no cards, at
      its own priority; a cancel that came in between keeps it from coming back. */
  lemma {:induction false} RequeueIs(w: World, pid: Pid)
    ensures var v := Happens(w, Requeue(pid));
            if !MayReturn(w, pid) then v == w
            else
              var job := w.live[pid].job;
              var s, t := w.jobs[job], v.jobs[job];
              && OnlyIts(w, v, job, pid) && v.live[pid] == w.live[pid].(phase := Ended) && SameJob(s, t)
              && t.status == Queued && t.attempt == s.attempt + 1 && t.gpus == [] && t.intent == NoIntent
  {
  }

  predicate IsAhead(w: World, j: JobId, job: JobId, priority: int) {
    && j in w.jobs && j !in w.garbled && j != job && w.jobs[j].status == Queued
    && (w.jobs[j].spec.Some? ==> w.jobs[j].spec.value.gpus > 0)
    && (w.jobs[j].priority < priority || (w.jobs[j].priority == priority && j < job))
  }

  predicate IsStoppedAt(w: World, job: JobId, priority: int) {
    Reads(w, job, Running) && w.jobs[job].intent == ToPreempt && w.jobs[job].priority == priority
  }

  predicate MayBeAsked(w: World, job: JobId) {
    && Reads(w, job, Running) && w.jobs[job].intent != ToCancel
    && (w.jobs[job].spec.Some? ==> w.jobs[job].spec.value.gpus > 0)
  }

  ghost predicate AheadOfIt(w: World, job: JobId, priority: int) {
    exists j :: IsAhead(w, j, job, priority)
  }

  lemma {:induction false} SomebodyIsAhead(w: World, job: JobId, priority: int)
    ensures SomebodyAhead(w, job, priority) <==> AheadOfIt(w, job, priority)
  {
    if SomebodyAhead(w, job, priority) {
      var j :| j in w.jobs && Reads(w, j, Queued) && j != job && WantsCards(w.jobs[j])
        && Before(Key(w.jobs[j].priority, j), Key(priority, job));
      assert IsAhead(w, j, job, priority);
    }
    if AheadOfIt(w, job, priority) {
      var j :| IsAhead(w, j, job, priority);
      assert j in w.jobs && Reads(w, j, Queued) && j != job && WantsCards(w.jobs[j])
        && Before(Key(w.jobs[j].priority, j), Key(priority, job));
    }
  }

  /** A job is stopped exactly if its cards go to somebody else: a job wanting
      cards is queued ahead of where it comes back. A refusal changes nothing. */
  lemma {:induction false} StopIs(w: World, job: JobId, to: Option<int>)
    ensures var v := Happens(w, Stop(job, to));
            if MayBeAsked(w, job) && AheadOfIt(w, job, if to.Some? then to.value else w.jobs[job].priority) then
              && IsStoppedAt(v, job, if to.Some? then to.value else w.jobs[job].priority)
              && v == w.(jobs := v.jobs) && v.jobs == w.jobs[job := v.jobs[job]]
              && v.jobs[job].(priority := w.jobs[job].priority, intent := w.jobs[job].intent) == w.jobs[job]
            else v == w
  {
    if job in w.jobs {
      SomebodyIsAhead(w, job, if to.Some? then to.value else w.jobs[job].priority);
    }
    hide SomebodyAhead, AheadOfIt;
  }

  /** So a stop that its runner answers at once never starts the stopped job
      over: somebody wanting cards is ahead of it in the queue it comes back to. */
  lemma {:induction false} StoppedIsBehind(w: World, job: JobId, to: Option<int>)
    requires Names(w) && Happens(w, Stop(job, to)) != w && w.jobs[job].pid in w.live
    ensures var v := Happens(Happens(w, Stop(job, to)), Requeue(w.jobs[job].pid));
            Reads(v, job, Queued) && AheadOfIt(v, job, v.jobs[job].priority)
  {
    StopIs(w, job, to);
    hide AheadOfIt;
    var pid, u := w.jobs[job].pid, Happens(w, Stop(job, to));
    assert Named(w, job);
    hide Happens, Names;
    RequeueIs(u, pid);
    var v := Happens(u, Requeue(pid));
    assert MayReturn(u, pid);
    var priority := v.jobs[job].priority;
    assert AheadOfIt(w, job, priority);
    StillAhead(w, v, job, priority);
  }

  lemma {:induction false} StillAhead(w: World, v: World, job: JobId, priority: int)
    requires AheadOfIt(w, job, priority) && v.garbled == w.garbled && w.jobs.Keys <= v.jobs.Keys
    requires forall j :: j in w.jobs && j != job ==> v.jobs[j] == w.jobs[j]
    ensures AheadOfIt(v, job, priority)
  {
    var j :| IsAhead(w, j, job, priority);
    assert IsAhead(v, j, job, priority);
  }

  // What no run of them undoes.

  /** A cancel: a queued job is over at once, a running one is to be. */
  lemma {:induction false} CancelIs(w: World, job: JobId)
    ensures var v := Happens(w, Cancel(job));
            && (job in w.garbled || job !in w.jobs || w.jobs[job].status == Finished ==> v == w)
            && (v != w ==> OnlyIts(w, v, job, w.next) && SameJob(w.jobs[job], v.jobs[job]))
            && (job in w.jobs && job !in w.garbled && w.jobs[job].status != Finished ==> Cancelled(v, job, v.jobs[job].attempt))
            && (job in w.jobs && job !in w.garbled && w.jobs[job].status == Queued ==> v.jobs[job].status == Finished)
  {
  }

  /** Over, or stopping for good at this attempt. */
  predicate Cancelled(w: World, job: JobId, attempt: nat) {
    && job in w.jobs && w.jobs[job].attempt == attempt
    && (w.jobs[job].status == Finished || (w.jobs[job].status == Running && w.jobs[job].intent == ToCancel))
  }

  lemma {:induction false} CancelledStays(w: World, e: Event, job: JobId, attempt: nat)
    requires Cancelled(w, job, attempt)
    ensures Cancelled(Happens(w, e), job, attempt)
  {
    hide SomebodyAhead;
  }

  /** A cancelled job is never queued again, whatever happens. */
  lemma {:induction false} CancelIsFinal(w: World, events: seq<Event>, job: JobId, attempt: nat)
    requires Cancelled(w, job, attempt)
    ensures Cancelled(Passed(w, events), job, attempt)
    decreases |events|
  {
    hide Cancelled, Happens;
    if events != [] {
      CancelIsFinal(w, events[..|events| - 1], job, attempt);
      CancelledStays(Passed(w, events[..|events| - 1]), events[|events| - 1], job, attempt);
    }
  }

  /** This attempt has been claimed by this runner, on these cards. */
  predicate IsTaken(w: World, job: JobId, attempt: nat, pid: Pid, gpus: seq<Uuid>) {
    && job in w.jobs && w.jobs[job].attempt >= attempt
    && (w.jobs[job].attempt == attempt ==>
         w.jobs[job].status != Queued && (w.jobs[job].status == Running ==> w.jobs[job].pid == pid && w.jobs[job].gpus == gpus))
  }

  lemma {:induction false} TakenStays(w: World, e: Event, job: JobId, attempt: nat, pid: Pid, gpus: seq<Uuid>)
    requires IsTaken(w, job, attempt, pid, gpus)
    ensures IsTaken(Happens(w, e), job, attempt, pid, gpus)
    ensures e.Claim? && e.pid in w.live && w.live[e.pid].job == job && w.live[e.pid].attempt <= attempt ==> Happens(w, e) == w
  {
    hide SomebodyAhead;
  }

  /** An attempt is claimed once: after any run of events, other dispatchers'
      runners among them, it is still under the runner that claimed it or over,
      and no other runner of it, or of an earlier one, can claim the job. */
  lemma {:induction false} ClaimedOnce(w: World, events: seq<Event>, job: JobId, pid: Pid)
    requires job in w.jobs && w.jobs[job].status == Running && w.jobs[job].pid == pid
    ensures var v := Passed(w, events);
            && IsTaken(v, job, w.jobs[job].attempt, pid, w.jobs[job].gpus)
            && forall late, at :: late in v.live && v.live[late].job == job && v.live[late].attempt <= w.jobs[job].attempt ==>
                 Happens(v, Claim(late, at)) == v
    decreases |events|
  {
    hide Happens;
    TakenAfter(w, events, job, w.jobs[job].attempt, pid, w.jobs[job].gpus);
    hide IsTaken;
    var v := Passed(w, events);
    forall late, at | late in v.live && v.live[late].job == job && v.live[late].attempt <= w.jobs[job].attempt
      ensures Happens(v, Claim(late, at)) == v
    {
      TakenStays(v, Claim(late, at), job, w.jobs[job].attempt, pid, w.jobs[job].gpus);
    }
  }

  lemma {:induction false} TakenAfter(w: World, events: seq<Event>, job: JobId, attempt: nat, pid: Pid, gpus: seq<Uuid>)
    requires IsTaken(w, job, attempt, pid, gpus)
    ensures IsTaken(Passed(w, events), job, attempt, pid, gpus)
    decreases |events|
  {
    hide IsTaken, Happens;
    if events != [] {
      TakenAfter(w, events[..|events| - 1], job, attempt, pid, gpus);
      TakenStays(Passed(w, events[..|events| - 1]), events[|events| - 1], job, attempt, pid, gpus);
    }
  }

  // What the dispatcher makes of a state.

  /** What a job's state says of its runner. */
  predicate Leaver(w: World, job: JobId, e: Entry) {
    IsLeaving(Read(w, job), e)
  }

  /** A runner's cards are on their way back from the moment it is asked to stop,
      to stop for good, or writes its last state; they are not while it has yet
      to claim the job, nor from the claim on while nobody asked. */
  lemma {:induction false} HowItLeaves(w: World, job: JobId, e: Entry)
    requires Names(w) && e.pid in w.live && w.live[e.pid].job == job && w.live[e.pid].attempt == e.attempt && job in w.jobs
    requires job !in w.garbled
    ensures Reads(w, job, Queued) && w.jobs[job].attempt == e.attempt ==>
              !Leaver(w, job, e)
              && forall at :: w.jobs[job].intent == NoIntent ==> !Leaver(Happens(w, Claim(e.pid, at)), job, e)
    ensures Reads(w, job, Running) && w.jobs[job].pid == e.pid ==>
              && Leaver(Happens(w, Finish(e.pid)), job, e) && Leaver(Happens(w, Cancel(job)), job, e)
              && (Happens(w, Requeue(e.pid)) != w ==> Leaver(w, job, e) && Leaver(Happens(w, Requeue(e.pid)), job, e))
              && forall to :: Happens(w, Stop(job, to)) != w ==> Leaver(Happens(w, Stop(job, to)), job, e)
    ensures Reads(w, job, Finished) ==> Leaver(w, job, e)
    ensures Reads(w, job, Running) && w.jobs[job].intent == NoIntent ==> !Leaver(w, job, e)
  {
    hide SomebodyAhead;
  }

  /** A job may be chosen to stop exactly while it runs, has asked for it, and is
      not on its way out already. */
  lemma {:induction false} StoppableIs(w: World, job: JobId, e: Entry)
    ensures Stoppable(w, job)
         <==> (Reads(w, job, Running) && !Leaver(w, job, e) && w.jobs[job].spec.Some? && w.jobs[job].spec.value.autoPreempt)
  {
  }
}
