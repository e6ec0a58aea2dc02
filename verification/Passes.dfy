/** What a pass of the dispatcher knows, in terms of the moments of its log. */
module Passes {
  import opened Lists
  import opened Preempt
  import opened Rule
  import opened RuleTheorems
  import opened Pass
  import opened Machine
  import opened Ledger
  import opened Quiet
  import opened Bookkeeping

  /** A log with the moment it has come to. */
  predicate Kept(log: Log) {
    |log.states| == |log.acts| + 1
  }

  // What is remembered for the length of a pass.

  /** The claims and the queue read since the pass began, as they are known. */
  ghost predicate Knows(log: Log, began: nat, claimed: Option<set<Uuid>>, queued: Option<seq<QueueEntry>>) {
    && began <= |log.acts| < |log.states|
    && (claimed.Some? ==> ScanIs(log.states, began, |log.acts|, claimed.value, {}))
    && (queued.Some? ==> QueueIs(log.states, began, |log.acts|, queued.value, {}))
  }

  lemma {:induction false} ScanLater(past: Log, log: Log, began: nat, from: nat, cards: set<Uuid>)
    requires Kept(past) && Kept(log) && Extends(past, log) && began <= from && ScanIs(past.states, from, |past.acts|, cards, {})
    ensures ScanIs(log.states, began, |log.acts|, cards, {})
  {
    var m, n := |past.acts|, |log.acts|;
    forall j, c | Standing(log.states, began, n, j, c)
      ensures c in cards
    {
      StandingBefore(past.states, log.states, began, from, m, n, j, c);
    }
    forall c | c in cards
      ensures SeenClaimed(log.states, began, n, c)
    {
      SeenLater(past.states, log.states, from, m, n, c);
      var t: nat, j :| from <= t <= n && Claims(log.states[t].world, j, c);
    }
  }

  lemma {:induction false} SeenQueuedLater(past: Log, log: Log, began: nat, from: nat, e: QueueEntry)
    requires Kept(past) && Kept(log) && Extends(past, log) && began <= from && SeenQueued(past.states, from, |past.acts|, e)
    ensures SeenQueued(log.states, began, |log.acts|, e)
  {
    var t: nat :| from <= t <= |past.acts| && IsQueued(past.states[t].world, e);
    assert log.states[t] == past.states[t];
  }

  lemma {:induction false} StoodQueued(past: Log, log: Log, began: nat, from: nat, job: JobId)
    requires Kept(past) && Kept(log) && Extends(past, log) && began <= from && StandsQueued(log.states, began, |log.acts|, job)
    ensures StandsQueued(past.states, from, |past.acts|, job)
  {
    forall t | from <= t <= |past.acts|
      ensures Reads(past.states[t].world, job, Queued)
    {
      assert log.states[t] == past.states[t];
    }
  }

  lemma {:induction false} QueueLater(past: Log, log: Log, began: nat, from: nat, q: seq<QueueEntry>)
    requires Kept(past) && Kept(log) && Extends(past, log) && began <= from && QueueIs(past.states, from, |past.acts|, q, {})
    ensures QueueIs(log.states, began, |log.acts|, q, {})
  {
    forall e | e in q
      ensures SeenQueued(log.states, began, |log.acts|, e)
    {
      SeenQueuedLater(past, log, began, from, e);
    }
    forall j | StandsQueued(log.states, began, |log.acts|, j)
      ensures Has(q, j)
    {
      StoodQueued(past, log, began, from, j);
    }
  }

  lemma {:induction false} KnowsLater(past: Log, log: Log, began: nat, claimed: Option<set<Uuid>>, queued: Option<seq<QueueEntry>>)
    requires Kept(past) && Kept(log) && Extends(past, log) && Knows(past, began, claimed, queued)
    ensures Knows(log, began, claimed, queued)
  {
    hide ScanIs, QueueIs;
    if claimed.Some? {
      ScanLater(past, log, began, began, claimed.value);
    }
    if queued.Some? {
      QueueLater(past, log, began, began, queued.value);
    }
  }

  /** A job that is not queued any more is forgotten. */
  lemma {:induction false} QueueForgets(log: Log, began: nat, q: seq<QueueEntry>, job: JobId)
    requires Kept(log) && QueueIs(log.states, began, |log.acts|, q, {}) && !Reads(Now(log).world, job, Queued)
    ensures QueueIs(log.states, began, |log.acts|, Leaving(q, job), {})
  {
    LeavingInOrder(q, job);
    forall j | StandsQueued(log.states, began, |log.acts|, j)
      ensures Has(Leaving(q, job), j)
    {
      assert Reads(log.states[|log.acts|].world, j, Queued);
      assert Has(q, j);
      var e :| e in q && e.jobId == j;
      assert e in Leaving(q, job);
    }
  }

  // The requests of a pass.

  function SpecOf(w: World, job: JobId): Option<Spec> {
    if job in w.jobs then w.jobs[job].spec else None
  }

  function RequestOf(e: QueueEntry, spec: Spec): Request {
    Request(e.jobId, spec.gpus, spec.mayBorrow, None, e.priority, spec.autoPreempt)
  }

  /** The request a queued job makes, by its spec. */
  predicate Makes(e: QueueEntry, r: Request, w: World) {
    && e.jobId in w.jobs && w.jobs[e.jobId].spec.Some?
    && var spec := w.jobs[e.jobId].spec.value;
       && r.jobId == e.jobId && r.priority == e.priority && r.estimate.None?
       && r.gpus == spec.gpus && r.borrows == spec.mayBorrow && r.fills == spec.autoPreempt
  }

  predicate HasRequest(rs: seq<Request>, job: JobId) {
    exists r :: r in rs && r.jobId == job
  }

  /** A job found queued since the pass began, asking for what its spec says. */
  ghost predicate FoundAsking(log: Log, began: nat, r: Request, attempt: nat)
    requires Kept(log)
  {
    exists e :: SeenQueued(log.states, began, |log.acts|, e) && Makes(e, r, Now(log).world) && attempt == e.attempt
  }

  /** The queue as the rule is given it: in order, each job once, none counted as
      running, each found queued; and every job queued all the while and not
      counted: one whose spec cannot be read has been failed. */
  ghost predicate RequestsAre(rs: seq<Request>, attempts: map<JobId, nat>, running: map<JobId, Entry>, log: Log, began: nat) {
    && Kept(log) && Waiting(rs, running)
    && (forall r :: r in rs ==> r.jobId in attempts && FoundAsking(log, began, r, attempts[r.jobId]))
    && (forall j :: StandsQueued(log.states, began, |log.acts|, j) && j !in running ==> HasRequest(rs, j))
  }

  /** How far the requests have come with `q`: those of its first `i` jobs. */
  ghost predicate RequestsOf(rs: seq<Request>, attempts: map<JobId, nat>, running: map<JobId, Entry>, w: World, q: seq<QueueEntry>, i: nat) {
    && i <= |q| && Waiting(rs, running) && Ahead(rs, q[i..])
    && (forall r :: r in rs ==> exists e :: e in q && Makes(e, r, w) && r.jobId in attempts && attempts[r.jobId] == e.attempt)
    && (forall k :: 0 <= k < i && q[k].jobId !in running && SpecOf(w, q[k].jobId).Some? ==> HasRequest(rs, q[k].jobId))
    && (forall e :: e in q ==> e.jobId in w.jobs)
  }

  /** It did not read as queued at some moment since. */
  ghost predicate SeenUnqueued(log: Log, from: nat, job: JobId) {
    exists t: nat :: from <= t < |log.states| && !Reads(log.states[t].world, job, Queued)
  }

  lemma {:induction false} SeenUnqueuedLater(past: Log, log: Log, from: nat, job: JobId)
    requires SeenUnqueued(past, from, job) && Extends(past, log)
    ensures SeenUnqueued(log, from, job)
  {
    var t: nat :| from <= t < |past.states| && !Reads(past.states[t].world, job, Queued);
    assert log.states[t] == past.states[t];
  }

  /** Of the first `i` jobs, those whose spec cannot be read have been failed. */
  ghost predicate SpeclessFailed(q: seq<QueueEntry>, i: nat, running: map<JobId, Entry>, log: Log, began: nat)
    requires Kept(log)
  {
    i <= |q| && forall k :: 0 <= k < i && q[k].jobId !in running && SpecOf(Now(log).world, q[k].jobId).None? ==> SeenUnqueued(log, began, q[k].jobId)
  }

  lemma {:induction false} SpeclessNext(q: seq<QueueEntry>, i: nat, running: map<JobId, Entry>, past: Log, log: Log, began: nat)
    requires Kept(past) && Kept(log) && Extends(past, log) && SpeclessFailed(q, i, running, past, began) && i < |q| && began <= |log.acts|
    requires Grows(Now(past).world, Now(log).world) && forall e :: e in q ==> e.jobId in Now(past).world.jobs
    requires q[i].jobId !in running && SpecOf(Now(log).world, q[i].jobId).None? ==> !Reads(Now(log).world, q[i].jobId, Queued)
    ensures SpeclessFailed(q, i + 1, running, log, began)
  {
    hide Reads;
    forall k | 0 <= k < i + 1 && q[k].jobId !in running && SpecOf(Now(log).world, q[k].jobId).None?
      ensures SeenUnqueued(log, began, q[k].jobId)
    {
      assert q[k] in q;
      if k < i {
        SeenUnqueuedLater(past, log, began, q[k].jobId);
      } else {
        assert !Reads(log.states[|log.acts|].world, q[k].jobId, Queued);
      }
    }
  }

  lemma {:induction false} NobodyFailed(q: seq<QueueEntry>, running: map<JobId, Entry>, log: Log, began: nat)
    requires Kept(log)
    ensures SpeclessFailed(q, 0, running, log, began)
  {
  }

  lemma {:induction false} RequestsGrow(rs: seq<Request>, attempts: map<JobId, nat>, running: map<JobId, Entry>, v: World, w: World, q: seq<QueueEntry>, i: nat)
    requires RequestsOf(rs, attempts, running, v, q, i) && Grows(v, w)
    ensures RequestsOf(rs, attempts, running, w, q, i)
  {
    forall e | e in q
      ensures SpecOf(w, e.jobId) == SpecOf(v, e.jobId) && e.jobId in w.jobs
    {
    }
    assert forall k :: 0 <= k < i ==> q[k] in q;
    hide Waiting, Ahead, HasRequest;
    forall r | r in rs
      ensures exists e :: e in q && Makes(e, r, w) && r.jobId in attempts && attempts[r.jobId] == e.attempt
    {
      var e :| e in q && Makes(e, r, v) && r.jobId in attempts && attempts[r.jobId] == e.attempt;
      assert Makes(e, r, w);
    }
  }

  lemma {:induction false} RequestsNext(rs: seq<Request>, attempts: map<JobId, nat>, running: map<JobId, Entry>, w: World, q: seq<QueueEntry>, i: nat, request: Option<Request>)
    requires RequestsOf(rs, attempts, running, w, q, i) && i < |q| && InOrder(q)
    requires request.Some? <==> q[i].jobId !in running && SpecOf(w, q[i].jobId).Some?
    requires request.Some? ==> Makes(q[i], request.value, w)
    ensures var more := if request.Some? then rs + [request.value] else rs;
            var tries := if request.Some? then attempts[q[i].jobId := q[i].attempt] else attempts;
            RequestsOf(more, tries, running, w, q, i + 1)
  {
    var more := if request.Some? then rs + [request.value] else rs;
    var tries := if request.Some? then attempts[q[i].jobId := q[i].attempt] else attempts;
    NextAhead(rs, q, i, request, running);
    assert q[i] in q && q[i] in q[i..] by { assert q[i..][0] == q[i]; }
    assert forall r :: r in rs ==> r.jobId != q[i].jobId;
    hide Waiting, Ahead, InOrder, Makes;
    forall r | r in more
      ensures exists e :: e in q && Makes(e, r, w) && r.jobId in tries && tries[r.jobId] == e.attempt
    {
      MadeBy(rs, attempts, w, q, i, request, r);
    }
    forall k | 0 <= k < i + 1 && q[k].jobId !in running && SpecOf(w, q[k].jobId).Some?
      ensures HasRequest(more, q[k].jobId)
    {
      StillHas(rs, more, w, q, i, k, request);
    }
  }

  lemma {:induction false} MadeBy(rs: seq<Request>, attempts: map<JobId, nat>, w: World, q: seq<QueueEntry>, i: nat, request: Option<Request>, r: Request)
    requires i < |q| && (request.Some? ==> Makes(q[i], request.value, w)) && (r in rs || request == Some(r))
    requires forall x :: x in rs ==> x.jobId != q[i].jobId && exists e :: e in q && Makes(e, x, w) && x.jobId in attempts && attempts[x.jobId] == e.attempt
    ensures var tries := if request.Some? then attempts[q[i].jobId := q[i].attempt] else attempts;
            exists e :: e in q && Makes(e, r, w) && r.jobId in tries && tries[r.jobId] == e.attempt
  {
    if r in rs {
      var e :| e in q && Makes(e, r, w) && r.jobId in attempts && attempts[r.jobId] == e.attempt;
    } else {
      assert q[i] in q;
    }
  }

  lemma {:induction false} StillHas(rs: seq<Request>, more: seq<Request>, w: World, q: seq<QueueEntry>, i: nat, k: nat, request: Option<Request>)
    requires k <= i < |q| && more == if request.Some? then rs + [request.value] else rs
    requires k < i ==> HasRequest(rs, q[k].jobId)
    requires k == i ==> request.Some? && Makes(q[i], request.value, w)
    ensures HasRequest(more, q[k].jobId)
  {
    if k < i {
      var r :| r in rs && r.jobId == q[k].jobId;
      assert r in more;
    } else {
      assert request.value in more;
    }
  }

  lemma {:induction false} StandsIsSeen(log: Log, began: nat, job: JobId)
    requires Kept(log) && StandsQueued(log.states, began, |log.acts|, job)
    ensures !SeenUnqueued(log, began, job)
  {
    hide Reads;
  }

  lemma {:induction false} RequestsDone(rs: seq<Request>, attempts: map<JobId, nat>, running: map<JobId, Entry>, past: Log, log: Log, began: nat, q: seq<QueueEntry>)
    requires Kept(past) && Kept(log) && Extends(past, log) && QueueIs(past.states, began, |past.acts|, q, {})
    requires RequestsOf(rs, attempts, running, Now(log).world, q, |q|) && SpeclessFailed(q, |q|, running, log, began)
    ensures RequestsAre(rs, attempts, running, log, began)
  {
    hide InOrder, Waiting;
    forall r | r in rs
      ensures r.jobId in attempts && FoundAsking(log, began, r, attempts[r.jobId])
    {
      var e :| e in q && Makes(e, r, Now(log).world) && r.jobId in attempts && attempts[r.jobId] == e.attempt;
      SeenQueuedLater(past, log, began, began, e);
    }
    forall j | StandsQueued(log.states, began, |log.acts|, j) && j !in running
      ensures HasRequest(rs, j)
    {
      StoodQueued(past, log, began, began, j);
      assert Has(q, j);
      var e :| e in q && e.jobId == j;
      var k :| 0 <= k < |q| && q[k] == e;
      StandsIsSeen(log, began, j);
    }
  }

  lemma {:induction false} QueuedAreThere(alone: bool, log: Log, began: nat, q: seq<QueueEntry>)
    requires Lawful(alone, log) && Kept(log) && QueueIs(log.states, began, |log.acts|, q, {})
    ensures forall e :: e in q ==> e.jobId in Now(log).world.jobs && e.attempt <= Now(log).world.jobs[e.jobId].attempt
  {
    hide Lawful, InOrder;
    forall e | e in q
      ensures e.jobId in Now(log).world.jobs && e.attempt <= Now(log).world.jobs[e.jobId].attempt
    {
      var t: nat :| began <= t <= |log.acts| && IsQueued(log.states[t].world, e);
      LogGrows(alone, log, t, |log.acts|);
    }
  }

  // The cards on their way back.

  predicate LeavesAt(s: Snapshot, running: map<JobId, Entry>, job: JobId) {
    job in running && IsLeaving(Read(s.world, job), running[job])
  }

  ghost predicate SeenLeaving(log: Log, from: nat, running: map<JobId, Entry>, job: JobId) {
    exists t: nat :: from <= t < |log.states| && LeavesAt(log.states[t], running, job)
  }

  /** Found on its way out at every moment. */
  ghost predicate StandsLeaving(log: Log, from: nat, running: map<JobId, Entry>, job: JobId) {
    forall t :: from <= t < |log.states| ==> LeavesAt(log.states[t], running, job)
  }

  predicate AllIn(jobs: seq<JobId>, running: map<JobId, Entry>) {
    forall i :: 0 <= i < |jobs| ==> jobs[i] in running
  }

  function CardsIn(jobs: seq<JobId>, running: map<JobId, Entry>, visible: set<Uuid>): seq<Uuid>
    requires AllIn(jobs, running)
  {
    if jobs == [] then []
    else CardsIn(jobs[..|jobs| - 1], running, visible) + Within(running[jobs[|jobs| - 1]].gpus, visible)
  }

  /** The visible cards of entries on their way out: of none that was not found
      so, and of every one that was so all the while. */
  ghost predicate LeaversAre(coming: seq<Uuid>, leavers: seq<JobId>, running: map<JobId, Entry>, visible: set<Uuid>, log: Log, from: nat) {
    && NoDup(leavers) && AllIn(leavers, running) && (forall j :: j in leavers ==> j in running && SeenLeaving(log, from, running, j))
    && coming == CardsIn(leavers, running, visible)
    && (forall j :: j in running && StandsLeaving(log, from, running, j) ==> j in leavers)
  }

  /** The same of the first `i` entries. */
  ghost predicate LeaversTo(coming: seq<Uuid>, leavers: seq<JobId>, order: seq<JobId>, i: nat, running: map<JobId, Entry>, visible: set<Uuid>, log: Log, from: nat) {
    && i <= |order| && NoDup(leavers) && AllIn(leavers, running) && (forall j :: j in leavers ==> j in running && SeenLeaving(log, from, running, j) && j in order[..i])
    && coming == CardsIn(leavers, running, visible)
    && (forall k :: 0 <= k < i && StandsLeaving(log, from, running, order[k]) ==> order[k] in leavers)
  }

  lemma {:induction false} SeenLeavingLater(past: Log, log: Log, from: nat, running: map<JobId, Entry>, job: JobId)
    requires Extends(past, log) && SeenLeaving(past, from, running, job)
    ensures SeenLeaving(log, from, running, job)
  {
    hide LeavesAt;
    var t: nat :| from <= t < |past.states| && LeavesAt(past.states[t], running, job);
    assert log.states[t] == past.states[t];
  }

  lemma {:induction false} StoodLeaving(past: Log, log: Log, from: nat, running: map<JobId, Entry>, job: JobId)
    requires Extends(past, log) && StandsLeaving(log, from, running, job)
    ensures StandsLeaving(past, from, running, job)
  {
    hide LeavesAt;
    forall t | from <= t < |past.states|
      ensures LeavesAt(past.states[t], running, job)
    {
      assert log.states[t] == past.states[t];
    }
  }

  lemma {:induction false} CardsInMore(jobs: seq<JobId>, job: JobId, running: map<JobId, Entry>, visible: set<Uuid>)
    requires AllIn(jobs, running) && job in running
    ensures AllIn(jobs + [job], running)
    ensures CardsIn(jobs + [job], running, visible) == CardsIn(jobs, running, visible) + Within(running[job].gpus, visible)
  {
    assert (jobs + [job])[..|jobs|] == jobs;
  }

  lemma {:induction false} LeaversNext(coming: seq<Uuid>, leavers: seq<JobId>, order: seq<JobId>, i: nat, running: map<JobId, Entry>, visible: set<Uuid>, past: Log, log: Log, from: nat)
    requires LeaversTo(coming, leavers, order, i, running, visible, past, from) && i < |order| && NoDup(order) && order[i] in running
    requires Extends(past, log) && Kept(log) && from < |log.states|
    ensures var leaves := IsLeaving(Read(Now(log).world, order[i]), running[order[i]]);
            var more := if leaves then leavers + [order[i]] else leavers;
            var cards := if leaves then coming + Within(running[order[i]].gpus, visible) else coming;
            LeaversTo(cards, more, order, i + 1, running, visible, log, from)
  {
    hide IsLeaving, Within;
    var leaves := IsLeaving(Read(Now(log).world, order[i]), running[order[i]]);
    var more := if leaves then leavers + [order[i]] else leavers;
    assert order[..i + 1] == order[..i] + [order[i]];
    assert order[i] !in order[..i];
    CardsInMore(leavers, order[i], running, visible);
    assert Now(log) == log.states[|log.acts|];
    forall j | j in more
      ensures j in running && SeenLeaving(log, from, running, j) && j in order[..i + 1]
    {
      if j in leavers {
        SeenLeavingLater(past, log, from, running, j);
      }
    }
    forall k | 0 <= k < i + 1 && StandsLeaving(log, from, running, order[k])
      ensures order[k] in more
    {
      StoodLeaving(past, log, from, running, order[k]);
    }
    assert NoDup(more) by {
      if leaves {
        NoDupAppend(leavers, [order[i]]);
      }
    }
  }

  lemma {:induction false} LeaversDone(coming: seq<Uuid>, leavers: seq<JobId>, order: seq<JobId>, running: map<JobId, Entry>, visible: set<Uuid>, log: Log, from: nat)
    requires LeaversTo(coming, leavers, order, |order|, running, visible, log, from) && Elems(order) == running.Keys
    ensures LeaversAre(coming, leavers, running, visible, log, from)
  {
    hide StandsLeaving, SeenLeaving;
    forall j | j in running && StandsLeaving(log, from, running, j)
      ensures j in leavers
    {
      assert j in Elems(order);
      var k :| 0 <= k < |order| && order[k] == j;
    }
  }

  lemma {:induction false} LeaversLater(coming: seq<Uuid>, leavers: seq<JobId>, running: map<JobId, Entry>, visible: set<Uuid>, past: Log, log: Log, began: nat, from: nat)
    requires LeaversAre(coming, leavers, running, visible, past, from) && Extends(past, log) && began <= from
    ensures LeaversAre(coming, leavers, running, visible, log, began)
  {
    hide IsLeaving;
    forall j | j in leavers
      ensures SeenLeaving(log, began, running, j)
    {
      SeenLeavingLater(past, log, from, running, j);
      var t: nat :| from <= t < |log.states| && LeavesAt(log.states[t], running, j);
    }
    forall j | j in running && StandsLeaving(log, began, running, j)
      ensures j in leavers
    {
      assert StandsLeaving(log, from, running, j);
      StoodLeaving(past, log, from, running, j);
    }
  }

  // The jobs that may be stopped.

  predicate AsFound(w: World, x: Preemptable) {
    Stoppable(w, x.jobId) && x.priority == w.jobs[x.jobId].priority && x.started == w.jobs[x.jobId].started
  }

  ghost predicate SeenStoppable(log: Log, from: nat, x: Preemptable) {
    exists t: nat :: from <= t < |log.states| && AsFound(log.states[t].world, x)
  }

  ghost predicate StandsStoppable(log: Log, from: nat, job: JobId) {
    forall t :: from <= t < |log.states| ==> Stoppable(log.states[t].world, job)
  }

  predicate HasCandidate(found: seq<Preemptable>, job: JobId) {
    exists x :: x in found && x.jobId == job
  }

  predicate OnceEach(found: seq<Preemptable>) {
    forall i, j :: 0 <= i < j < |found| ==> found[i].jobId != found[j].jobId
  }

  /** Each once, on the cards counted for it, as it was found; and every counted
      job that might have been stopped all the while. */
  ghost predicate CandidatesAre(found: seq<Preemptable>, running: map<JobId, Entry>, p: Readings, log: Log, from: nat) {
    && OnceEach(found)
    && (forall x :: x in found ==> Weighed(x, running, p) && SeenStoppable(log, from, x))
    && (forall j :: j in running && StandsStoppable(log, from, j) ==> HasCandidate(found, j))
  }

  ghost predicate CandidatesTo(found: seq<Preemptable>, order: seq<JobId>, i: nat, running: map<JobId, Entry>, p: Readings, log: Log, from: nat) {
    && i <= |order| && OnceEach(found)
    && (forall x :: x in found ==> Weighed(x, running, p) && SeenStoppable(log, from, x) && x.jobId in order[..i])
    && (forall k :: 0 <= k < i && StandsStoppable(log, from, order[k]) ==> HasCandidate(found, order[k]))
  }

  lemma {:induction false} SeenStoppableLater(past: Log, log: Log, began: nat, from: nat, x: Preemptable)
    requires Extends(past, log) && began <= from && SeenStoppable(past, from, x)
    ensures SeenStoppable(log, began, x)
  {
    var t: nat :| from <= t < |past.states| && AsFound(past.states[t].world, x);
    assert log.states[t] == past.states[t];
  }

  lemma {:induction false} StoodStoppable(past: Log, log: Log, began: nat, from: nat, job: JobId)
    requires Extends(past, log) && began <= from && StandsStoppable(log, began, job)
    ensures StandsStoppable(past, from, job)
  {
    forall t | from <= t < |past.states|
      ensures Stoppable(past.states[t].world, job)
    {
      assert log.states[t] == past.states[t];
    }
  }

  function Candidate(job: JobId, state: Job, cards: seq<Uuid>, p: Readings): Preemptable {
    Preemptable(job, state.priority, cards, state.started, |Within(cards, Elems(p.owned))|, |Within(cards, Elems(p.shared))|)
  }

  lemma {:induction false} CandidatesNext(found: seq<Preemptable>, order: seq<JobId>, i: nat, running: map<JobId, Entry>, p: Readings, past: Log, log: Log, from: nat)
    requires CandidatesTo(found, order, i, running, p, past, from) && i < |order| && NoDup(order) && order[i] in running
    requires Extends(past, log) && Kept(log) && from < |log.states|
    ensures var w, job := Now(log).world, order[i];
            var more := if Stoppable(w, job) then found + [Candidate(job, w.jobs[job], running[job].gpus, p)] else found;
            CandidatesTo(more, order, i + 1, running, p, log, from)
  {
    hide Within;
    var w, job := Now(log).world, order[i];
    assert w == log.states[|log.acts|].world;
    assert order[..i + 1] == order[..i] + [job] && job !in order[..i];
    var more := if Stoppable(w, job) then found + [Candidate(job, w.jobs[job], running[job].gpus, p)] else found;
    assert forall x :: x in found ==> x.jobId != job;
    hide NoDup, OnceEach;
    if Stoppable(w, job) {
      OnceMore(found, more[|found|]);
    }
    forall x | x in more
      ensures Weighed(x, running, p) && SeenStoppable(log, from, x) && x.jobId in order[..i + 1]
    {
      if x in found {
        SeenStoppableLater(past, log, from, from, x);
      } else {
        assert AsFound(w, x);
      }
    }
    hide Weighed, SeenStoppable, Stoppable;
    forall k | 0 <= k < i + 1 && StandsStoppable(log, from, order[k])
      ensures HasCandidate(more, order[k])
    {
      StillStands(found, more, order, i, k, past, log, from);
    }
  }

  lemma {:induction false} OnceMore(found: seq<Preemptable>, x: Preemptable)
    requires OnceEach(found) && forall y :: y in found ==> y.jobId != x.jobId
    ensures OnceEach(found + [x])
  {
    assert forall k :: 0 <= k < |found| ==> found[k] in found;
  }

  lemma {:induction false} StillStands(found: seq<Preemptable>, more: seq<Preemptable>, order: seq<JobId>, i: nat, k: nat, past: Log, log: Log, from: nat)
    requires k <= i < |order| && Extends(past, log) && Kept(log) && from < |log.states| && StandsStoppable(log, from, order[k])
    requires k < i && StandsStoppable(past, from, order[k]) ==> HasCandidate(found, order[k])
    requires found <= more && (Stoppable(Now(log).world, order[i]) ==> |more| == |found| + 1 && more[|found|].jobId == order[i])
    ensures HasCandidate(more, order[k])
  {
    StoodStoppable(past, log, from, from, order[k]);
    if k < i {
      var x :| x in found && x.jobId == order[k];
      assert x in more;
    } else {
      assert Stoppable(log.states[|log.acts|].world, order[i]);
      assert more[|found|] in more;
    }
  }

  lemma {:induction false} CandidatesDone(found: seq<Preemptable>, order: seq<JobId>, running: map<JobId, Entry>, p: Readings, log: Log, from: nat)
    requires CandidatesTo(found, order, |order|, running, p, log, from) && Elems(order) == running.Keys
    ensures CandidatesAre(found, running, p, log, from)
  {
    hide StandsStoppable, SeenStoppable, HasCandidate;
    forall j | j in running && StandsStoppable(log, from, j)
      ensures HasCandidate(found, j)
    {
      assert j in Elems(order);
      var k :| 0 <= k < |order| && order[k] == j;
    }
  }

  lemma {:induction false} CandidatesLater(found: seq<Preemptable>, running: map<JobId, Entry>, p: Readings, past: Log, log: Log, began: nat, from: nat)
    requires CandidatesAre(found, running, p, past, from) && Extends(past, log) && began <= from
    ensures CandidatesAre(found, running, p, log, began)
  {
    hide Weighed, HasCandidate, OnceEach;
    forall x | x in found
      ensures SeenStoppable(log, began, x)
    {
      SeenStoppableLater(past, log, began, from, x);
    }
    forall j | j in running && StandsStoppable(log, began, j)
      ensures HasCandidate(found, j)
    {
      StoodStoppable(past, log, began, from, j);
    }
  }

  lemma {:induction false} RequestsLater(rs: seq<Request>, attempts: map<JobId, nat>, running: map<JobId, Entry>, past: Log, log: Log, began: nat)
    requires RequestsAre(rs, attempts, running, past, began) && Kept(log) && Extends(past, log) && Grows(Now(past).world, Now(log).world)
    requires began <= |past.acts|
    ensures RequestsAre(rs, attempts, running, log, began)
  {
    hide Waiting;
    forall r | r in rs
      ensures FoundAsking(log, began, r, attempts[r.jobId])
    {
      var e :| SeenQueued(past.states, began, |past.acts|, e) && Makes(e, r, Now(past).world) && attempts[r.jobId] == e.attempt;
      SeenQueuedLater(past, log, began, began, e);
      assert Makes(e, r, Now(log).world);
    }
    forall j | StandsQueued(log.states, began, |log.acts|, j) && j !in running
      ensures HasRequest(rs, j)
    {
      StoodQueued(past, log, began, began, j);
    }
  }

  // One walk of the rule.

  /** The host as the rule is given it: the cards on their way back as they were
      found up to `left`, and then the jobs that may be stopped. */
  ghost predicate HostFor(h: Host, p: Readings, running: map<JobId, Entry>, log: Log, from: nat, leavers: seq<JobId>, left: Log) {
    && Kept(left) && Extends(left, log) && from <= |left.acts|
    && h.ownedPresent == |p.owned| && h.sharedVisible == |p.shared| && h.shared == Elems(p.shared)
    && h.ownedAbsent == p.ownedAbsent && h.sharedAbsent == p.sharedAbsent
    && LeaversAre(h.coming, leavers, running, Elems(p.owned) + Elems(p.shared), left, from)
    && CandidatesAre(h.preemptable, running, p, log, |left.acts|)
  }

  lemma {:induction false} HostLater(h: Host, p: Readings, running: map<JobId, Entry>, past: Log, log: Log, began: nat, from: nat, leavers: seq<JobId>, left: Log)
    requires HostFor(h, p, running, past, from, leavers, left) && Extends(past, log) && began <= from
    ensures HostFor(h, p, running, log, began, leavers, left)
  {
    hide LeaversAre, CandidatesAre;
    ExtendsTwice(left, past, log);
    LeaversLater(h.coming, leavers, running, Elems(p.owned) + Elems(p.shared), left, left, began, from);
    CandidatesLater(h.preemptable, running, p, past, log, |left.acts|, |left.acts|);
  }

  /** The shared cards on offer: this pass's one reading of them, less those
      taken since. */
  function Offered(p: Readings, memo: Option<Reading>, busy: set<Uuid>): Reading {
    if memo.Some? then Reading(Without(memo.value.free, busy), memo.value.theirs)
    else Reading(Without(Without(p.shared, busy), p.inUse), |Within(Without(p.shared, busy), p.inUse)|)
  }

  /** The free cards as the rule is given them: every owned card, and every
      shared one on offer, that is in no entry and no claim. */
  function StateFor(p: Readings, memo: Option<Reading>, busy: set<Uuid>): State {
    var offer := Offered(p, memo, busy);
    Fresh(Without(p.owned, busy), offer.free, offer.theirs)
  }

  /** On offer are the shared cards read as free, in no entry and no claim; and
      somebody else is on as many as the reading found. */
  lemma {:induction false} OfferedIs(p: Readings, memo: Option<Reading>, busy: set<Uuid>, c: Uuid)
    ensures memo.None? ==> (c in Offered(p, memo, busy).free <==> c in p.shared && c !in busy && c !in p.inUse)
    ensures memo.None? && NoDup(p.shared) ==> Offered(p, memo, busy).theirs == |(Elems(p.shared) * p.inUse) - busy|
    ensures memo.Some? ==> (c in Offered(p, memo, busy).free <==> c in memo.value.free && c !in busy)
    ensures memo.Some? ==> Offered(p, memo, busy).theirs == memo.value.theirs
  {
    if memo.None? && NoDup(p.shared) {
      var others := Within(Without(p.shared, busy), p.inUse);
      WithoutNoDup(p.shared, busy);
      WithinNoDup(Without(p.shared, busy), p.inUse);
      NoDupCount(others);
      assert Elems(others) == (Elems(p.shared) * p.inUse) - busy;
    }
  }

  /** The rule starts with every owned card that is in no entry and no claim and
      with the shared ones on offer, and with nothing held. */
  lemma {:induction false} StateForIs(p: Readings, memo: Option<Reading>, busy: set<Uuid>, c: Uuid)
    ensures var s := StateFor(p, memo, busy);
            && (c in s.ownedFree <==> c in p.owned && c !in busy)
            && (c in s.sharedFree <==> c in Offered(p, memo, busy).free) && s.theirs == Offered(p, memo, busy).theirs
            && s.held == map[] && s.covered == {} && !s.stuck
  {
  }

  /** What one walk of the rule was given, and when. */
  datatype Plan = Plan(h: Host, s: State, rs: seq<Request>, attempts: map<JobId, nat>, claims: set<Uuid>, leavers: seq<JobId>, left: Log, at: Log)
  {
    function Dealt(): seq<Decision> {
      Decisions(h, s, rs)
    }
  }

  /** Nothing was done but to end jobs whose spec could not be read. */
  predicate Plain(past: Log, log: Log) {
    Extends(past, log) && Kept(log) && forall t :: |past.acts| <= t < |log.acts| ==> IsPlain(log.states[t].world, log.acts[t])
  }

  predicate IsPlain(w: World, a: Act) {
    a.Env? || (a.Dismiss? && a.job in w.jobs && w.jobs[a.job].spec.None?)
  }

  lemma {:induction false} PlainTwice(a: Log, b: Log, c: Log)
    requires Plain(a, b) && Plain(b, c)
    ensures Plain(a, c)
  {
    hide IsPlain;
    forall t | |a.acts| <= t < |c.acts|
      ensures IsPlain(c.states[t].world, c.acts[t])
    {
      if t < |b.acts| {
        assert c.states[t] == b.states[t] && c.acts[t] == b.acts[t];
      }
    }
  }

  lemma {:induction false} PlainEvents(a: Log, b: Log)
    requires OnlyEvents(a, b) && Kept(b)
    ensures Plain(a, b)
  {
  }

  /** Since then the job was failed, if it was still queued, and nothing else was
      done; with a spec that cannot be read that is plain. */
  predicate OnlyDismisses(past: Log, log: Log, job: JobId) {
    Extends(past, log) && forall t :: |past.acts| <= t < |log.acts| ==> log.acts[t].Env? || log.acts[t] == Dismiss(job)
  }

  lemma {:induction false} DismissesPlainly(alone: bool, past: Log, log: Log, job: JobId)
    requires Kept(past) && Kept(log) && Lawful(alone, log) && OnlyDismisses(past, log, job)
    requires job in Now(past).world.jobs && SpecOf(Now(past).world, job).None?
    ensures Plain(past, log)
  {
    forall t | |past.acts| <= t < |log.acts|
      ensures IsPlain(log.states[t].world, log.acts[t])
    {
      LogGrows(alone, log, |past.acts|, t);
      assert log.states[|past.acts|] == Now(past);
    }
  }

  /** The plan is the queue, the cards and the candidates as they were found. */
  ghost predicate PlanIs(plan: Plan, p: Readings, memo: Option<Reading>, began: nat, before: Log) {
    && Kept(before) && Kept(plan.at) && Plain(before, plan.at) && Now(plan.at).running == Now(before).running
    && RequestsAre(plan.rs, plan.attempts, Now(before).running, plan.at, began)
    && HostFor(plan.h, p, Now(before).running, plan.at, |before.acts|, plan.leavers, plan.left)
    && ScanIs(plan.at.states, began, |plan.at.acts|, plan.claims, {})
    && plan.s == StateFor(p, memo, CardsOf(Now(before).running) + plan.claims)
  }

  /** The launch was given up for a claim on one of its cards. */
  ghost predicate GivenUpFor(ds: seq<Decision>, job: JobId, card: Uuid, log: Log, from: nat) {
    && from <= |log.acts| < |log.states| && SeenClaimed(log.states, from, |log.acts|, card)
    && exists k :: 0 <= k < |ds| && ds[k].Assigned? && ds[k].jobId == job && card in ds[k].gpus
  }

  predicate DistinctIds(ds: seq<Decision>) {
    forall k, l :: 0 <= k < l < |ds| ==> ds[k].jobId != ds[l].jobId
  }

  /** The job is given up: too wide for the host, with nvidia-smi not being
      waited for, or its spawn failed. */
  predicate GivesUp(d: Decision, patient: bool, blocks: map<JobId, Block>) {
    (d.Fails? && !patient) || (d.Assigned? && d.jobId in blocks && blocks[d.jobId].SpawnFailed?)
  }

  /** One of the first `i` decisions gives this job up. */
  ghost predicate MayFail(ds: seq<Decision>, i: nat, patient: bool, blocks: map<JobId, Block>, job: JobId) {
    exists k :: 0 <= k < i && k < |ds| && ds[k].jobId == job && GivesUp(ds[k], patient, blocks)
  }

  /** Nobody is failed but whom one of the first `i` decisions gives up, and each
      of those is not queued any more. */
  ghost predicate FailedFor(ds: seq<Decision>, i: nat, patient: bool, blocks: map<JobId, Block>, log: Log, from: nat) {
    && (forall t :: from <= t < |log.acts| && log.acts[t].Dismiss? ==> MayFail(ds, i, patient, blocks, log.acts[t].job))
    && (forall k :: 0 <= k < i && k < |ds| && GivesUp(ds[k], patient, blocks) ==> SeenUnqueued(log, from, ds[k].jobId))
  }

  /** The jobs blocked are assigned ones that are not counted. */
  ghost predicate BlockedApart(ds: seq<Decision>, i: nat, now: map<JobId, Entry>, blocked: set<JobId>) {
    forall j :: j in blocked ==> j !in now && exists k :: 0 <= k < i && k < |ds| && ds[k].Assigned? && ds[k].jobId == j
  }

  lemma {:induction false} BlockedNext(ds: seq<Decision>, i: nat, was: map<JobId, Entry>, now: map<JobId, Entry>, blocked: set<JobId>, block: bool)
    requires i < |ds| && DistinctIds(ds) && BlockedApart(ds, i, was, blocked) && (ds[i].Assigned? ==> ds[i].jobId !in was)
    requires block ==> ds[i].Assigned?
    requires !ds[i].Assigned? || block ==> now == was
    requires ds[i].Assigned? && !block ==> ds[i].jobId in now && now - {ds[i].jobId} == was
    ensures BlockedApart(ds, i + 1, now, blocked + if block then {ds[i].jobId} else {}) && ds[i].jobId !in blocked
  {
    forall j | j in blocked
      ensures j !in now && j != ds[i].jobId && exists k :: 0 <= k < i + 1 && k < |ds| && ds[k].Assigned? && ds[k].jobId == j
    {
      var k :| 0 <= k < i && k < |ds| && ds[k].Assigned? && ds[k].jobId == j;
      StillOut(now, ds[i].jobId, j);
    }
  }

  lemma {:induction false} StillOut(now: map<JobId, Entry>, one: JobId, job: JobId)
    requires job != one
    ensures job in now - {one} <==> job in now
  {
  }

  predicate FailsOne(past: Log, log: Log, job: JobId, may: bool) {
    forall t :: |past.acts| <= t < |log.acts| && log.acts[t].Dismiss? ==> may && log.acts[t].job == job
  }

  lemma {:induction false} FailedNext(ds: seq<Decision>, i: nat, patient: bool, blocks: map<JobId, Block>, more: map<JobId, Block>, block: Option<Block>, mid: Log, log: Log, from: nat)
    requires i < |ds| && DistinctIds(ds) && FailedFor(ds, i, patient, blocks, mid, from) && ds[i].jobId !in blocks
    requires more == if block.Some? then blocks[ds[i].jobId := block.value] else blocks
    requires block.Some? ==> ds[i].Assigned?
    requires Kept(mid) && Kept(log) && Extends(mid, log) && from <= |mid.acts|
    requires FailsOne(mid, log, ds[i].jobId, (ds[i].Fails? && !patient) || block == Some(SpawnFailed))
    requires (ds[i].Fails? && !patient) || block == Some(SpawnFailed) ==> !Reads(Now(log).world, ds[i].jobId, Queued)
    ensures FailedFor(ds, i + 1, patient, more, log, from)
  {
    hide Reads;
    forall k | 0 <= k < i
      ensures GivesUp(ds[k], patient, more) <==> GivesUp(ds[k], patient, blocks)
    {
      assert ds[k].jobId != ds[i].jobId;
    }
    assert GivesUp(ds[i], patient, more) <==> (ds[i].Fails? && !patient) || block == Some(SpawnFailed);
    hide GivesUp;
    forall t | from <= t < |log.acts| && log.acts[t].Dismiss?
      ensures MayFail(ds, i + 1, patient, more, log.acts[t].job)
    {
      if t < |mid.acts| {
        assert log.acts[t] == mid.acts[t];
        assert MayFail(ds, i, patient, blocks, mid.acts[t].job);
        var k :| 0 <= k < i && k < |ds| && ds[k].jobId == mid.acts[t].job && GivesUp(ds[k], patient, blocks);
      }
    }
    forall k | 0 <= k < i + 1 && GivesUp(ds[k], patient, more)
      ensures SeenUnqueued(log, from, ds[k].jobId)
    {
      if k < i {
        SeenUnqueuedLater(mid, log, from, ds[k].jobId);
      } else {
        assert !Reads(log.states[|log.acts|].world, ds[k].jobId, Queued);
      }
    }
  }

  lemma {:induction false} NobodyGivenUpYet(ds: seq<Decision>, patient: bool, log: Log, now: map<JobId, Entry>)
    ensures FailedFor(ds, 0, patient, map[], log, |log.acts|) && BlockedApart(ds, 0, now, {})
  {
  }

  lemma {:induction false} DealtDistinct(rs: seq<Request>, running: map<JobId, Entry>, ds: seq<Decision>)
    requires Waiting(rs, running) && |ds| == |rs| && forall k :: 0 <= k < |rs| ==> ds[k].jobId == rs[k].jobId
    ensures DistinctIds(ds)
  {
    hide Before;
  }

  /** `launch_ready`: every job assigned cards is counted on them, or was given
      up for a claim or a failed spawn; the entries of before are untouched;
      nothing else is started; and exactly those the rule or a failed spawn
      gives up are failed. */
  ghost predicate LaunchPass(p: Readings, memo: Option<Reading>, began: nat, before: Log, after: Log, plan: Plan, blocks: map<JobId, Block>) {
    && PlanIs(plan, p, memo, began, before) && Kept(after) && OnlyLaunches(plan.at, after)
    && Done(plan.Dealt(), |plan.rs|, plan.attempts, Now(before).running, Now(after).running, blocks.Keys)
    && (forall j :: j in blocks && blocks[j].ClaimedSince? ==> GivenUpFor(plan.Dealt(), j, blocks[j].card, after, |plan.at.acts|))
    && BlockedApart(plan.Dealt(), |plan.rs|, Now(after).running, blocks.Keys)
    && FailedFor(plan.Dealt(), |plan.rs|, p.patient, blocks, after, |plan.at.acts|)
  }

  predicate OfStopping(w: World, a: Act, asked: seq<JobId>) {
    IsPlain(w, a) || (a.Ask? && a.job in asked)
  }

  /** For the first job with a gap the jobs of its set were asked in order, all of
      them unless one was refused; and nobody was without such a job. */
  ghost predicate AsksForTheFirst(ds: seq<Decision>, asked: seq<JobId>, w: World) {
    && (forall k: nat :: FirstStuck(ds, k) ==>
         asked <= ds[k].preempts && (|asked| < |ds[k].preempts| ==> !MayStop(w, ds[k].preempts[|asked|])))
    && ((forall k: nat :: !FirstStuck(ds, k)) ==> asked == [])
  }

  /** `preempt_for_waiting`: with candidates to stop, those of the rule's choice
      for the first job with a gap are asked in order up to the first refusal,
      and nobody else. */
  ghost predicate PreemptPass(p: Readings, memo: Option<Reading>, began: nat, before: Log, after: Log, plan: Plan, asked: seq<JobId>) {
    && Kept(before) && Kept(after) && NoSpawns(before, after)
    && (forall t :: |before.acts| <= t < |after.acts| ==> OfStopping(after.states[t].world, after.acts[t], asked))
    && (forall j :: j in asked ==> AskedSince(before, after, j))
    && if plan.h.preemptable == [] then
         asked == [] && Extends(before, plan.at) && CandidatesAre([], Now(before).running, p, plan.at, |before.acts|)
       else
         && PlanIs(plan, p, memo, began, before) && Extends(plan.at, after)
         && AsksForTheFirst(plan.Dealt(), asked, Now(after).world)
         && (forall j :: j in asked ==> j in Now(before).running && StopsFor(plan.h, plan.s, plan.rs, j))
  }

  lemma {:induction false} OfferIsFree(p: Readings, memo: Option<Reading>, running: map<JobId, Entry>, busy: set<Uuid>)
    requires Resolved(p) && CardsOf(running) <= busy && ReadingOf(p, memo)
    ensures Offers(Lazy(Without(p.owned, busy), None, 0, map[], {}, false, 0), Some(Offered(p, memo, busy)), p, running)
    ensures Eager(Lazy(Without(p.owned, busy), None, 0, map[], {}, false, 0), Some(Offered(p, memo, busy))) == StateFor(p, memo, busy)
  {
    WithoutNoDup(p.owned, busy);
    WithoutNoDup(p.shared, busy);
    WithoutNoDup(Without(p.shared, busy), p.inUse);
    if memo.Some? {
      WithoutNoDup(memo.value.free, busy);
    }
    hide Without, NoDup, CardsOf;
  }

  /** A reading of this pass's shared cards. */
  predicate ReadingOf(p: Readings, memo: Option<Reading>) {
    memo.Some? ==> NoDup(memo.value.free) && forall c :: c in memo.value.free ==> c in p.shared && c !in p.inUse
  }

  lemma {:induction false} NoRequestsYet(running: map<JobId, Entry>, w: World, q: seq<QueueEntry>)
    requires forall e :: e in q ==> e.jobId in w.jobs
    ensures RequestsOf([], map[], running, w, q, 0)
  {
  }

  lemma {:induction false} QueuedIsThere(rs: seq<Request>, attempts: map<JobId, nat>, running: map<JobId, Entry>, w: World, q: seq<QueueEntry>, i: nat)
    requires RequestsOf(rs, attempts, running, w, q, i) && i < |q|
    ensures q[i].jobId in w.jobs && forall e :: e in q ==> e.jobId in w.jobs
  {
    assert q[i] in q;
  }

  lemma {:induction false} NobodyLeaves(order: seq<JobId>, running: map<JobId, Entry>, visible: set<Uuid>, log: Log, from: nat)
    ensures LeaversTo([], [], order, 0, running, visible, log, from)
  {
  }

  lemma {:induction false} NobodyFound(order: seq<JobId>, running: map<JobId, Entry>, p: Readings, log: Log, from: nat)
    ensures CandidatesTo([], order, 0, running, p, log, from)
  {
  }

  // Acting on the decisions.

  predicate Came(ds: seq<Decision>, attempts: map<JobId, nat>, w: World) {
    forall k :: 0 <= k < |ds| ==> ds[k].jobId in attempts && (ds[k].Assigned? ==> CameTo(w, ds[k].jobId, attempts[ds[k].jobId]))
  }

  lemma {:induction false} CameGrows(ds: seq<Decision>, attempts: map<JobId, nat>, v: World, w: World)
    requires Came(ds, attempts, v) && Grows(v, w)
    ensures Came(ds, attempts, w)
  {
  }

  ghost predicate BlocksAre(blocks: map<JobId, Block>, ds: seq<Decision>, log: Log, from: nat) {
    forall j :: j in blocks && blocks[j].ClaimedSince? ==> GivenUpFor(ds, j, blocks[j].card, log, from)
  }

  lemma {:induction false} ClaimedLater(ds: seq<Decision>, job: JobId, card: Uuid, past: Log, log: Log, from: nat)
    requires GivenUpFor(ds, job, card, past, from) && Kept(past) && Kept(log) && Extends(past, log)
    ensures GivenUpFor(ds, job, card, log, from)
  {
    SeenLater(past.states, log.states, from, |past.acts|, |log.acts|, card);
  }

  lemma {:induction false} BlocksNext(blocks: map<JobId, Block>, more: map<JobId, Block>, ds: seq<Decision>, i: nat, planned: Log, mid: Log, log: Log, block: Option<Block>)
    requires BlocksAre(blocks, ds, mid, |planned.acts|) && i < |ds| && Kept(mid) && Kept(log) && Extends(planned, mid) && Extends(mid, log)
    requires more == if block.Some? then blocks[ds[i].jobId := block.value] else blocks
    requires block.Some? ==> ds[i].Assigned?
    requires block.Some? && block.value.ClaimedSince? ==> block.value.card in ds[i].gpus && SeenClaimed(log.states, |mid.acts|, |log.acts|, block.value.card)
    ensures BlocksAre(more, ds, log, |planned.acts|)
  {
    hide SeenClaimed;
    forall j | j in more && more[j].ClaimedSince?
      ensures GivenUpFor(ds, j, more[j].card, log, |planned.acts|)
    {
      if block.Some? && j == ds[i].jobId {
        SeenSooner(log.states, |planned.acts|, |mid.acts|, |log.acts|, block.value.card);
      } else {
        ClaimedLater(ds, j, blocks[j].card, mid, log, |planned.acts|);
      }
    }
  }

  lemma {:induction false} SeenSooner(states: seq<Snapshot>, from: nat, mid: nat, to: nat, card: Uuid)
    requires from <= mid && to < |states| && SeenClaimed(states, mid, to, card)
    ensures SeenClaimed(states, from, to, card)
  {
  }

  lemma {:induction false} RequestsWait(rs: seq<Request>, attempts: map<JobId, nat>, running: map<JobId, Entry>, log: Log, began: nat)
    requires RequestsAre(rs, attempts, running, log, began)
    ensures Waiting(rs, running)
  {
  }

  lemma {:induction false} RequestsCame(alone: bool, log: Log, began: nat, rs: seq<Request>, attempts: map<JobId, nat>, running: map<JobId, Entry>, ds: seq<Decision>)
    requires Lawful(alone, log) && RequestsAre(rs, attempts, running, log, began)
    requires |ds| == |rs| && forall k :: 0 <= k < |rs| ==> ds[k].jobId == rs[k].jobId
    ensures Came(ds, attempts, Now(log).world)
  {
    hide Lawful, Waiting;
    forall k | 0 <= k < |ds|
      ensures ds[k].jobId in attempts && CameTo(Now(log).world, ds[k].jobId, attempts[ds[k].jobId])
    {
      var r := rs[k];
      assert r in rs;
      var e :| SeenQueued(log.states, began, |log.acts|, e) && Makes(e, r, Now(log).world) && attempts[r.jobId] == e.attempt;
      var t: nat :| began <= t <= |log.acts| && IsQueued(log.states[t].world, e);
      LogGrows(alone, log, t, |log.acts|);
    }
  }

  lemma {:induction false} PlanExtends(plan: Plan, p: Readings, memo: Option<Reading>, began: nat, before: Log)
    requires PlanIs(plan, p, memo, began, before)
    ensures Extends(before, plan.at) && Now(plan.at).running == Now(before).running && |plan.Dealt()| == |plan.rs|
  {
  }

  lemma {:induction false} BlocksGiveLaunchPass(p: Readings, memo: Option<Reading>, began: nat, before: Log, after: Log, plan: Plan, blocks: map<JobId, Block>)
    requires PlanIs(plan, p, memo, began, before) && Kept(after) && OnlyLaunches(plan.at, after)
    requires Done(plan.Dealt(), |plan.Dealt()|, plan.attempts, Now(before).running, Now(after).running, blocks.Keys)
    requires BlocksAre(blocks, plan.Dealt(), after, |plan.at.acts|)
    requires BlockedApart(plan.Dealt(), |plan.Dealt()|, Now(after).running, blocks.Keys)
    requires FailedFor(plan.Dealt(), |plan.Dealt()|, p.patient, blocks, after, |plan.at.acts|)
    ensures LaunchPass(p, memo, began, before, after, plan, blocks)
  {
    hide PlanIs, Done, GivenUpFor, BlockedApart, FailedFor;
  }

  // Asking jobs to stop.

  /** Since then, exactly these were asked to stop, and nothing else was done. */
  ghost predicate Asks(past: Log, log: Log, asked: seq<JobId>) {
    && Extends(past, log)
    && (forall t :: |past.acts| <= t < |log.acts| ==> log.acts[t].Env? || (log.acts[t].Ask? && log.acts[t].job in asked))
    && (forall j :: j in asked ==> AskedSince(past, log, j))
  }

  ghost predicate AskedSince(past: Log, log: Log, job: JobId) {
    exists t :: |past.acts| <= t < |log.acts| && log.acts[t] == Ask(job)
  }

  lemma {:induction false} NobodyAsked(log: Log)
    ensures Asks(log, log, [])
  {
  }

  lemma {:induction false} AskedNow(past: Log, mid: Log, log: Log, job: JobId)
    requires OnlyEvents(past, mid) && Extends(mid, log) && log.acts == mid.acts + [Ask(job)]
    ensures Asks(past, log, [job])
  {
    assert log.acts[|mid.acts|] == Ask(job);
  }

  lemma {:induction false} OnlyEventsExtend(past: Log, log: Log)
    ensures OnlyEvents(past, log) ==> Extends(past, log)
    ensures forall asked :: Asks(past, log, asked) ==> Extends(past, log)
  {
  }

  lemma {:induction false} AskedLater(past: Log, mid: Log, log: Log, job: JobId)
    requires AskedSince(past, mid, job) && Extends(mid, log)
    ensures AskedSince(past, log, job)
  {
    var t :| |past.acts| <= t < |mid.acts| && mid.acts[t] == Ask(job);
    assert log.acts[t] == mid.acts[t];
  }

  lemma {:induction false} AsksMore(past: Log, mid: Log, log: Log, asked: seq<JobId>, job: JobId, ok: bool)
    requires Asks(past, mid, asked) && (if ok then Asks(mid, log, [job]) else OnlyEvents(mid, log))
    ensures Asks(past, log, if ok then asked + [job] else asked)
  {
    var more := if ok then asked + [job] else asked;
    forall t | |past.acts| <= t < |log.acts|
      ensures log.acts[t].Env? || (log.acts[t].Ask? && log.acts[t].job in more)
    {
      if t < |mid.acts| {
        assert log.acts[t] == mid.acts[t];
      }
    }
    forall j | j in more
      ensures AskedSince(past, log, j)
    {
      if j in asked {
        AskedLater(past, mid, log, j);
      } else {
        assert AskedSince(mid, log, j);
        var t :| |mid.acts| <= t < |log.acts| && log.acts[t] == Ask(j);
      }
    }
  }

  lemma {:induction false} CandidatesWeighed(found: seq<Preemptable>, running: map<JobId, Entry>, p: Readings, log: Log, from: nat)
    requires CandidatesAre(found, running, p, log, from)
    ensures forall x :: x in found ==> Weighed(x, running, p)
  {
  }

  lemma {:induction false} PlainSpawnsNobody(past: Log, log: Log)
    requires Plain(past, log)
    ensures NoSpawns(past, log) && forall t :: |past.acts| <= t < |log.acts| ==> !log.acts[t].Ask?
  {
  }

  lemma {:induction false} PreemptIs(p: Readings, memo: Option<Reading>, began: nat, before: Log, after: Log, plan: Plan, asked: seq<JobId>)
    requires Kept(before) && Kept(after) && plan.h.preemptable != [] && PlanIs(plan, p, memo, began, before)
    requires Plain(before, plan.at) && Asks(plan.at, after, asked) && asked <= Wanted(plan.Dealt())
    requires |asked| < |Wanted(plan.Dealt())| ==> !MayStop(Now(after).world, Wanted(plan.Dealt())[|asked|])
    requires forall j :: j in Wanted(plan.Dealt()) ==> j in Now(before).running && StopsFor(plan.h, plan.s, plan.rs, j)
    ensures PreemptPass(p, memo, began, before, after, plan, asked) && NoSpawns(before, after)
  {
    hide PlanIs, Wanted, Decisions, StopsFor, MayStop, FirstStuck;
    WantedIs(plan.Dealt());
    forall t | |before.acts| <= t < |after.acts|
      ensures OfStopping(after.states[t].world, after.acts[t], asked)
    {
      if t < |plan.at.acts| {
        assert after.acts[t] == plan.at.acts[t] && after.states[t] == plan.at.states[t];
      }
    }
    forall j | j in asked
      ensures AskedSince(before, after, j)
    {
      var t :| |plan.at.acts| <= t < |after.acts| && after.acts[t] == Ask(j);
    }
    assert forall j :: j in asked ==> j in Wanted(plan.Dealt());
  }

  lemma {:induction false} NothingToStop(p: Readings, memo: Option<Reading>, began: nat, before: Log, after: Log, plan: Plan)
    requires Kept(before) && Kept(after) && plan.h.preemptable == [] && plan.at == after && Plain(before, after)
    requires CandidatesAre([], Now(before).running, p, after, |before.acts|)
    ensures PreemptPass(p, memo, began, before, after, plan, [])
  {
    hide CandidatesAre;
    PlainSpawnsNobody(before, after);
  }

  lemma {:induction false} NoReading(p: Readings)
    ensures ReadingOf(p, None)
  {
  }

  // Whole passes.

  /** What a pass did: when it had reaped, what it launched by which plan, and
      whom it asked to stop by which. */
  datatype Round = Round(
    before: Log, reaped: Log, launching: Plan, blocks: map<JobId, Block>, launched: Log, memo: Option<Reading>,
    stopping: Plan, asked: seq<JobId>, after: Log)

  /** The reading of the shared cards a launch may have taken. */
  predicate TookReading(p: Readings, memo: Option<Reading>, running: map<JobId, Entry>, plan: Plan) {
    memo.Some? ==> memo == Some(Offered(p, None, CardsOf(running) + plan.claims))
  }

  /** Nothing reaped but dead entries, and every entry left was found alive. */
  ghost predicate ReapedFirst(r: Round) {
    && Kept(r.before) && Kept(r.reaped) && OnlyReaps(r.before, r.reaped) && Now(r.reaped).settling.None?
    && (Now(r.before).running == map[] ==> r.reaped == r.before)
    && (forall j :: j in Now(r.reaped).running ==> SeenAlive(r.reaped.states, |r.before.acts|, Now(r.reaped).running[j].pid))
  }

  ghost predicate RoundIs(p: Readings, r: Round) {
    ReapedFirst(r) && ServedThen(p, r)
  }

  /** The launches of the rule, then its stops. */
  ghost predicate ServedThen(p: Readings, r: Round) {
    && Kept(r.reaped) && Kept(r.launched) && Kept(r.after)
    && Now(r.launched).settling.None?
    && Extends(r.reaped, r.launched) && NoSpawns(r.launched, r.after)
    && (p.draining ==> r.launched == r.reaped && r.after == r.launched)
    && (!p.draining ==>
         && LaunchPass(p, None, |r.reaped.acts|, r.reaped, r.launched, r.launching, r.blocks)
         && TookReading(p, r.memo, Now(r.reaped).running, r.launching)
         && PreemptPass(p, r.memo, |r.reaped.acts|, r.launched, r.after, r.stopping, r.asked))
  }

  predicate Follows(rounds: seq<Round>, k: nat, first: Log)
    requires k < |rounds|
  {
    rounds[k].before == if k == 0 then first else rounds[k - 1].after
  }

  /** One pass after the other, from `first` to `last`. */
  ghost predicate Chained(rounds: seq<Round>, first: Log, last: Log) {
    && (forall k :: 0 <= k < |rounds| ==> Extends(rounds[k].after, last))
    && (forall k :: 0 <= k < |rounds| ==> Follows(rounds, k, first))
    && last == if rounds == [] then first else rounds[|rounds| - 1].after
  }

  lemma {:induction false} ChainedMore(rounds: seq<Round>, first: Log, mid: Log, r: Round)
    requires Chained(rounds, first, mid) && r.before == mid && Extends(mid, r.after)
    ensures Chained(rounds + [r], first, r.after)
  {
    forall k | 0 <= k < |rounds|
      ensures Extends(rounds[k].after, r.after)
    {
      ExtendsTwice(rounds[k].after, mid, r.after);
    }
    var more := rounds + [r];
    forall k | 0 <= k < |more|
      ensures Extends(more[k].after, r.after) && Follows(more, k, first)
    {
      if k < |rounds| {
        assert Follows(rounds, k, first) && more[k] == rounds[k];
      }
    }
  }

  lemma {:induction false} NoneChained(log: Log)
    ensures Chained([], log, log)
  {
  }
}
