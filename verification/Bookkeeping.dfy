/** What the dispatcher's reads come to when other processes write between
    them, and the bookkeeping of one pass. */
module Bookkeeping {
  import opened Lists
  import opened Preempt
  import opened Rule
  import opened RuleTheorems
  import opened Pass
  import opened Machine
  import opened Ledger
  import opened Quiet

  /** What one pass reads once: the owned and shared cards the configuration
      resolves to, the entries it could not resolve, the shared cards somebody
      else is on, whether the host is draining, and whether nvidia-smi has
      failed only for a short while. */
  datatype Readings = Readings(
    owned: seq<Uuid>, shared: seq<Uuid>, ownedAbsent: seq<string>, sharedAbsent: seq<string>,
    inUse: set<Uuid>, draining: bool, patient: bool)

  /** As `resolve` returns them: every card once, and none both owned and shared. */
  predicate Resolved(r: Readings) {
    NoDup(r.owned) && NoDup(r.shared) && Apart(r.owned, r.shared)
  }

  datatype QueueEntry = QueueEntry(priority: int, jobId: JobId, attempt: nat)
  {
    function SortKey(): Key {
      Key(priority, jobId)
    }
  }

  /** In dispatch order, each job once. */
  predicate InOrder(q: seq<QueueEntry>) {
    forall i, j :: 0 <= i < j < |q| ==> Before(q[i].SortKey(), q[j].SortKey()) && q[i].jobId != q[j].jobId
  }

  function Inserted(q: seq<QueueEntry>, e: QueueEntry): seq<QueueEntry> {
    if q == [] || Before(e.SortKey(), q[0].SortKey()) then [e] + q else [q[0]] + Inserted(q[1..], e)
  }

  lemma {:induction false} InsertedIn(q: seq<QueueEntry>, e: QueueEntry)
    ensures forall x :: x in Inserted(q, e) <==> x == e || x in q
  {
    if q != [] && !Before(e.SortKey(), q[0].SortKey()) {
      InsertedIn(q[1..], e);
      assert q == [q[0]] + q[1..];
    }
  }

  lemma {:induction false} InsertedInOrder(q: seq<QueueEntry>, e: QueueEntry)
    requires InOrder(q) && forall x :: x in q ==> x.jobId != e.jobId
    ensures InOrder(Inserted(q, e))
  {
    if q != [] && !Before(e.SortKey(), q[0].SortKey()) {
      InsertedIn(q[1..], e);
      InsertedInOrder(q[1..], e);
      assert forall x :: x in q[1..] ==> Before(q[0].SortKey(), x.SortKey()) && x.jobId != q[0].jobId;
      assert forall x :: x in Inserted(q[1..], e) ==> Before(q[0].SortKey(), x.SortKey()) && x.jobId != q[0].jobId;
    }
  }

  /** The entries of a dictionary in the order they were put there. */
  predicate OrderOf<T>(order: seq<JobId>, m: map<JobId, T>) {
    NoDup(order) && Elems(order) == m.Keys
  }

  lemma {:induction false} NothingInOrder<T>(order: seq<JobId>, m: map<JobId, T>)
    requires OrderOf(order, m)
    ensures m == map[] ==> |order| == 0
  {
    if |order| > 0 {
      assert order[0] in Elems(order);
      assert order[0] in m;
    }
  }

  lemma {:induction false} WholeRun(past: Log, log: Log, alone: bool, strays: set<Pid>)
    requires Lawful(alone, log) && Extends(past, log) && |past.states| == |past.acts| + 1
    requires alone ==> Sound(Now(past), strays) && forall p :: p in strays ==> p < Now(past).world.next
    ensures alone ==> forall k :: |past.acts| <= k < |log.states| ==> Sound(log.states[k], strays)
    ensures forall k :: 0 <= k < |log.acts| && log.acts[k].Spawn? ==>
      Clear(log.states[k].running, log.acts[k].job, log.acts[k].gpus) && Rechecked(log.states, log.acts, k)
  {
    if alone {
      assert log.states[|past.acts|] == Now(past);
      forall k: nat | |past.acts| <= k < |log.states|
        ensures Sound(log.states[k], strays)
      {
        NoCardTwice(log, strays, |past.acts|, k);
      }
    }
    hide Rechecked, Sound;
    forall k | 0 <= k < |log.acts| && log.acts[k].Spawn?
      ensures Clear(log.states[k].running, log.acts[k].job, log.acts[k].gpus)
    {
      assert Allowed(alone, log.states[k], log.acts[k]);
    }
  }

  /** The set to stop for the first job with a gap. */
  function Wanted(ds: seq<Decision>): seq<JobId> {
    if ds == [] then []
    else if ds[0].Holds? && ds[0].gap > 0 then ds[0].preempts
    else Wanted(ds[1..])
  }

  /** A candidate to stop for a waiting job strictly ahead of it, the first one
      with a gap. */
  ghost predicate StopsFor(h: Host, s: State, rs: seq<Request>, job: JobId) {
    exists k: nat, x :: k < |rs| && x in h.preemptable && x.jobId == job && Before(rs[k].SortKey(), x.SortKey())
      && DecisionAt(h, s, rs, k).Holds? && DecisionAt(h, s, rs, k).gap > 0
      && (forall i :: 0 <= i < k && DecisionAt(h, s, rs, i).Holds? ==> DecisionAt(h, s, rs, i).gap == 0)
  }

  lemma {:induction false} FirstGap(ds: seq<Decision>)
    ensures Wanted(ds) == [] || exists k :: 0 <= k < |ds| && FirstStuck(ds, k) && Wanted(ds) == ds[k].preempts
  {
    if ds != [] && !(ds[0].Holds? && ds[0].gap > 0) {
      FirstGap(ds[1..]);
      if Wanted(ds) != [] {
        var k :| 0 <= k < |ds[1..]| && FirstStuck(ds[1..], k) && Wanted(ds[1..]) == ds[1..][k].preempts;
        forall i | 0 <= i < k + 1
          ensures !(ds[i].Holds? && ds[i].gap > 0)
        {
          assert i > 0 ==> ds[i] == ds[1..][i - 1];
        }
        assert FirstStuck(ds, k + 1);
      }
    } else if ds != [] {
      assert FirstStuck(ds, 0);
    }
  }

  predicate FirstStuck(ds: seq<Decision>, k: nat) {
    k < |ds| && ds[k].Holds? && ds[k].gap > 0 && forall i :: 0 <= i < k ==> !(ds[i].Holds? && ds[i].gap > 0)
  }

  /** The set to stop is that of the first job with a gap, and nobody's without
      one. */
  lemma {:induction false} WantedIs(ds: seq<Decision>)
    ensures forall k: nat :: FirstStuck(ds, k) ==> Wanted(ds) == ds[k].preempts
    ensures (forall k: nat :: !FirstStuck(ds, k)) ==> Wanted(ds) == []
  {
    FirstGap(ds);
    forall k: nat | FirstStuck(ds, k)
      ensures Wanted(ds) == ds[k].preempts
    {
      WantedAt(ds, k);
    }
  }

  lemma {:induction false} WantedAt(ds: seq<Decision>, k: nat)
    requires FirstStuck(ds, k)
    ensures Wanted(ds) == ds[k].preempts
  {
    if k > 0 {
      assert !(ds[0].Holds? && ds[0].gap > 0);
      forall i | 0 <= i < k - 1
        ensures !(ds[1..][i].Holds? && ds[1..][i].gap > 0)
      {
        assert ds[1..][i] == ds[i + 1];
      }
      WantedAt(ds[1..], k - 1);
    }
  }

  lemma {:induction false} StopsAreBehind(h: Host, s: State, r: Request, job: JobId)
    requires Decide(h, s, r).Holds? && job in Decide(h, s, r).preempts
    ensures exists x :: x in h.preemptable && x.jobId == job && Before(r.SortKey(), x.SortKey())
  {
    var stops := Stops(h, s, r);
    CoverIsExact(h.preemptable, r.SortKey(), Gap(h, s, r), r.borrows);
    assert Decide(h, s, r).preempts == Ids(stops) by {
      hide Cover, Free, Back, Fillable;
    }
    var i :| 0 <= i < |stops| && stops[i].jobId == job;
    assert stops[i] in stops;
  }

  lemma {:induction false} WantedAreBehind(h: Host, s: State, rs: seq<Request>, running: map<JobId, Entry>, p: Readings)
    requires forall x :: x in h.preemptable ==> Weighed(x, running, p)
    ensures forall j :: j in Wanted(Decisions(h, s, rs)) ==> j in running && StopsFor(h, s, rs, j)
  {
    hide Decide, After, Wanted;
    var ds := Decisions(h, s, rs);
    FirstGap(ds);
    forall j | j in Wanted(ds)
      ensures j in running && StopsFor(h, s, rs, j)
    {
      var k: nat :| k < |ds| && FirstStuck(ds, k) && Wanted(ds) == ds[k].preempts;
      StopsAreBehind(h, After(h, s, rs, k), rs[k], j);
      var x :| x in h.preemptable && x.jobId == j && Before(rs[k].SortKey(), x.SortKey());
      assert Weighed(x, running, p);
      forall i | 0 <= i < k && DecisionAt(h, s, rs, i).Holds?
        ensures DecisionAt(h, s, rs, i).gap == 0
      {
        assert ds[i] == DecisionAt(h, s, rs, i);
      }
    }
  }

  /** What is still to be started is clear of every entry, and of itself. */
  ghost predicate ToCome(ds: seq<Decision>, i: nat, running: map<JobId, Entry>) {
    && (forall k :: i <= k < |ds| && ds[k].Assigned? ==> Clear(running, ds[k].jobId, ds[k].gpus) && NoDup(ds[k].gpus))
    && (forall k, l :: i <= k < l < |ds| && ds[k].Assigned? && ds[l].Assigned? ==>
         ds[k].jobId != ds[l].jobId && Apart(ds[k].gpus, ds[l].gpus))
  }

  predicate StartedOn(d: Decision, job: JobId, e: Entry, attempts: map<JobId, nat>) {
    d.Assigned? && d.jobId == job && e.gpus == d.gpus && job in attempts && e.attempt == attempts[job]
  }

  /** Of the first `i` decisions, every assignment is an entry or was blocked;
      the entries of before are untouched, and every other one is of these. */
  ghost predicate Done(ds: seq<Decision>, i: nat, attempts: map<JobId, nat>, was: map<JobId, Entry>, now: map<JobId, Entry>, blocked: set<JobId>) {
    && i <= |ds|
    && (forall j :: j in was ==> j in now && now[j] == was[j])
    && (forall k :: 0 <= k < i && ds[k].Assigned? ==>
         ds[k].jobId in blocked || (ds[k].jobId in now && StartedOn(ds[k], ds[k].jobId, now[ds[k].jobId], attempts)))
    && (forall j :: j in now && j !in was ==> exists k :: 0 <= k < i && StartedOn(ds[k], j, now[j], attempts))
  }

  lemma {:induction false} NothingDone(log: Log, ds: seq<Decision>, attempts: map<JobId, nat>, running: map<JobId, Entry>)
    ensures Extends(log, log) && Done(ds, 0, attempts, running, running, {})
  {
  }

  lemma {:induction false} FirstToCome(ds: seq<Decision>, i: nat, running: map<JobId, Entry>)
    requires i < |ds| && ToCome(ds, i, running)
    ensures ds[i].Assigned? ==> Clear(running, ds[i].jobId, ds[i].gpus) && NoDup(ds[i].gpus)
  {
  }

  lemma {:induction false} OneDone(ds: seq<Decision>, i: nat, attempts: map<JobId, nat>, first: map<JobId, Entry>, was: map<JobId, Entry>, now: map<JobId, Entry>, blocked: set<JobId>, block: bool)
    requires i < |ds| && ds[i].jobId in attempts && ToCome(ds, i, was) && Done(ds, i, attempts, first, was, blocked)
    requires !ds[i].Assigned? || block ==> now == was
    requires ds[i].Assigned? && !block ==>
      ds[i].jobId in now && now - {ds[i].jobId} == was && now[ds[i].jobId].gpus == ds[i].gpus && now[ds[i].jobId].attempt == attempts[ds[i].jobId]
    ensures ToCome(ds, i + 1, now) && Done(ds, i + 1, attempts, first, now, blocked + if block then {ds[i].jobId} else {})
  {
    if ds[i].Assigned? && !block {
      var job := ds[i].jobId;
      assert now == was[job := now[job]];
      forall k | i + 1 <= k < |ds| && ds[k].Assigned?
        ensures Clear(now, ds[k].jobId, ds[k].gpus)
      {
        assert Clear(was, ds[k].jobId, ds[k].gpus);
      }
      assert StartedOn(ds[i], job, now[job], attempts);
      assert job !in was;
      forall j | j in now && j !in first
        ensures exists k :: 0 <= k < i + 1 && StartedOn(ds[k], j, now[j], attempts)
      {
        if j != job {
          assert j in was && was[j] == now[j];
          var k :| 0 <= k < i && StartedOn(ds[k], j, was[j], attempts);
          assert StartedOn(ds[k], j, now[j], attempts);
        }
      }
    }
  }

  /** The rule works on cards that are free: owned ones in no entry, and shared
      ones in no entry and in nobody else's use. */
  ghost predicate FreeFor(s: State, p: Readings, running: map<JobId, Entry>) {
    && s == Fresh(s.ownedFree, s.sharedFree, s.theirs) && Separate(s)
    && (forall c :: c in s.ownedFree ==> c in p.owned && c !in CardsOf(running))
    && (forall c :: c in s.sharedFree ==> c in p.shared && c !in p.inUse && c !in CardsOf(running))
  }

  lemma {:induction false} DecisionNames(h: Host, s: State, r: Request)
    ensures Decide(h, s, r).jobId == r.jobId
  {
    hide Free, Back, Fillable, Own, Gap, Stops, Holders;
  }

  lemma {:induction false} OneClear(h: Host, s: State, rs: seq<Request>, k: nat, p: Readings, running: map<JobId, Entry>)
    requires FreeFor(s, p, running) && k < |rs| && rs[k].jobId !in running && DecisionAt(h, s, rs, k).Assigned?
    ensures var d := DecisionAt(h, s, rs, k); Clear(running, d.jobId, d.gpus) && NoDup(d.gpus)
  {
    hide Decide, After, NoDup;
    AssignedIsSafe(h, s, rs, k);
    DecisionNames(h, After(h, s, rs, k), rs[k]);
    var d := DecisionAt(h, s, rs, k);
    forall j | j in running
      ensures Apart(running[j].gpus, d.gpus)
    {
      forall c | c in running[j].gpus
        ensures c !in d.gpus
      {
        assert c in CardsOf(running);
      }
    }
  }

  /** Composing the rule's disjointness with what a pass counts as taken. */
  lemma {:induction false} AllClear(start: Lazy, sample: Option<Reading>, p: Readings, h: Host, rs: seq<Request>, running: map<JobId, Entry>)
    requires Offers(start, sample, p, running) && Waiting(rs, running)
    ensures var s := Eager(start, sample); FreeFor(s, p, running) && ToCome(Decisions(h, s, rs), 0, running)
    ensures forall k :: 0 <= k < |rs| ==> Decisions(h, Eager(start, sample), rs)[k].jobId == rs[k].jobId
  {
    var s := Eager(start, sample);
    assert FreeFor(s, p, running);
    hide Decide, After, NoDup, Eager, Offers, FreeFor, Clear, Apart;
    var ds := Decisions(h, s, rs);
    forall k | 0 <= k < |rs|
      ensures ds[k].jobId == rs[k].jobId && (ds[k].Assigned? ==> Clear(running, ds[k].jobId, ds[k].gpus) && NoDup(ds[k].gpus))
    {
      DecisionNames(h, After(h, s, rs, k), rs[k]);
      if ds[k].Assigned? {
        OneClear(h, s, rs, k, p, running);
      }
    }
    forall k, l | 0 <= k < l < |rs| && ds[k].Assigned? && ds[l].Assigned?
      ensures Apart(ds[k].gpus, ds[l].gpus)
    {
      AssignedAreDisjoint(h, s, rs, k, l);
    }
  }

  /** A pool of unread shared cards whose cards are all free: in no entry, and
      in nobody else's use. */
  ghost predicate Offers(start: Lazy, sample: Option<Reading>, p: Readings, running: map<JobId, Entry>) {
    var s := Eager(start, sample);
    && start.sharedFree.None? && sample.Some? && s == Fresh(s.ownedFree, s.sharedFree, s.theirs)
    && Separate(s) && NoDup(sample.value.free)
    && (forall c :: c in s.ownedFree ==> c in p.owned && c !in CardsOf(running))
    && (forall c :: c in sample.value.free ==> c in p.shared && c !in p.inUse && c !in CardsOf(running))
  }

  /** On the cards the dispatcher counts for it, each counted by its kind. */
  predicate Weighed(x: Preemptable, running: map<JobId, Entry>, p: Readings) {
    && x.jobId in running && x.gpus == running[x.jobId].gpus
    && x.owned == |Within(x.gpus, Elems(p.owned))| && x.borrowed == |Within(x.gpus, Elems(p.shared))|
  }

  /** An `auto_preempt` job that is running and not already stopping. */
  predicate Stoppable(w: World, job: JobId) {
    Reads(w, job, Running) && w.jobs[job].intent == NoIntent && w.jobs[job].spec.Some? && w.jobs[job].spec.value.autoPreempt
  }

  /** In dispatch order, each job once, none of them counted as running. */
  predicate Waiting(rs: seq<Request>, running: map<JobId, Entry>) {
    && (forall i, j :: 0 <= i < j < |rs| ==> Before(rs[i].SortKey(), rs[j].SortKey()) && rs[i].jobId != rs[j].jobId)
    && (forall i :: 0 <= i < |rs| ==> rs[i].jobId !in running)
  }

  predicate Ahead(rs: seq<Request>, q: seq<QueueEntry>) {
    forall r, e :: r in rs && e in q ==> Before(r.SortKey(), e.SortKey()) && r.jobId != e.jobId
  }

  lemma {:induction false} TailBehind(q: seq<QueueEntry>, i: nat)
    requires InOrder(q) && i < |q|
    ensures forall e :: e in q[i + 1..] ==> e in q[i..] && Before(q[i].SortKey(), e.SortKey()) && q[i].jobId != e.jobId
  {
    forall e | e in q[i + 1..]
      ensures e in q[i..] && Before(q[i].SortKey(), e.SortKey()) && q[i].jobId != e.jobId
    {
      var k :| 0 <= k < |q[i + 1..]| && q[i + 1..][k] == e;
      assert e == q[i + 1 + k] == q[i..][k + 1];
    }
  }

  lemma {:induction false} OneMoreWaits(rs: seq<Request>, r: Request, e: QueueEntry, running: map<JobId, Entry>)
    requires Waiting(rs, running) && r.SortKey() == e.SortKey() && e.jobId !in running
    requires forall x :: x in rs ==> Before(x.SortKey(), e.SortKey()) && x.jobId != e.jobId
    ensures Waiting(rs + [r], running)
  {
    assert forall k :: 0 <= k < |rs| ==> rs[k] in rs;
    hide Before;
  }

  lemma {:induction false} NextAhead(rs: seq<Request>, q: seq<QueueEntry>, i: nat, request: Option<Request>, running: map<JobId, Entry>)
    requires InOrder(q) && i < |q| && Waiting(rs, running) && Ahead(rs, q[i..])
    requires request.Some? ==> q[i].jobId !in running && request.value.SortKey() == q[i].SortKey()
    ensures var more := if request.Some? then rs + [request.value] else rs; Waiting(more, running) && Ahead(more, q[i + 1..])
  {
    hide InOrder, Waiting, Before;
    TailBehind(q, i);
    assert q[i] == q[i..][0];
    assert q[i] in q[i..];
    if request.Some? {
      OneMoreWaits(rs, request.value, q[i], running);
    }
  }

  predicate IsQueued(w: World, e: QueueEntry) {
    Reads(w, e.jobId, Queued) && w.jobs[e.jobId].priority == e.priority && w.jobs[e.jobId].attempt == e.attempt
  }

  predicate Has(q: seq<QueueEntry>, job: JobId) {
    exists e :: e in q && e.jobId == job
  }

  ghost predicate StandsQueued(states: seq<Snapshot>, from: nat, to: nat, job: JobId)
    requires to < |states|
  {
    forall t :: from <= t <= to ==> Reads(states[t].world, job, Queued)
  }

  ghost predicate SeenQueued(states: seq<Snapshot>, from: nat, to: nat, e: QueueEntry)
    requires to < |states|
  {
    exists t: nat :: from <= t <= to && IsQueued(states[t].world, e)
  }

  /** The listing so far, with these jobs still to be read. */
  ghost predicate QueueIs(states: seq<Snapshot>, from: nat, to: nat, q: seq<QueueEntry>, rest: set<JobId>) {
    && from <= to < |states| && InOrder(q)
    && (forall e :: e in q ==> e.jobId !in rest && SeenQueued(states, from, to, e))
    && (forall j :: StandsQueued(states, from, to, j) ==> Has(q, j) || j in rest)
  }

  lemma {:induction false} QueueInOrder(states: seq<Snapshot>, from: nat, to: nat, q: seq<QueueEntry>, rest: set<JobId>)
    requires QueueIs(states, from, to, q, rest)
    ensures InOrder(q)
  {
  }

  lemma {:induction false} QueueBegins(past: Log, log: Log, rest: set<JobId>)
    requires Extends(past, log) && |log.states| == |log.acts| + 1 && rest == Now(log).world.jobs.Keys
    ensures QueueIs(log.states, |past.acts|, |log.acts|, [], rest)
  {
    forall j | StandsQueued(log.states, |past.acts|, |log.acts|, j)
      ensures j in rest
    {
      assert Reads(log.states[|log.acts|].world, j, Queued);
    }
  }

  lemma {:induction false} QueueGoesOn(mid: Log, log: Log, from: nat, q: seq<QueueEntry>, more: seq<QueueEntry>, job: JobId, rest: set<JobId>)
    requires Extends(mid, log) && |mid.states| == |mid.acts| + 1 && |log.states| == |log.acts| + 1
    requires QueueIs(mid.states, from, |mid.acts|, q, rest + {job}) && job !in rest
    requires var w := Now(log).world;
             more == if Reads(w, job, Queued) then Inserted(q, QueueEntry(w.jobs[job].priority, job, w.jobs[job].attempt)) else q
    ensures QueueIs(log.states, from, |log.acts|, more, rest)
  {
    var n, w := |log.acts|, Now(log).world;
    if Reads(w, job, Queued) {
      var e := QueueEntry(w.jobs[job].priority, job, w.jobs[job].attempt);
      InsertedIn(q, e);
      InsertedInOrder(q, e);
      assert IsQueued(log.states[n].world, e);
      assert e in more;
    }
    assert forall e :: e in q ==> e in more;
    hide Inserted, InOrder;
    forall j | StandsQueued(log.states, from, n, j)
      ensures Has(more, j) || j in rest
    {
      forall t | from <= t <= |mid.acts|
        ensures Reads(mid.states[t].world, j, Queued)
      {
        assert mid.states[t] == log.states[t];
      }
      assert StandsQueued(mid.states, from, |mid.acts|, j);
      assert Reads(log.states[n].world, j, Queued);
    }
    forall e | e in q
      ensures SeenQueued(log.states, from, n, e)
    {
      var t: nat :| from <= t <= |mid.acts| && IsQueued(mid.states[t].world, e);
      assert mid.states[t] == log.states[t];
    }
  }

  /** Why a decided launch did not happen. */
  datatype Block = ClaimedSince(card: Uuid) | SpawnFailed

  function CardsOf(running: map<JobId, Entry>): set<Uuid> {
    set j, c | j in running && c in running[j].gpus :: c
  }

  /** The queue without this job. */
  function Leaving(q: seq<QueueEntry>, job: JobId): (r: seq<QueueEntry>)
    ensures forall e :: e in r <==> e in q && e.jobId != job
  {
    if q == [] then [] else (if q[0].jobId == job then [] else [q[0]]) + Leaving(q[1..], job)
  }

  lemma {:induction false} LeavingInOrder(q: seq<QueueEntry>, job: JobId)
    requires InOrder(q)
    ensures InOrder(Leaving(q, job))
  {
    if q != [] {
      LeavingInOrder(q[1..], job);
      var rest := Leaving(q[1..], job);
      forall x | x in rest
        ensures Before(q[0].SortKey(), x.SortKey()) && q[0].jobId != x.jobId
      {
        assert x in q[1..];
      }
    }
  }

  /** The cards read so far: those of every claim that stood all the while,
      except for jobs still to be read, and only cards some claim named. */
  ghost predicate ScanIs(states: seq<Snapshot>, from: nat, to: nat, cards: set<Uuid>, rest: set<JobId>) {
    && from <= to < |states|
    && (forall j, c :: Standing(states, from, to, j, c) ==> c in cards || j in rest)
    && (forall c :: c in cards ==> SeenClaimed(states, from, to, c))
  }

  lemma {:induction false} ScanBegins(past: Log, log: Log, cards: set<Uuid>, rest: set<JobId>)
    requires Extends(past, log) && |log.states| == |log.acts| + 1
    requires cards == {} && rest == Now(log).world.jobs.Keys
    ensures ScanIs(log.states, |past.acts|, |log.acts|, cards, rest)
  {
    forall j, c | Standing(log.states, |past.acts|, |log.acts|, j, c)
      ensures j in rest
    {
      assert Claims(log.states[|log.acts|].world, j, c);
    }
  }

  lemma {:induction false} ScanGoesOn(mid: Log, log: Log, from: nat, cards: set<Uuid>, more: set<Uuid>, job: JobId, rest: set<JobId>)
    requires Extends(mid, log) && |mid.states| == |mid.acts| + 1 && |log.states| == |log.acts| + 1
    requires ScanIs(mid.states, from, |mid.acts|, cards, rest + {job})
    requires forall c :: c in more <==> Claims(Now(log).world, job, c)
    ensures ScanIs(log.states, from, |log.acts|, cards + more, rest)
  {
    var n := |log.acts|;
    forall j, c | Standing(log.states, from, n, j, c)
      ensures c in cards + more || j in rest
    {
      StandingBefore(mid.states, log.states, from, from, |mid.acts|, n, j, c);
      assert Claims(log.states[n].world, j, c);
    }
    forall c | c in cards + more
      ensures SeenClaimed(log.states, from, n, c)
    {
      if c in cards {
        SeenLater(mid.states, log.states, from, |mid.acts|, n, c);
      } else {
        assert Claims(log.states[n].world, job, c);
      }
    }
  }

  lemma {:induction false} ScanSees(states: seq<Snapshot>, from: nat, start: nat, to: nat, cards: set<Uuid>, card: Uuid)
    requires ScanIs(states, from, to, cards, {}) && card in cards && start <= from
    ensures SeenClaimed(states, start, to, card)
  {
    var t: nat, j :| from <= t <= to && Claims(states[t].world, j, card);
  }

  lemma {:induction false} NoneTaken(gpus: seq<Uuid>, cards: set<Uuid>)
    requires Within(gpus, cards) == []
    ensures forall c :: c in gpus ==> c !in cards
  {
    NoElements(Within(gpus, cards));
  }

  lemma {:induction false} RecheckHolds(past: Log, start: Log, mid: Log, log: Log, cards: set<Uuid>, job: JobId, gpus: seq<Uuid>, attempt: nat)
    requires |past.states| == |past.acts| + 1 && |start.states| == |start.acts| + 1
    requires |mid.states| == |mid.acts| + 1 && |log.states| == |log.acts| + 1
    requires start.acts == past.acts + [Recheck] && OnlyEvents(start, log) && Extends(mid, log)
    requires ScanIs(mid.states, |start.acts|, |mid.acts|, cards, {})
    requires forall c :: c in gpus ==> c !in cards
    ensures Rechecked(log.states, log.acts + [Spawn(job, gpus, attempt, |past.acts|)], |log.acts|)
  {
    var acts := log.acts + [Spawn(job, gpus, attempt, |past.acts|)];
    assert acts[|past.acts|] == start.acts[|past.acts|] == Recheck;
    forall j, c | Standing(log.states, |past.acts|, |log.acts|, j, c)
      ensures c !in gpus
    {
      StandingBefore(mid.states, log.states, |past.acts|, |start.acts|, |mid.acts|, |log.acts|, j, c);
    }
  }

  function Adopted(state: Job): Entry {
    Entry(state.gpus, state.attempt, state.pid)
  }

  /** The only things settling a dropped entry may do: adopt a runner that is
      not the dead one, or fail the job on what was seen of it, and never an
      attempt after the one the dead runner was started for while it waits. */
  predicate Settling(a: Act, job: JobId, entry: Entry, seen: Option<Job>) {
    match a
    case Env(_) => true
    case Adopt(j, e) =>
      j == job && seen.Some? && seen.value.status == Running && e.pid != entry.pid
      && e == Adopted(seen.value)
    case Died(j, attempt, was) =>
      j == job && seen.Some? && seen.value.status == was && seen.value.attempt == attempt
      && (was == Queued ==> attempt <= entry.attempt)
    case _ => false
  }

  ghost predicate Settled(past: Log, log: Log, job: JobId, entry: Entry, seen: Option<Job>) {
    Extends(past, log) && forall t :: |past.acts| <= t < |log.acts| ==> Settling(log.acts[t], job, entry, seen)
  }

  lemma {:induction false} SettledByEvents(past: Log, log: Log, job: JobId, entry: Entry, seen: Option<Job>)
    requires OnlyEvents(past, log)
    ensures Settled(past, log, job, entry, seen)
  {
  }

  lemma {:induction false} SettledThen(past: Log, mid: Log, log: Log, job: JobId, entry: Entry, seen: Option<Job>)
    requires Settled(past, mid, job, entry, seen) && Extends(mid, log)
    requires forall t :: |mid.acts| <= t < |log.acts| ==> Settling(log.acts[t], job, entry, seen)
    ensures Settled(past, log, job, entry, seen)
  {
  }

  lemma {:induction false} SettledTwice(past: Log, mid: Log, log: Log, job: JobId, entry: Entry, seen: Option<Job>)
    requires Settled(past, mid, job, entry, seen) && Settled(mid, log, job, entry, seen)
    ensures Settled(past, log, job, entry, seen)
    ensures |past.acts| <= |mid.acts|
  {
  }

  lemma {:induction false} SeenSince(states: seq<Snapshot>, from: nat, mid: nat, pid: Pid)
    requires from <= mid
    ensures SeenAlive(states, mid, pid) ==> SeenAlive(states, from, pid)
    ensures SeenDead(states, mid, pid) ==> SeenDead(states, from, pid)
  {
  }

  /** This runner was not alive at some moment since. */
  ghost predicate SeenDead(states: seq<Snapshot>, from: nat, pid: Pid) {
    exists t: nat :: from <= t < |states| && pid !in states[t].world.live
  }

  lemma {:induction false} NowDead(past: Log, log: Log, pid: Pid)
    requires |log.states| == |log.acts| + 1 && |past.acts| <= |log.acts| && pid !in Now(log).world.live
    ensures SeenDead(log.states, |past.acts|, pid)
  {
    assert pid !in log.states[|log.acts|].world.live;
  }

  lemma {:induction false} DeadLater(past: seq<Snapshot>, states: seq<Snapshot>, from: nat, pid: Pid)
    requires past <= states && SeenDead(past, from, pid)
    ensures SeenDead(states, from, pid)
  {
    var t: nat :| from <= t < |past| && pid !in past[t].world.live;
    assert states[t] == past[t];
  }

  lemma {:induction false} NowAlive(past: Log, log: Log, pid: Pid)
    requires |log.states| == |log.acts| + 1 && |past.acts| <= |log.acts| && pid in Now(log).world.live
    ensures SeenAlive(log.states, |past.acts|, pid)
  {
    assert pid in log.states[|log.acts|].world.live;
  }

  lemma {:induction false} StillDead(u: World, v: World, job: JobId, pid: Pid)
    requires Calm(u, v) && Unclaimable(u, job) && pid !in u.live
    ensures Unclaimable(v, job) && pid !in v.live && Calm(v, v)
  {
    CalmHere(v);
  }

  lemma {:induction false} JudgedAllows(alone: bool, s: Snapshot, job: JobId, attempt: nat, was: Status)
    requires Reads(s.world, job, was) && was != Finished && (alone ==> Judged(s.world, job, attempt, was))
    ensures Allowed(alone, s, Died(job, attempt, was))
  {
  }

  lemma {:induction false} JudgedQueued(w: World, job: JobId)
    requires Unclaimable(w, job) && Reads(w, job, Queued)
    ensures Judged(w, job, w.jobs[job].attempt, Queued)
  {
  }

  lemma {:induction false} JudgedRunning(v: World, w: World, job: JobId)
    requires Unclaimable(v, job) && Calm(v, w) && Reads(v, job, Running) && v.jobs[job].pid !in w.live
    ensures Judged(w, job, v.jobs[job].attempt, Running)
  {
  }

  lemma {:induction false} CalmRunners(v: World, w: World)
    requires Calm(v, w)
    ensures RunnersGoOn(v, w)
  {
  }

  lemma {:induction false} FinishingRunners(w: World, job: JobId, was: Status)
    ensures RunnersGoOn(w, Finishing(w, job, was))
  {
  }

  lemma {:induction false} FinishingKeepsNames(w: World, job: JobId, was: Status)
    requires Names(w) && Reads(w, job, was) && (was == Running ==> w.jobs[job].pid !in w.live) && was != Finished
    ensures Names(Finishing(w, job, was))
  {
  }

  // What the startup scan finds.

  ghost predicate SeenGarbled(states: seq<Snapshot>, from: nat, job: JobId) {
    exists t: nat :: from <= t < |states| && job in states[t].world.garbled
  }

  lemma {:induction false} NowGarbled(past: Log, log: Log, job: JobId)
    requires |log.states| == |log.acts| + 1 && |past.acts| <= |log.acts| && job in Now(log).world.garbled
    ensures SeenGarbled(log.states, |past.acts|, job)
  {
    assert job in log.states[|log.acts|].world.garbled;
  }

  lemma {:induction false} GarbledLater(past: seq<Snapshot>, states: seq<Snapshot>, from: nat, job: JobId)
    requires past <= states && SeenGarbled(past, from, job)
    ensures SeenGarbled(states, from, job)
  {
    var t: nat :| from <= t < |past| && job in past[t].world.garbled;
    assert states[t] == past[t];
  }

  lemma {:induction false} RunnersTwice(u: World, v: World, w: World)
    requires RunnersGoOn(u, v) && RunnersGoOn(v, w)
    ensures RunnersGoOn(u, w)
  {
  }

  /** Every live runner of this job is counted or has written its last state. */
  ghost predicate Accounted(s: Snapshot, job: JobId) {
    forall p :: p in s.world.live && s.world.live[p].job == job ==> Counted(s, p) || s.world.live[p].phase == Ended
  }

  lemma {:induction false} NotHeld(s: Snapshot, strays: set<Pid>, job: JobId)
    requires Sound(s, strays) && Names(s.world) && job !in s.running
    requires job in s.world.jobs ==> s.world.jobs[job].status != Running
    ensures Accounted(s, job)
  {
    NobodyClaims(s, strays, job);
  }

  lemma {:induction false} AdoptedIsCounted(s: Snapshot, t: Snapshot, job: JobId)
    requires Names(s.world) && RunnersGoOn(s.world, t.world) && Unclaimable(s.world, job)
    requires Reads(s.world, job, Running) && job in t.running && t.running[job] == Adopted(s.world.jobs[job])
    ensures Accounted(t, job)
  {
  }

  lemma {:induction false} HolderIsDead(v: World, w: World, t: Snapshot, job: JobId)
    requires Names(v) && RunnersGoOn(v, w) && RunnersGoOn(w, t.world) && Unclaimable(v, job)
    requires Reads(v, job, Running) && v.jobs[job].pid !in w.live
    ensures Accounted(t, job)
  {
    RunnersTwice(v, w, t.world);
  }

  lemma {:induction false} GarbledSince(states: seq<Snapshot>, from: nat, mid: nat, job: JobId)
    requires from <= mid && SeenGarbled(states, mid, job)
    ensures SeenGarbled(states, from, job)
  {
  }

  /** Only runners of these jobs may be neither counted nor past their job. */
  ghost predicate Unfound(s: Snapshot, jobs: set<JobId>) {
    forall p :: p in s.world.live ==> Counted(s, p) || s.world.live[p].phase == Ended || s.world.live[p].job in jobs
  }

  lemma {:induction false} AllToBeFound(s: Snapshot, strays: set<Pid>, rest: set<JobId>, unread: set<JobId>)
    requires Sound(s, strays) && Names(s.world) && rest == s.world.jobs.Keys
    ensures Unfound(s, rest + unread)
  {
    forall p | p in s.world.live
      ensures Counted(s, p) || s.world.live[p].phase == Ended || s.world.live[p].job in rest
    {
      assert p in strays || Counted(s, p);
    }
  }

  lemma {:induction false} FindsOne(s: Snapshot, t: Snapshot, jobs: set<JobId>, job: JobId, unread: bool)
    requires Unfound(s, jobs + {job}) && RunnersGoOn(s.world, t.world) && job !in s.running
    requires t.running == s.running || (job in t.running && t.running - {job} == s.running)
    requires !unread ==> Accounted(t, job)
    ensures Unfound(t, jobs + if unread then {job} else {})
  {
    forall p | p in t.world.live
      ensures Counted(t, p) || t.world.live[p].phase == Ended || t.world.live[p].job in jobs + if unread then {job} else {}
    {
      assert Counted(s, p) || s.world.live[p].phase == Ended || s.world.live[p].job in jobs + {job};
      if Counted(s, p) {
        var j := t.world.live[p].job;
        assert j in s.running && j != job;
        assert t.running != s.running ==> j in (t.running - {job}) && (t.running - {job})[j] == t.running[j];
      }
    }
  }

  lemma {:induction false} NewStrays(u: World, s: Snapshot, strays: set<Pid>, left: set<Pid>)
    requires Sound(s, strays) && NoneShared(Snapshot(u, map[], None), {}) && RunnersGoOn(u, s.world)
    requires left == Uncounted(s)
    ensures Sound(s, left) && forall p :: p in left ==> p < s.world.next
  {
  }

  lemma {:induction false} StraysUnfound(s: Snapshot, unread: set<JobId>)
    requires Unfound(s, {} + unread)
    ensures forall p :: p in s.world.live && !Counted(s, p) ==> s.world.live[p].phase == Ended || s.world.live[p].job in unread
  {
  }

  lemma {:induction false} SettledExtends(past: Log, log: Log, job: JobId, entry: Entry, seen: Option<Job>)
    requires Settled(past, log, job, entry, seen)
    ensures OnlySettles(past, log)
  {
  }

  lemma {:induction false} AliveSince(states: seq<Snapshot>, from: nat, mid: nat, pid: Pid)
    requires from <= mid && SeenAlive(states, mid, pid)
    ensures SeenAlive(states, from, pid)
  {
  }

  // What happened on the machine, as the script has it.

  function EventsOf(acts: seq<Act>): seq<Event> {
    if acts == [] then []
    else EventsOf(acts[..|acts| - 1]) + if acts[|acts| - 1].Env? then [acts[|acts| - 1].event] else []
  }

  function Happened(script: nat -> seq<Event>, turn: nat): seq<Event> {
    if turn == 0 then [] else Happened(script, turn - 1) + script(turn - 1)
  }

  lemma {:induction false} OneMoreEvent(acts: seq<Act>, a: Act)
    ensures EventsOf(acts + [a]) == EventsOf(acts) + if a.Env? then [a.event] else []
  {
    assert (acts + [a])[..|acts|] == acts;
  }

  lemma {:induction false} OneMoreTurn(script: nat -> seq<Event>, turn: nat)
    ensures Happened(script, turn + 1) == Happened(script, turn) + script(turn)
  {
  }

  /** The machine with nothing done by the dispatcher between these two turns. */
  function Passing(w: World, script: nat -> seq<Event>, from: nat, to: nat): World {
    if to <= from then w else Passed(Passing(w, script, from, to - 1), script(to - 1))
  }

  lemma {:induction false} PassingTwo(w: World, script: nat -> seq<Event>, from: nat)
    ensures Passing(w, script, from, from + 2) == Passed(Passed(w, script(from)), script(from + 1))
  {
    hide Passed;
    assert Passing(w, script, from, from) == w;
    assert Passing(w, script, from, from + 1) == Passed(w, script(from));
  }

  /** The turn at which reading every state once, begun at this one, is done. */
  function ReadAllBy(w: World, script: nat -> seq<Event>, turn: nat): nat {
    turn + 1 + |Passed(w, script(turn)).jobs.Keys|
  }

  ghost predicate NobodyRuns(w: World) {
    forall j :: !Reads(w, j, Running)
  }

  /** A scan from `from` on, whose first turn lists the jobs, reads none as
      running. */
  ghost predicate FindsNobody(w: World, script: nat -> seq<Event>, from: nat, to: nat) {
    forall n: nat :: from + 2 <= n <= to ==> NobodyRuns(Passing(w, script, from, n))
  }

  // What every run of the dispatcher keeps.

  ghost predicate AloneScript(script: nat -> seq<Event>) {
    forall n: nat, i: nat :: i < |script(n)| ==> !script(n)[i].Foreign?
  }

  ghost predicate QuietScript(script: nat -> seq<Event>) {
    forall n: nat, i: nat :: i < |script(n)| ==> Undisturbed(script(n)[i])
  }

  /** A lawful log; alone on the machine a sound one, and quiet where it is
      said to be. */
  ghost predicate Good(alone: bool, strays: set<Pid>, quietFrom: Option<nat>, script: nat -> seq<Event>, log: Log) {
    && Lawful(alone, log) && |log.states| == |log.acts| + 1
    && (alone ==> AloneScript(script) && Sound(Now(log), strays) && forall p :: p in strays ==> p < Now(log).world.next)
    && (quietFrom.Some? ==> alone && QuietScript(script) && QuietLog(log, quietFrom.value))
  }

  lemma {:induction false} StaysGood(alone: bool, strays: set<Pid>, quietFrom: Option<nat>, script: nat -> seq<Event>, log: Log, a: Act)
    requires Good(alone, strays, quietFrom, script, log) && |log.states| == |log.acts| + 1 && Allowed(alone, Now(log), a)
    requires a.Spawn? ==> Rechecked(log.states, log.acts + [a], |log.acts|)
    requires quietFrom.Some? ==> QuietAct(Now(log), a)
    ensures Good(alone, strays, quietFrom, script, Grown(log, a))
    ensures var next := Grown(log, a); |next.states| == |next.acts| + 1 && Now(next) == Apply(Now(log), a) && Extends(log, next)
  {
    hide Lawful, Allowed, Apply, Rechecked, Sound, QuietLog, QuietAct, AloneScript, QuietScript;
    GrowsLawfully(alone, log, a);
    if alone {
      StepKeeps(Now(log), a, strays);
    }
    if quietFrom.Some? {
      GrowsQuietly(log, quietFrom.value, a);
    }
  }

  lemma {:induction false} ScriptIsGood(alone: bool, strays: set<Pid>, quietFrom: Option<nat>, script: nat -> seq<Event>, log: Log, n: nat, i: nat)
    requires Good(alone, strays, quietFrom, script, log) && i < |script(n)| && log.states != []
    ensures Allowed(alone, Now(log), Env(script(n)[i])) && (quietFrom.Some? ==> QuietAct(Now(log), Env(script(n)[i])))
  {
    hide Lawful, Sound, QuietLog;
  }

  lemma {:induction false} GoodIs(alone: bool, strays: set<Pid>, quietFrom: Option<nat>, script: nat -> seq<Event>, log: Log)
    requires Good(alone, strays, quietFrom, script, log)
    ensures Lawful(alone, log) && |log.states| == |log.acts| + 1
    ensures alone ==> Sound(Now(log), strays) && forall p :: p in strays ==> p < Now(log).world.next
    ensures quietFrom.Some? ==> alone && QuietLog(log, quietFrom.value) && quietFrom.value <= |log.acts| && Whole(Now(log))
  {
    hide Lawful, Sound, AloneScript, QuietScript, Whole;
    if quietFrom.Some? {
      assert Now(log) == log.states[|log.acts|];
    }
  }

  lemma {:induction false} FinishedReads(w: World, job: JobId, was: Status)
    requires was != Finished
    ensures !Reads(Finishing(w, job, was), job, was)
  {
  }

  lemma {:induction false} StillNotLive(v: World, w: World, pid: Pid)
    requires Calm(v, w) && pid !in v.live
    ensures pid !in w.live
  {
  }

  lemma {:induction false} UncountedIsDead(s: Snapshot, job: JobId)
    requires Whole(s) && job !in s.running && Reads(s.world, job, Running)
    ensures s.world.jobs[job].pid !in s.world.live
  {
    assert ClaimIsCounted(s, job);
  }

  lemma {:induction false} FinishedIsJudged(w: World, job: JobId, attempt: nat, was: Status)
    requires Judged(w, job, attempt, was) && Reads(w, job, was)
    ensures Judged(Finishing(w, job, was), job, attempt, was)
  {
  }

  /** With the verdict written, or nothing left of what it was reached on, the
      job is settled. */
  lemma {:induction false} JudgedIsSettled(w: World, job: JobId, attempt: nat, was: Status, e: Entry)
    requires Judged(w, job, attempt, was) && w.garbled == {} && !Reads(w, job, was) && (was == Running ==> e.attempt <= attempt)
    ensures !Unsettled(w, job, e)
  {
  }

  lemma {:induction false} SettlingHere(s: Snapshot, job: JobId, e: Entry)
    requires Whole(s) && s.settling == Some(Dropped(job, e))
    ensures s.world.garbled == {} && CameTo(s.world, job, e.attempt)
  {
  }

  lemma {:induction false} JudgedQueuedIsNot(w: World, job: JobId, attempt: nat, was: Status)
    requires Judged(w, job, attempt, was)
    ensures was == Queued ==> !Reads(w, job, Running)
    ensures was == Queued || was == Running
    ensures !Reads(Finishing(w, job, was), job, Running) || !Reads(w, job, was)
  {
  }

  /** The last step was the launch of this job on these cards in this world. */
  predicate Launched(log: Log, job: JobId, gpus: seq<Uuid>, attempt: nat, w: World) {
    && log.acts != [] && |log.states| == |log.acts| + 1
    && var k := |log.acts| - 1;
       log.acts[k].Spawn? && log.acts[k].job == job && log.acts[k].gpus == gpus && log.acts[k].attempt == attempt
       && log.states[k].world == w && log.states[k + 1].world == Spawning(w, job, gpus, attempt)
  }

  /** No runner was started since. */
  predicate NoSpawns(past: Log, log: Log) {
    Extends(past, log) && forall t :: |past.acts| <= t < |log.acts| ==> !log.acts[t].Spawn?
  }

  predicate OfReaping(a: Act) {
    a.Env? || a.Drop? || a.Adopt? || a.Died? || a.MoveOn?
  }

  predicate OnlySettles(past: Log, log: Log) {
    Extends(past, log) && forall t :: |past.acts| <= t < |log.acts| ==> OfReaping(log.acts[t])
  }

  /** Entries were dropped and settled, and nothing was done before the first
      was dropped. */
  ghost predicate OnlyReaps(past: Log, log: Log) {
    OnlySettles(past, log) && (OnlyEvents(past, log) || DropsFirst(past, log))
  }

  ghost predicate DropsFirst(past: Log, log: Log) {
    exists t :: |past.acts| <= t < |log.acts| && log.acts[t].Drop? && forall u :: |past.acts| <= u < t ==> log.acts[u].Env?
  }

  lemma {:induction false} ReapsTwice(a: Log, b: Log, c: Log)
    requires OnlyReaps(a, b) && OnlyReaps(b, c)
    ensures OnlyReaps(a, c)
  {
    hide OfReaping;
    if DropsFirst(a, b) {
      var t :| |a.acts| <= t < |b.acts| && b.acts[t].Drop? && forall u :: |a.acts| <= u < t ==> b.acts[u].Env?;
      assert c.acts[t] == b.acts[t];
      assert forall u :: |a.acts| <= u < t ==> c.acts[u] == b.acts[u];
    } else if DropsFirst(b, c) {
      var t :| |b.acts| <= t < |c.acts| && c.acts[t].Drop? && forall u :: |b.acts| <= u < t ==> c.acts[u].Env?;
      assert c.acts[t] == c.acts[t];
      assert forall u :: |a.acts| <= u < |b.acts| ==> c.acts[u] == b.acts[u];
    }
  }

  lemma {:induction false} DropsThenSettles(past: Log, mid: Log, next: Log, log: Log, job: JobId)
    requires OnlyEvents(past, mid) && next.acts == mid.acts + [Drop(job)] && Extends(mid, next) && OnlySettles(next, log)
    ensures OnlyReaps(past, log)
  {
    assert log.acts[|mid.acts|] == next.acts[|mid.acts|] == Drop(job);
    assert forall u :: |past.acts| <= u < |mid.acts| ==> log.acts[u] == mid.acts[u];
  }

  predicate OfLaunching(a: Act) {
    a.Env? || a.Recheck? || a.Dismiss? || a.Spawn?
  }

  /** Since then claims were read, runners started and queued jobs failed, and
      nothing else was done. */
  predicate OnlyLaunches(past: Log, log: Log) {
    Extends(past, log) && forall t :: |past.acts| <= t < |log.acts| ==> OfLaunching(log.acts[t])
  }

  lemma {:induction false} LaunchesTwice(a: Log, b: Log, c: Log)
    requires OnlyLaunches(a, b) && OnlyLaunches(b, c)
    ensures OnlyLaunches(a, c)
  {
  }

  lemma {:induction false} NoSpawnsTwice(a: Log, b: Log, c: Log)
    requires NoSpawns(a, b) && NoSpawns(b, c)
    ensures NoSpawns(a, c)
  {
  }

  /** The live runners the dispatcher does not count. */
  function Uncounted(s: Snapshot): set<Pid> {
    set p | p in s.world.live && !Counted(s, p)
  }

  lemma {:induction false} NewGood(alone: bool, strays: set<Pid>, left: set<Pid>, script: nat -> seq<Event>, log: Log)
    requires Good(alone, strays, None, script, log) && log.states != []
    requires Sound(Now(log), left) && forall p :: p in left ==> p < Now(log).world.next
    ensures Good(alone, left, None, script, log)
  {
    hide Lawful, Sound, AloneScript;
  }

  lemma {:induction false} MayMoveOn(s: Snapshot, job: JobId, entry: Entry)
    requires Whole(s) && s.settling == Some(Dropped(job, entry)) && (job in s.running || !Unsettled(s.world, job, entry))
    ensures QuietAct(s, MoveOn)
  {
    hide Sound, Names, EntriesApart, Quiet.Fits;
  }

  lemma {:induction false} CameToLater(alone: bool, log: Log, i: nat, job: JobId, attempt: nat)
    requires Lawful(alone, log) && i < |log.states| && CameTo(log.states[i].world, job, attempt)
    ensures CameTo(Now(log).world, job, attempt)
  {
    hide Lawful;
    LogGrows(alone, log, i, |log.states| - 1);
  }
}
