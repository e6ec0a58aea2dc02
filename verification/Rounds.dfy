/** One round of `project`: start every job the pass assigned, then stop every
    job the first stuck one is to have. */
module Rounds {
  import opened Lists
  import opened Preempt
  import opened Rule
  import opened Simulation

  /** What a round relies on: the jobs started get distinct cards that are free
      now, no card twice. */
  predicate Sound(sim: Sim, rs: seq<Request>, ds: seq<Decision>) {
    && |ds| == |rs|
    && (forall i :: 0 <= i < |ds| && ds[i].Assigned? ==>
         NoDup(ds[i].gpus) && forall c :: c in ds[i].gpus ==> c in sim.releases && Past(sim.releases[c], sim.clock))
    && (forall i, j :: 0 <= i < j < |ds| && ds[i].Assigned? && ds[j].Assigned? ==> Apart(ds[i].gpus, ds[j].gpus))
  }

  function StartAll(sim: Sim, shared: set<Uuid>, rs: seq<Request>, ds: seq<Decision>, k: nat): Sim
    requires k <= |ds| == |rs|
  {
    if k == 0 then sim
    else
      var t := StartAll(sim, shared, rs, ds, k - 1);
      if ds[k - 1].Assigned? then Start(t, shared, rs[k - 1], ds[k - 1].gpus) else t
  }

  function StartAllLog(sim: Sim, shared: set<Uuid>, log: seq<Stint>, rs: seq<Request>, ds: seq<Decision>, k: nat): seq<Stint>
    requires k <= |ds| == |rs|
  {
    if k == 0 then log
    else
      var t, more := StartAll(sim, shared, rs, ds, k - 1), StartAllLog(sim, shared, log, rs, ds, k - 1);
      if ds[k - 1].Assigned? then StartLog(t, more, rs[k - 1], ds[k - 1].gpus) else more
  }

  /** What is invariant throughout. */
  predicate Fine(sim: Sim, shared: set<Uuid>, all: seq<Request>, requests: seq<Request>, log: seq<Stint>) {
    && Ok(sim, shared, all) && Answered(sim, requests) && LogOk(sim, log) && LogNames(sim, log)
    && Distinct(all) && (forall x :: x in requests ==> x in all)
  }

  lemma {:induction false} StartFine(sim: Sim, shared: set<Uuid>, all: seq<Request>, requests: seq<Request>, log: seq<Stint>,
                  r: Request, cards: seq<Uuid>)
    requires Fine(sim, shared, all, requests, log) && CanStart(sim, r, cards)
    ensures Fine(Start(sim, shared, r, cards), shared, all, requests, StartLog(sim, log, r, cards))
  {
    StartEntries(sim, shared, all, r, cards);
    StartQueues(sim, shared, all, r, cards);
    StartAnswered(sim, shared, all, requests, r, cards);
    StartLogOk(sim, shared, log, r, cards);
    StartNames(sim, shared, all, log, r, cards);
    hide Start, StartLog, EntriesOk, QueuesOk, Answered, LogOk, LogNames;
  }

  predicate Unstarted(rs: seq<Request>, ds: seq<Decision>, k: nat, r: Request)
    requires |ds| == |rs|
  {
    exists i :: 0 <= i < |rs| && rs[i] == r && (i >= k || !ds[i].Assigned?)
  }

  predicate Untouched(ds: seq<Decision>, k: nat, c: Uuid)
    requires k <= |ds|
  {
    forall i :: 0 <= i < k && ds[i].Assigned? ==> c !in ds[i].gpus
  }

  lemma {:induction false} RemoveSorted(rs: seq<Request>, r: Request)
    requires Sorted(rs)
    ensures Sorted(Remove(rs, r)) && forall x :: x in Remove(rs, r) ==> x in rs
  {
    if rs != [] && rs[0] != r {
      RemoveSorted(rs[1..], r);
      var rest := Remove(rs[1..], r);
      forall j | 0 <= j < |rest| ensures Before(rs[0].SortKey(), rest[j].SortKey()) { assert rest[j] in rs[1..]; }
    }
  }

  /** Where a round stands after `k` decisions. */
  ghost predicate Underway(sim: Sim, t: Sim, rs: seq<Request>, ds: seq<Decision>, k: nat)
    requires k <= |ds| == |rs|
  {
    && t.clock == sim.clock && Sorted(t.pending)
    && (forall r :: r in t.pending <==> Unstarted(rs, ds, k, r))
    && t.releases.Keys == sim.releases.Keys
    && (forall c :: c in sim.releases && Untouched(ds, k, c) ==> t.releases[c] == sim.releases[c])
    && (forall e :: e in sim.stoppable ==> e in t.stoppable && (e.job.jobId in sim.ends ==> e.job.jobId in t.ends && t.ends[e.job.jobId] == sim.ends[e.job.jobId]))
  }

  lemma {:induction false} UnderwayCanStart(sim: Sim, t: Sim, rs: seq<Request>, ds: seq<Decision>, k: nat)
    requires k < |ds| && Sound(sim, rs, ds) && Underway(sim, t, rs, ds, k) && ds[k].Assigned?
    ensures CanStart(t, rs[k], ds[k].gpus)
  {
    assert Unstarted(rs, ds, k, rs[k]);
    forall c | c in ds[k].gpus
      ensures c in t.releases && Past(t.releases[c], t.clock)
    {
      assert Untouched(ds, k, c);
    }
  }

  /** What one start changes, as the round sees it. */
  lemma {:induction false} StartChanges(t: Sim, shared: set<Uuid>, all: seq<Request>, r: Request, cards: seq<Uuid>)
    requires Ok(t, shared, all) && CanStart(t, r, cards) && Sorted(t.pending)
    ensures var u := Start(t, shared, r, cards);
            && u.clock == t.clock && Sorted(u.pending)
            && (forall x :: x in u.pending <==> x in t.pending && x.jobId != r.jobId)
            && u.releases.Keys == t.releases.Keys
            && (forall c :: c in t.releases && c !in cards ==> u.releases[c] == t.releases[c])
            && (forall e :: e in t.stoppable ==> e in u.stoppable && e.job.jobId != r.jobId)
            && (forall id :: id in t.ends && id != r.jobId ==> id in u.ends && u.ends[id] == t.ends[id])
  {
    StartFields(t, shared, r, cards);
    StartEntries(t, shared, all, r, cards);
    StartEnds(t, shared, r, cards);
    NotRunning(t, all, r);
    RemoveIs(t.pending, r);
    RemoveSorted(t.pending, r);
    hide Start, Remove, EntriesOk, QueuesOk, Before, Sorted, NoDup, Put;
  }

  lemma {:induction false} UnderwayNext(sim: Sim, shared: set<Uuid>, all: seq<Request>, t: Sim, rs: seq<Request>, ds: seq<Decision>, k: nat)
    requires k < |ds| && Sound(sim, rs, ds) && Underway(sim, t, rs, ds, k)
    requires Ok(t, shared, all) && Distinct(rs)
    ensures var u := if ds[k].Assigned? then Start(t, shared, rs[k], ds[k].gpus) else t;
            Underway(sim, u, rs, ds, k + 1)
  {
    var u := if ds[k].Assigned? then Start(t, shared, rs[k], ds[k].gpus) else t;
    if ds[k].Assigned? {
      UnderwayCanStart(sim, t, rs, ds, k);
      StartChanges(t, shared, all, rs[k], ds[k].gpus);
    }
    hide Start, EntriesOk, QueuesOk, Sorted, Distinct, CanStart, Unstarted, Sound;
    forall r
      ensures r in u.pending <==> Unstarted(rs, ds, k + 1, r)
    {
      NextUnstarted(rs, ds, k, r);
    }
    forall c | c in sim.releases && Untouched(ds, k + 1, c)
      ensures u.releases[c] == sim.releases[c]
    {
      assert Untouched(ds, k, c);
    }
  }

  lemma {:induction false} NextUnstarted(rs: seq<Request>, ds: seq<Decision>, k: nat, r: Request)
    requires k < |ds| == |rs| && Distinct(rs)
    ensures Unstarted(rs, ds, k + 1, r) <==> Unstarted(rs, ds, k, r) && (ds[k].Assigned? ==> r.jobId != rs[k].jobId)
  {
    if Unstarted(rs, ds, k, r) && (ds[k].Assigned? ==> r.jobId != rs[k].jobId) {
      var i :| 0 <= i < |rs| && rs[i] == r && (i >= k || !ds[i].Assigned?);
      assert i >= k + 1 || !ds[i].Assigned?;
    }
    if Unstarted(rs, ds, k + 1, r) {
      var i :| 0 <= i < |rs| && rs[i] == r && (i >= k + 1 || !ds[i].Assigned?);
      assert i >= k || !ds[i].Assigned?;
    }
  }

  lemma {:induction false} UnderwayStart(sim: Sim, rs: seq<Request>, ds: seq<Decision>)
    requires |ds| == |rs| && sim.pending == rs && Sorted(rs)
    ensures Underway(sim, sim, rs, ds, 0)
  {
    forall r
      ensures r in rs <==> Unstarted(rs, ds, 0, r)
    {
    }
  }

  lemma {:induction false} FineIs(sim: Sim, shared: set<Uuid>, all: seq<Request>, requests: seq<Request>, log: seq<Stint>)
    requires Fine(sim, shared, all, requests, log)
    ensures Ok(sim, shared, all) && Distinct(sim.pending)
  {
    hide EntriesOk, Answered, LogOk, LogNames, Distinct, DistinctEntries;
  }

  lemma {:induction false} StartAllStep(sim: Sim, shared: set<Uuid>, all: seq<Request>, requests: seq<Request>,
                                        t: Sim, log: seq<Stint>, rs: seq<Request>, ds: seq<Decision>, k: nat)
    requires k < |ds| == |rs| && Sound(sim, rs, ds) && Underway(sim, t, rs, ds, k) && Distinct(rs)
    requires Fine(t, shared, all, requests, log)
    ensures var u := if ds[k].Assigned? then Start(t, shared, rs[k], ds[k].gpus) else t;
            var more := if ds[k].Assigned? then StartLog(t, log, rs[k], ds[k].gpus) else log;
            Fine(u, shared, all, requests, more) && Underway(sim, u, rs, ds, k + 1)
  {
    hide Start, StartLog, Fine, Ok, Underway, Sound, CanStart, Sorted, Distinct;
    FineIs(t, shared, all, requests, log);
    UnderwayNext(sim, shared, all, t, rs, ds, k);
    if ds[k].Assigned? {
      UnderwayCanStart(sim, t, rs, ds, k);
      StartFine(t, shared, all, requests, log, rs[k], ds[k].gpus);
    }
  }

  /** After any number of its starts a round is still fine. */
  lemma {:induction false} StartAllFine(sim: Sim, shared: set<Uuid>, all: seq<Request>, requests: seq<Request>, log: seq<Stint>,
                                        rs: seq<Request>, ds: seq<Decision>, k: nat)
    requires k <= |ds| == |rs| && Sound(sim, rs, ds) && sim.pending == rs && Sorted(rs)
    requires Fine(sim, shared, all, requests, log)
    ensures var t := StartAll(sim, shared, rs, ds, k);
            && Fine(t, shared, all, requests, StartAllLog(sim, shared, log, rs, ds, k))
            && Underway(sim, t, rs, ds, k)
  {
    hide Start, StartLog, Fine, Underway, Sound, Sorted, Distinct;
    if k == 0 {
      UnderwayStart(sim, rs, ds);
    } else {
      FineIs(sim, shared, all, requests, log);
      StartAllFine(sim, shared, all, requests, log, rs, ds, k - 1);
      StartAllStep(sim, shared, all, requests, StartAll(sim, shared, rs, ds, k - 1),
                   StartAllLog(sim, shared, log, rs, ds, k - 1), rs, ds, k - 1);
    }
  }

  // Stops.

  /** Distinct jobs, all stoppable now. */
  predicate AllStoppable(sim: Sim, es: seq<Entry>) {
    && DistinctEntries(es)
    && forall e :: e in es ==> e in sim.stoppable && e.job.jobId in sim.ends && Live(sim, e)
  }

  function StopAll(sim: Sim, es: seq<Entry>): Sim {
    if es == [] then sim else Stop(StopAll(sim, es[..|es| - 1]), es[|es| - 1])
  }

  function StopAllLog(sim: Sim, log: seq<Stint>, es: seq<Entry>): seq<Stint> {
    if es == [] then log
    else StopLog(StopAll(sim, es[..|es| - 1]), StopAllLog(sim, log, es[..|es| - 1]), es[|es| - 1])
  }

  function AllCards(es: seq<Entry>): set<Uuid> {
    set e, c | e in es && c in e.job.gpus :: c
  }

  function Again(es: seq<Entry>): seq<Request> {
    if es == [] then [] else Again(es[..|es| - 1]) + [es[|es| - 1].again]
  }

  lemma {:induction false} StopFine(sim: Sim, shared: set<Uuid>, all: seq<Request>, requests: seq<Request>, log: seq<Stint>, e: Entry)
    requires Fine(sim, shared, all, requests, log) && e in sim.stoppable && e.job.jobId in sim.ends && Live(sim, e)
    ensures Fine(Stop(sim, e), shared, all, requests, StopLog(sim, log, e))
  {
    StopKeeps(sim, shared, all, e);
    StopAnswered(sim, shared, all, requests, e);
    StopLogOk(sim, log, e);
    StopNames(sim, shared, all, log, e);
    hide Stop, StopLog, EntriesOk, QueuesOk, Answered, LogOk, LogNames;
  }

  /** Where the stops have got to. */
  ghost predicate Stopped(sim: Sim, t: Sim, es: seq<Entry>) {
    && t.clock == sim.clock && t.ends == sim.ends && t.starts == sim.starts
    && t.pending == sim.pending + Again(es)
    && (forall e :: e in t.stoppable <==> e in sim.stoppable && e.job.jobId !in EntryIds(es))
    && t.releases.Keys == sim.releases.Keys
    && (forall c :: c in sim.releases ==> t.releases[c] == if c in AllCards(es) then Some(sim.clock) else sim.releases[c])
  }

  lemma {:induction false} LastEntry(es: seq<Entry>)
    requires es != [] && DistinctEntries(es)
    ensures var rest, e := es[..|es| - 1], es[|es| - 1];
            && e.job.jobId !in EntryIds(rest)
            && EntryIds(es) == EntryIds(rest) + {e.job.jobId}
            && AllCards(es) == AllCards(rest) + Elems(e.job.gpus)
  {
    var rest, e := es[..|es| - 1], es[|es| - 1];
    assert es == rest + [e];
  }

  lemma {:induction false} LastIsReady(sim: Sim, t: Sim, es: seq<Entry>)
    requires es != [] && AllStoppable(sim, es) && Stopped(sim, t, es[..|es| - 1])
    ensures var e := es[|es| - 1]; e in t.stoppable && e.job.jobId in t.ends && Live(t, e)
  {
    LastEntry(es);
    assert es[|es| - 1] in es;
  }

  lemma {:induction false} StoppedNext(sim: Sim, shared: set<Uuid>, all: seq<Request>, t: Sim, es: seq<Entry>)
    requires es != [] && AllStoppable(sim, es) && Ok(t, shared, all)
    requires Stopped(sim, t, es[..|es| - 1])
    ensures Stopped(sim, Stop(t, es[|es| - 1]), es)
  {
    hide Pop, EntriesOk, QueuesOk, EntryIds, AllCards, DistinctEntries, Live;
    var rest, e := es[..|es| - 1], es[|es| - 1];
    LastEntry(es);
    LastIsReady(sim, t, es);
    StopKeeps(t, shared, all, e);
    StopGpus(t, shared, e);
    StopFields(t, e);
    assert sim.pending + Again(es) == (sim.pending + Again(rest)) + [e.again];
  }

  lemma {:induction false} StopGpus(t: Sim, shared: set<Uuid>, e: Entry)
    requires EntriesOk(t, shared) && e in t.stoppable
    ensures Stop(t, e).releases.Keys == t.releases.Keys
  {
    hide Pop;
    assert EntryOk(t, shared, e);
    StopFields(t, e);
  }

  lemma {:induction false} StopAllFine(sim: Sim, shared: set<Uuid>, all: seq<Request>, requests: seq<Request>, log: seq<Stint>,
                                       es: seq<Entry>)
    requires Fine(sim, shared, all, requests, log) && AllStoppable(sim, es)
    ensures Fine(StopAll(sim, es), shared, all, requests, StopAllLog(sim, log, es))
    ensures Stopped(sim, StopAll(sim, es), es)
    decreases |es|
  {
    if es == [] {
      assert EntryIds(es) == {} && AllCards(es) == {};
    } else {
      var rest, e := es[..|es| - 1], es[|es| - 1];
      assert AllStoppable(sim, rest);
      StopAllFine(sim, shared, all, requests, log, rest);
      var t := StopAll(sim, rest);
      LastIsReady(sim, t, es);
      StoppedNext(sim, shared, all, t, es);
      StopFine(t, shared, all, requests, StopAllLog(sim, log, rest), e);
    }
  }
}
