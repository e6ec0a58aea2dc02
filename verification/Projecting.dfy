/** `project` of gpuc/host/plan.py: when each queued job is expected to start,
    by replaying the dispatch rule over the running jobs' end times. */
module Projecting {
  import opened Lists
  import opened Preempt
  import opened Rule
  import opened RuleTheorems
  import opened Pass
  import opened Simulation
  import opened Rounds
  import opened Owing
  import opened Countdown
  import opened History

  /** Why a job has no start time. */
  datatype Unknown =
    | NeverFits(reason: Reason)
    | TheirCards(short: int)
    | Behind(holder: JobId)
    | NoEndTime
    | Draining

  datatype Projection = Projection(
    starts: map<JobId, real>, unknown: map<JobId, Unknown>, yieldsTo: map<JobId, JobId>)

  // The cards of a projection.

  function Uuids(cards: seq<Card>): (r: seq<Uuid>)
    ensures |r| == |cards|
    ensures forall i :: 0 <= i < |cards| ==> r[i] == cards[i].uuid
  {
    seq(|cards|, i requires 0 <= i < |cards| => cards[i].uuid)
  }

  function OfKind(cards: seq<Card>, shared: bool): seq<Uuid> {
    if cards == [] then []
    else if cards[0].shared == shared then [cards[0].uuid] + OfKind(cards[1..], shared)
    else OfKind(cards[1..], shared)
  }

  predicate IsKind(cards: seq<Card>, shared: bool, c: Uuid) {
    exists i :: 0 <= i < |cards| && cards[i].uuid == c && cards[i].shared == shared
  }

  lemma {:induction false} OfKindIs(cards: seq<Card>, shared: bool)
    requires NoDup(Uuids(cards))
    ensures NoDup(OfKind(cards, shared))
    ensures forall c :: c in OfKind(cards, shared) <==> IsKind(cards, shared, c)
  {
    if cards != [] {
      var rest := cards[1..];
      assert Uuids(cards)[1..] == Uuids(rest);
      OfKindIs(rest, shared);
      forall c
        ensures IsKind(cards, shared, c) <==> (cards[0].uuid == c && cards[0].shared == shared) || IsKind(rest, shared, c)
      {
        if i :| 0 < i < |cards| && cards[i].uuid == c && cards[i].shared == shared {
          assert rest[i - 1] == cards[i];
        }
        if i :| 0 <= i < |rest| && rest[i].uuid == c && rest[i].shared == shared {
          assert cards[i + 1] == rest[i];
        }
      }
      assert cards[0].uuid !in OfKind(rest, shared) by {
        forall i | 0 <= i < |rest| ensures rest[i].uuid != cards[0].uuid { assert Uuids(cards)[i + 1] == rest[i].uuid; }
      }
    }
  }

  lemma {:induction false} KindsApart(cards: seq<Card>)
    requires NoDup(Uuids(cards))
    ensures Apart(OfKind(cards, false), OfKind(cards, true))
    ensures forall c :: c in OfKind(cards, false) || c in OfKind(cards, true) <==> c in Uuids(cards)
  {
    OfKindIs(cards, false);
    OfKindIs(cards, true);
    forall c | c in OfKind(cards, false)
      ensures c !in OfKind(cards, true)
    {
      var i :| 0 <= i < |cards| && cards[i].uuid == c && !cards[i].shared;
      forall j | 0 <= j < |cards| && cards[j].uuid == c ensures !cards[j].shared {
        assert Uuids(cards)[i] == Uuids(cards)[j];
      }
    }
    forall c | c in Uuids(cards)
      ensures c in OfKind(cards, false) || c in OfKind(cards, true)
    {
      var i :| 0 <= i < |cards| && cards[i].uuid == c;
      assert IsKind(cards, cards[i].shared, c);
    }
  }

  function Release(cards: seq<Card>): map<Uuid, Option<real>> {
    if cards == [] then map[] else Release(cards[..|cards| - 1])[cards[|cards| - 1].uuid := cards[|cards| - 1].release]
  }

  lemma {:induction false} ReleaseIs(cards: seq<Card>)
    requires NoDup(Uuids(cards))
    ensures Release(cards).Keys == Elems(Uuids(cards))
    ensures forall i :: 0 <= i < |cards| ==> cards[i].uuid in Release(cards) && Release(cards)[cards[i].uuid] == cards[i].release
    decreases |cards|
  {
    if cards != [] {
      var rest, last := cards[..|cards| - 1], cards[|cards| - 1];
      assert Uuids(cards) == Uuids(rest) + [last.uuid];
      ReleaseIs(rest);
      forall i | 0 <= i < |cards|
        ensures cards[i].uuid in Release(cards) && Release(cards)[cards[i].uuid] == cards[i].release
      {
        if i < |rest| {
          assert cards[i] == rest[i] && Uuids(cards)[i] != Uuids(cards)[|rest|];
        }
      }
    }
  }

  // What `status` tells a running `auto_preempt` job.

  /** The first queued job ahead of this running one that could use its cards. */
  function YieldsTo(job: Preemptable, requests: seq<Request>): Option<JobId> {
    if requests == [] then None
    else if Before(requests[0].SortKey(), job.SortKey()) && requests[0].gpus > 0 && job.Frees(requests[0].borrows) > 0
    then Some(requests[0].jobId)
    else YieldsTo(job, requests[1..])
  }

  /** It is the first that automatic preemption would consider this job for. */
  lemma {:induction false} YieldsToIsEligible(job: Preemptable, requests: seq<Request>)
    ensures YieldsTo(job, requests).None? <==>
            forall i :: 0 <= i < |requests| && requests[i].gpus > 0 ==> !Eligible(job, requests[i].SortKey(), requests[i].borrows)
    ensures YieldsTo(job, requests).Some? ==>
            exists i :: 0 <= i < |requests| && requests[i].jobId == YieldsTo(job, requests).value
                        && requests[i].gpus > 0 && Eligible(job, requests[i].SortKey(), requests[i].borrows)
                        && forall j :: 0 <= j < i && requests[j].gpus > 0 ==> !Eligible(job, requests[j].SortKey(), requests[j].borrows)
  {
    if requests != [] {
      YieldsToIsEligible(job, requests[1..]);
      var here := requests[0].gpus > 0 && Eligible(job, requests[0].SortKey(), requests[0].borrows);
      if !here && YieldsTo(job, requests).Some? {
        var i :| 0 <= i < |requests[1..]| && requests[1..][i].jobId == YieldsTo(job, requests).value
                 && requests[1..][i].gpus > 0 && Eligible(job, requests[1..][i].SortKey(), requests[1..][i].borrows)
                 && forall j :: 0 <= j < i && requests[1..][j].gpus > 0 ==> !Eligible(job, requests[1..][j].SortKey(), requests[1..][j].borrows);
        forall j | 0 <= j < i + 1 && requests[j].gpus > 0
          ensures !Eligible(job, requests[j].SortKey(), requests[j].borrows)
        {
          if j > 0 { assert requests[j] == requests[1..][j - 1]; }
        }
        assert requests[i + 1] == requests[1..][i];
      } else if !here {
        forall i | 0 <= i < |requests| && requests[i].gpus > 0
          ensures !Eligible(job, requests[i].SortKey(), requests[i].borrows)
        {
          if i > 0 { assert requests[i] == requests[1..][i - 1]; }
        }
      }
    }
  }

  function GivesWay(running: seq<Entry>, requests: seq<Request>): map<JobId, JobId> {
    if running == [] then map[]
    else
      var before, last := GivesWay(running[..|running| - 1], requests), running[|running| - 1].job;
      match YieldsTo(last, requests)
      case None => before
      case Some(to) => before[last.jobId := to]
  }

  /** The first queued job asking for cards that automatic preemption would
      consider stopping this one for. */
  predicate FirstFor(job: Preemptable, requests: seq<Request>, i: nat) {
    && i < |requests| && requests[i].gpus > 0 && Eligible(job, requests[i].SortKey(), requests[i].borrows)
    && forall j :: 0 <= j < i && requests[j].gpus > 0 ==> !Eligible(job, requests[j].SortKey(), requests[j].borrows)
  }

  predicate IsTold(told: map<JobId, JobId>, job: JobId, to: JobId) {
    job in told && told[job] == to
  }

  /** Each running job that would be stopped for some queued one is told the
      first of those, and no other job is told anything. */
  ghost predicate TellsTheFirst(told: map<JobId, JobId>, running: seq<Entry>, requests: seq<Request>) {
    && (forall e, i: nat :: e in running && FirstFor(e.job, requests, i) ==> IsTold(told, e.job.jobId, requests[i].jobId))
    && (forall id :: id in told ==> GivesWayToSome(running, requests, id))
  }

  ghost predicate GivesWayToSome(running: seq<Entry>, requests: seq<Request>, id: JobId) {
    exists e :: e in running && e.job.jobId == id && WouldYield(e.job, requests)
  }

  ghost predicate WouldYield(job: Preemptable, requests: seq<Request>) {
    exists i: nat :: FirstFor(job, requests, i)
  }

  lemma {:induction false} YieldsToTheFirst(job: Preemptable, requests: seq<Request>)
    ensures forall i: nat :: FirstFor(job, requests, i) ==> YieldsTo(job, requests) == Some(requests[i].jobId)
    ensures YieldsTo(job, requests).Some? ==> WouldYield(job, requests)
  {
    hide Eligible;
    YieldsToIsEligible(job, requests);
    if YieldsTo(job, requests).Some? {
      var k :| 0 <= k < |requests| && requests[k].jobId == YieldsTo(job, requests).value
               && requests[k].gpus > 0 && Eligible(job, requests[k].SortKey(), requests[k].borrows)
               && forall j :: 0 <= j < k && requests[j].gpus > 0 ==> !Eligible(job, requests[j].SortKey(), requests[j].borrows);
      assert FirstFor(job, requests, k);
      forall i: nat | FirstFor(job, requests, i)
        ensures i == k
      {
      }
    }
    hide YieldsTo;
  }

  lemma {:induction false} ToldOnce(rest: seq<Entry>, last: Entry, requests: seq<Request>, before: map<JobId, JobId>, to: Option<JobId>, e: Entry, i: nat)
    requires TellsTheFirst(before, rest, requests) && forall f :: f in rest ==> f.job.jobId != last.job.jobId
    requires forall k: nat :: FirstFor(last.job, requests, k) ==> to == Some(requests[k].jobId)
    requires e in rest + [last] && FirstFor(e.job, requests, i)
    ensures var all := if to.None? then before else before[last.job.jobId := to.value];
            i < |requests| && IsTold(all, e.job.jobId, requests[i].jobId)
  {
    hide GivesWayToSome, Eligible;
    if e in rest {
      assert IsTold(before, e.job.jobId, requests[i].jobId);
    }
  }

  lemma {:induction false} ToldForSome(rest: seq<Entry>, last: Entry, requests: seq<Request>, before: map<JobId, JobId>, to: Option<JobId>, id: JobId)
    requires TellsTheFirst(before, rest, requests) && (to.Some? ==> WouldYield(last.job, requests))
    requires id in if to.None? then before else before[last.job.jobId := to.value]
    ensures GivesWayToSome(rest + [last], requests, id)
  {
    hide FirstFor, WouldYield;
    if to.Some? && id == last.job.jobId {
      assert last in rest + [last];
    } else {
      assert GivesWayToSome(rest, requests, id);
      var e :| e in rest && e.job.jobId == id && WouldYield(e.job, requests);
      assert e in rest + [last];
    }
  }

  lemma {:induction false} GivesWayStep(rest: seq<Entry>, last: Entry, requests: seq<Request>, before: map<JobId, JobId>, to: Option<JobId>)
    requires TellsTheFirst(before, rest, requests) && forall e :: e in rest ==> e.job.jobId != last.job.jobId
    requires forall i: nat :: FirstFor(last.job, requests, i) ==> to == Some(requests[i].jobId)
    requires to.Some? ==> WouldYield(last.job, requests)
    ensures TellsTheFirst(if to.None? then before else before[last.job.jobId := to.value], rest + [last], requests)
  {
    var running, all := rest + [last], if to.None? then before else before[last.job.jobId := to.value];
    hide FirstFor, GivesWayToSome, WouldYield, IsTold;
    forall e, i: nat | e in running && FirstFor(e.job, requests, i)
      ensures i < |requests| && IsTold(all, e.job.jobId, requests[i].jobId)
    {
      ToldOnce(rest, last, requests, before, to, e, i);
    }
    forall id | id in all
      ensures GivesWayToSome(running, requests, id)
    {
      ToldForSome(rest, last, requests, before, to, id);
    }
  }

  lemma {:induction false} GivesWayIs(running: seq<Entry>, requests: seq<Request>)
    requires DistinctEntries(running)
    ensures TellsTheFirst(GivesWay(running, requests), running, requests)
  {
    hide YieldsTo, FirstFor;
    if running == [] {
      hide GivesWayToSome;
      assert GivesWay(running, requests) == map[];
    } else {
      var rest, last := running[..|running| - 1], running[|running| - 1];
      GivesWayIs(rest, requests);
      YieldsToTheFirst(last.job, requests);
      assert forall e :: e in rest ==> e.job.jobId != last.job.jobId;
      hide TellsTheFirst;
      GivesWayStep(rest, last, requests, GivesWay(rest, requests), YieldsTo(last.job, requests));
      assert rest + [last] == running;
    }
  }

  // What a caller provides.

  predicate Matches(e: Entry, cards: seq<Card>, shared: set<Uuid>) {
    && e.job.jobId == e.again.jobId && e.job.priority == e.again.priority
    && Counted(e, shared)
    && (forall c :: c in e.job.gpus ==> c in Uuids(cards))
    && (forall i, j :: 0 <= i < |cards| && 0 <= j < |cards| && cards[i].uuid in e.job.gpus && cards[j].uuid in e.job.gpus ==>
         cards[i].release == cards[j].release)
  }

  /** Each card once; the queue in order; every stoppable job the one it is
      queued again as, on cards of this host that it alone holds and that all
      come free together. */
  predicate Given(requests: seq<Request>, cards: seq<Card>, running: seq<Entry>) {
    && NoDup(Uuids(cards)) && Sorted(requests) && Distinct(requests)
    && DistinctEntries(running) && RequestIds(requests) !! EntryIds(running) && CardsApart(running)
    && forall e :: e in running ==> Matches(e, cards, Elems(OfKind(cards, true)))
  }

  function Ends(running: seq<Entry>, releases: map<Uuid, Option<real>>): map<JobId, Option<real>> {
    map e | e in running :: e.job.jobId := EndOf(running, releases, e.job.jobId)
  }

  function EndOf(running: seq<Entry>, releases: map<Uuid, Option<real>>, id: JobId): Option<real> {
    if running == [] then None
    else if running[0].job.jobId == id
    then if running[0].job.gpus != [] && running[0].job.gpus[0] in releases then releases[running[0].job.gpus[0]] else None
    else EndOf(running[1..], releases, id)
  }

  lemma {:induction false} EndOfIs(running: seq<Entry>, releases: map<Uuid, Option<real>>, k: nat)
    requires DistinctEntries(running) && k < |running|
    ensures EndOf(running, releases, running[k].job.jobId)
         == if running[k].job.gpus != [] && running[k].job.gpus[0] in releases then releases[running[k].job.gpus[0]] else None
  {
    if k > 0 {
      EndOfIs(running[1..], releases, k - 1);
    }
  }

  function Initially(requests: seq<Request>, cards: seq<Card>, running: seq<Entry>): Sim {
    var releases := Release(cards);
    Sim(releases, running, Ends(running, releases), requests, map[], 0.0)
  }

  function FirstStints(cards: seq<Card>, running: seq<Entry>): (log: seq<Stint>)
    ensures |log| == |cards|
    ensures forall i :: 0 <= i < |cards| ==> log[i] == Stint(HolderOf(running, cards[i].uuid), cards[i].uuid, 0.0, cards[i].release)
  {
    seq(|cards|, i requires 0 <= i < |cards| => Stint(HolderOf(running, cards[i].uuid), cards[i].uuid, 0.0, cards[i].release))
  }

  /** Every job that may be started, most urgent first. */
  function Everyone(requests: seq<Request>, running: seq<Entry>): seq<Request> {
    ByKey(requests + Again(running))
  }

  lemma {:induction false} AgainAt(es: seq<Entry>, i: nat)
    requires i < |es|
    ensures |Again(es)| == |es| && Again(es)[i] == es[i].again
    decreases |es|
  {
    if i < |es| - 1 {
      AgainAt(es[..|es| - 1], i);
    } else if |es| > 1 {
      AgainAt(es[..|es| - 1], 0);
    }
  }

  lemma {:induction false} AgainLength(es: seq<Entry>)
    ensures |Again(es)| == |es|
    decreases |es|
  {
    if es != [] {
      AgainLength(es[..|es| - 1]);
    }
  }

  lemma {:induction false} EveryoneIs(requests: seq<Request>, cards: seq<Card>, running: seq<Entry>)
    requires Given(requests, cards, running)
    ensures var all := Everyone(requests, running);
            && Sorted(all) && Distinct(all)
            && (forall r :: r in requests ==> r in all)
            && (forall e :: e in running ==> e.again in all)
  {
    var some := requests + Again(running);
    AgainLength(running);
    forall i, j | 0 <= i < j < |some|
      ensures some[i].jobId != some[j].jobId
    {
      if |requests| <= j {
        AgainAt(running, j - |requests|);
        var e := running[j - |requests|];
        assert Matches(e, cards, Elems(OfKind(cards, true))) && e.job.jobId in EntryIds(running);
        if i < |requests| {
          assert requests[i].jobId in RequestIds(requests);
        } else {
          AgainAt(running, i - |requests|);
          assert Matches(running[i - |requests|], cards, Elems(OfKind(cards, true)));
        }
      }
    }
    ByKeyIs(some);
    var all := ByKey(some);
    hide ByKey;
    forall i, j | 0 <= i < j < |all|
      ensures all[i].jobId != all[j].jobId
    {
      assert all[i] in some && all[j] in some;
      SameId(some, all[i], all[j]);
    }
    forall e | e in running
      ensures e.again in all
    {
      AgainIs(running, e.again);
      assert e.again in some;
    }
  }

  lemma {:induction false} HolderIs(running: seq<Entry>, k: nat, c: Uuid)
    requires k < |running| && CardsApart(running) && c in running[k].job.gpus
    ensures HolderOf(running, c) == Some(running[k].job.jobId)
  {
    if k > 0 {
      assert c !in running[0].job.gpus;
      HolderIs(running[1..], k - 1, c);
    }
  }

  lemma {:induction false} CommonEnd(cards: seq<Card>, shared: set<Uuid>, e: Entry, c: Uuid)
    requires NoDup(Uuids(cards)) && Matches(e, cards, shared) && c in e.job.gpus
    ensures c in Release(cards) && e.job.gpus[0] in Release(cards) && Release(cards)[c] == Release(cards)[e.job.gpus[0]]
  {
    ReleaseIs(cards);
    hide Release, Counted, NoDup;
    assert e.job.gpus[0] in e.job.gpus;
    assert c in Uuids(cards) && e.job.gpus[0] in Uuids(cards);
    var i :| 0 <= i < |cards| && cards[i].uuid == c;
    var j :| 0 <= j < |cards| && cards[j].uuid == e.job.gpus[0];
  }

  lemma {:induction false} InitiallyEntry(requests: seq<Request>, cards: seq<Card>, running: seq<Entry>, k: nat)
    requires Given(requests, cards, running) && k < |running|
    ensures EntryOk(Initially(requests, cards, running), Elems(OfKind(cards, true)), running[k])
  {
    var sim, shared, e := Initially(requests, cards, running), Elems(OfKind(cards, true)), running[k];
    assert e in running;
    EndOfIs(running, sim.releases, k);
    assert sim.ends[e.job.jobId] == EndOf(running, sim.releases, e.job.jobId);
    hide Release, OfKind, DistinctEntries, EndOf, CardsApart, Sorted, Distinct;
    forall c | c in e.job.gpus
      ensures c in sim.releases && sim.releases[c] == sim.ends[e.job.jobId]
    {
      CommonEnd(cards, shared, e, c);
    }
  }

  lemma {:induction false} InitiallyEntries(requests: seq<Request>, cards: seq<Card>, running: seq<Entry>)
    requires Given(requests, cards, running)
    ensures EntriesOk(Initially(requests, cards, running), Elems(OfKind(cards, true)))
  {
    var sim, shared := Initially(requests, cards, running), Elems(OfKind(cards, true));
    assert sim.stoppable == running;
    hide Initially, OfKind, EntryOk, Matches, DistinctEntries;
    forall e | e in running
      ensures EntryOk(sim, shared, e)
    {
      var k :| 0 <= k < |running| && running[k] == e;
      InitiallyEntry(requests, cards, running, k);
    }
    forall e | e in running ensures e.job.jobId in sim.ends { EndsThere(sim, shared, e); }
    RunningApart(running);
    hide CardsApart;
  }

  lemma {:induction false} RunningApart(running: seq<Entry>)
    requires CardsApart(running)
    ensures forall e, f :: e in running && f in running && e.job.jobId != f.job.jobId ==> Apart(e.job.gpus, f.job.gpus)
  {
    forall e, f | e in running && f in running && e.job.jobId != f.job.jobId
      ensures Apart(e.job.gpus, f.job.gpus)
    {
      var i :| 0 <= i < |running| && running[i] == e;
      var j :| 0 <= j < |running| && running[j] == f;
      ApartBoth(e.job.gpus, f.job.gpus);
      assert i < j || j < i;
    }
  }

  lemma {:induction false} EndsThere(sim: Sim, shared: set<Uuid>, e: Entry)
    requires EntryOk(sim, shared, e)
    ensures e.job.jobId in sim.ends
  {
  }

  lemma {:induction false} InitiallyLog(requests: seq<Request>, cards: seq<Card>, running: seq<Entry>)
    requires Given(requests, cards, running)
    ensures var sim, log := Initially(requests, cards, running), FirstStints(cards, running);
            LogOk(sim, log) && LogNames(sim, log) && Incumbents(log, cards, running)
  {
    var sim, log := Initially(requests, cards, running), FirstStints(cards, running);
    ReleaseIs(cards);
    hide Release, OfKind, FirstStints;
    forall i, j | 0 <= i < j < |log|
      ensures log[i].card != log[j].card
    {
      assert Uuids(cards)[i] != Uuids(cards)[j];
    }
    forall e, i | e in sim.stoppable && 0 <= i < |log| && log[i].card in e.job.gpus
      ensures log[i].job == Some(e.job.jobId)
    {
      var k :| 0 <= k < |running| && running[k] == e;
      HolderIs(running, k, log[i].card);
    }
  }

  lemma {:induction false} InitiallyFine(requests: seq<Request>, cards: seq<Card>, running: seq<Entry>)
    requires Given(requests, cards, running)
    ensures Fine(Initially(requests, cards, running), Elems(OfKind(cards, true)), Everyone(requests, running), requests,
                 FirstStints(cards, running))
  {
    EveryoneIs(requests, cards, running);
    InitiallyEntries(requests, cards, running);
    InitiallyLog(requests, cards, running);
    var sim := Initially(requests, cards, running);
    assert sim.pending == requests && sim.stoppable == running && sim.starts == map[];
    hide Everyone, Initially, EntriesOk, LogOk, LogNames, FirstStints, OfKind, CardsApart, Matches, Uuids;
    forall r | r in requests
      ensures r.jobId !in EntryIds(running)
    {
      assert r.jobId in RequestIds(requests);
    }
  }
}
