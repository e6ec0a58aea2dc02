/** The state `project` (gpuc/host/plan.py) carries forward in simulated time,
    and what starting a job, stopping one and moving the clock do to it. */
module Simulation {
  import opened Lists
  import opened Preempt
  import opened Rule

  /** A card the projection may schedule onto, and when it is free: `None` when
      nothing can say. */
  datatype Card = Card(uuid: Uuid, shared: bool, release: Option<real>)

  /** A running `auto_preempt` job, and the request it is queued again as. */
  datatype Entry = Entry(job: Preemptable, again: Request)

  datatype Sim = Sim(
    releases: map<Uuid, Option<real>>,
    stoppable: seq<Entry>,
    ends: map<JobId, Option<real>>,
    pending: seq<Request>,
    starts: map<JobId, real>,
    clock: real)

  /** One card under one job, from a moment until another or for good. `None`
      is whatever held the card when the projection began. */
  datatype Stint = Stint(job: Option<JobId>, card: Uuid, from: real, until: Option<real>)

  predicate Past(at: Option<real>, clock: real) {
    at.Some? && at.value <= clock
  }

  function RequestIds(rs: seq<Request>): set<JobId> {
    set r | r in rs :: r.jobId
  }

  function EntryIds(es: seq<Entry>): set<JobId> {
    set e | e in es :: e.job.jobId
  }

  predicate Distinct(rs: seq<Request>) {
    forall i, j :: 0 <= i < j < |rs| ==> rs[i].jobId != rs[j].jobId
  }

  /** `pending.remove(request)` */
  function Remove(rs: seq<Request>, r: Request): seq<Request> {
    if rs == [] then [] else if rs[0] == r then rs[1..] else [rs[0]] + Remove(rs[1..], r)
  }

  lemma {:induction false} RemoveIs(rs: seq<Request>, r: Request)
    requires Distinct(rs) && r in rs
    ensures Distinct(Remove(rs, r))
    ensures forall x :: x in Remove(rs, r) <==> x in rs && x.jobId != r.jobId
  {
    assert rs == [rs[0]] + rs[1..];
    if rs[0] != r {
      RemoveIs(rs[1..], r);
      var rest := Remove(rs[1..], r);
      forall j | 0 <= j < |rest| ensures rest[j].jobId != rs[0].jobId { assert rest[j] in rs[1..]; }
    }
  }

  /** `stoppable.pop(job_id)` */
  function Pop(es: seq<Entry>, id: JobId): seq<Entry> {
    if es == [] then [] else if es[0].job.jobId == id then es[1..] else [es[0]] + Pop(es[1..], id)
  }

  predicate DistinctEntries(es: seq<Entry>) {
    forall i, j :: 0 <= i < j < |es| ==> es[i].job.jobId != es[j].job.jobId
  }

  lemma {:induction false} PopIs(es: seq<Entry>, id: JobId)
    requires DistinctEntries(es)
    ensures DistinctEntries(Pop(es, id))
    ensures forall e :: e in Pop(es, id) <==> e in es && e.job.jobId != id
  {
    if es != [] {
      assert es == [es[0]] + es[1..];
      PopIs(es[1..], id);
      var rest := Pop(es[1..], id);
      forall j | 0 <= j < |rest| ensures rest[j].job.jobId != es[0].job.jobId { assert rest[j] in es[1..]; }
    }
  }

  /** `stoppable[job_id] = entry`: in place if it is there already. */
  function Put(es: seq<Entry>, e: Entry): seq<Entry> {
    if es == [] then [e] else if es[0].job.jobId == e.job.jobId then [e] + es[1..] else [es[0]] + Put(es[1..], e)
  }

  lemma {:induction false} PutNew(es: seq<Entry>, e: Entry)
    requires e.job.jobId !in EntryIds(es)
    ensures Put(es, e) == es + [e]
  {
    if es != [] {
      assert es[0].job.jobId in EntryIds(es);
      forall x | x in es[1..] ensures x.job.jobId in EntryIds(es) { assert x in es; }
      PutNew(es[1..], e);
    }
  }

  // What a stoppable job is known to hold.

  predicate Live(sim: Sim, e: Entry)
    requires e.job.jobId in sim.ends
  {
    !Past(sim.ends[e.job.jobId], sim.clock)
  }

  predicate EntryOk(sim: Sim, shared: set<Uuid>, e: Entry) {
    && e.job.jobId == e.again.jobId && e.job.priority == e.again.priority
    && e.job.jobId in sim.ends
    && NoDup(e.job.gpus)
    && e.job.owned == |Without(e.job.gpus, shared)| && e.job.borrowed == |Within(e.job.gpus, shared)|
    && (forall c :: c in e.job.gpus ==> c in sim.releases)
    && (Live(sim, e) ==> forall c :: c in e.job.gpus ==> sim.releases[c] == sim.ends[e.job.jobId])
  }

  /** No two of them share a card. */
  predicate PairsApart(sim: Sim) {
    forall e, f :: (e in sim.stoppable && f in sim.stoppable && e.job.jobId != f.job.jobId
                    && LiveThere(sim, e) && LiveThere(sim, f)) ==> Apart(e.job.gpus, f.job.gpus)
  }

  predicate LiveThere(sim: Sim, e: Entry) {
    e.job.jobId in sim.ends && Live(sim, e)
  }

  predicate EntriesOk(sim: Sim, shared: set<Uuid>) {
    (forall e :: e in sim.stoppable ==> EntryOk(sim, shared, e)) && PairsApart(sim)
  }

  predicate QueuesOk(sim: Sim, all: seq<Request>) {
    && Distinct(sim.pending) && DistinctEntries(sim.stoppable)
    && RequestIds(sim.pending) !! EntryIds(sim.stoppable)
    && (forall r :: r in sim.pending ==> r in all)
    && (forall e :: e in sim.stoppable ==> e.again in all)
  }

  predicate Ok(sim: Sim, shared: set<Uuid>, all: seq<Request>) {
    EntriesOk(sim, shared) && QueuesOk(sim, all)
  }

  /** Where every queued job stands: started, or still in the queue; and one
      that may not be stopped is not in both. */
  predicate Answered(sim: Sim, requests: seq<Request>) {
    forall r :: r in requests ==>
      && (r.jobId in sim.starts || r in sim.pending)
      && (!r.fills ==> r.jobId !in EntryIds(sim.stoppable)
                       && (r.jobId in sim.starts ==> r.jobId !in RequestIds(sim.pending)))
  }

  // Who has been on which card.

  predicate LogOk(sim: Sim, log: seq<Stint>) {
    && (forall i :: 0 <= i < |log| ==>
         && log[i].from <= sim.clock
         && log[i].card in sim.releases
         && (Past(log[i].until, sim.clock) || log[i].until == sim.releases[log[i].card]))
    && OneAtATime(log)
  }

  /** Time never goes back, and no card is under two jobs at once: a stint is
      over when the next on its card begins. */
  predicate OneAtATime(log: seq<Stint>) {
    forall i, j :: 0 <= i < j < |log| ==>
      log[i].from <= log[j].from && (log[i].card == log[j].card ==> Past(log[i].until, log[j].from))
  }

  /** The stints under way on a stoppable job's cards are its own. */
  predicate LogNames(sim: Sim, log: seq<Stint>) {
    forall e, i :: (e in sim.stoppable && 0 <= i < |log| && log[i].card in e.job.gpus
                    && e.job.jobId in sim.ends && Live(sim, e) && !Past(log[i].until, sim.clock))
                   ==> log[i].job == Some(e.job.jobId)
  }

  // Starting a job.

  function Done(sim: Sim, r: Request): Option<real> {
    if r.estimate.None? then None else Some(sim.clock + r.estimate.value)
  }

  function Started(sim: Sim, shared: set<Uuid>, r: Request, cards: seq<Uuid>): Entry {
    Entry(Preemptable(r.jobId, r.priority, cards, sim.clock, |cards| - |Within(cards, shared)|, |Within(cards, shared)|), r)
  }

  function Start(sim: Sim, shared: set<Uuid>, r: Request, cards: seq<Uuid>): Sim {
    var done := Done(sim, r);
    sim.(starts := if r.jobId in sim.starts then sim.starts else sim.starts[r.jobId := sim.clock],
         releases := sim.releases + map c | c in cards :: done,
         pending := Remove(sim.pending, r),
         stoppable := if r.fills && cards != [] then Put(sim.stoppable, Started(sim, shared, r, cards)) else sim.stoppable,
         ends := if r.fills && cards != [] then sim.ends[r.jobId := done] else sim.ends)
  }

  function StartLog(sim: Sim, log: seq<Stint>, r: Request, cards: seq<Uuid>): seq<Stint> {
    log + seq(|cards|, i requires 0 <= i < |cards| => Stint(Some(r.jobId), cards[i], sim.clock, Done(sim, r)))
  }

  /** A queued job and distinct cards that are free now. */
  predicate CanStart(sim: Sim, r: Request, cards: seq<Uuid>) {
    && r in sim.pending && NoDup(cards)
    && forall c :: c in cards ==> c in sim.releases && Past(sim.releases[c], sim.clock)
  }

  lemma {:induction false} NotRunning(sim: Sim, all: seq<Request>, r: Request)
    requires QueuesOk(sim, all) && r in sim.pending
    ensures r.jobId !in EntryIds(sim.stoppable)
    ensures forall e :: e in sim.stoppable ==> e.job.jobId != r.jobId
  {
    hide Distinct, DistinctEntries;
    assert r.jobId in RequestIds(sim.pending);
    forall e | e in sim.stoppable ensures e.job.jobId in EntryIds(sim.stoppable) { }
  }

  lemma {:induction false} StartEnds(sim: Sim, shared: set<Uuid>, r: Request, cards: seq<Uuid>)
    ensures var t := Start(sim, shared, r, cards);
            && (forall id :: id in sim.ends && id != r.jobId ==> id in t.ends && t.ends[id] == sim.ends[id])
            && (r.fills && cards != [] ==> r.jobId in t.ends && t.ends[r.jobId] == Done(sim, r))
            && t.stoppable == if r.fills && cards != [] then Put(sim.stoppable, Started(sim, shared, r, cards)) else sim.stoppable
  {
    hide Put, Remove, Within;
  }

  /** A job that was stoppable still is, and its cards are none of the new ones. */
  lemma {:induction false} StartOld(sim: Sim, shared: set<Uuid>, all: seq<Request>, r: Request, cards: seq<Uuid>, e: Entry)
    requires Ok(sim, shared, all) && CanStart(sim, r, cards) && e in sim.stoppable
    ensures var t := Start(sim, shared, r, cards);
            && EntryOk(t, shared, e) && Live(t, e) == Live(sim, e)
            && (Live(sim, e) ==> Apart(e.job.gpus, cards))
  {
    assert EntryOk(sim, shared, e);
    NotRunning(sim, all, r);
    StartFields(sim, shared, r, cards);
    StartEnds(sim, shared, r, cards);
    hide Start, Without, Within, NoDup, QueuesOk, EntriesOk, Done;
  }

  lemma {:induction false} StartNew(sim: Sim, shared: set<Uuid>, r: Request, cards: seq<Uuid>)
    requires CanStart(sim, r, cards) && r.fills && cards != []
    ensures EntryOk(Start(sim, shared, r, cards), shared, Started(sim, shared, r, cards))
  {
    SplitCount(cards, shared);
    StartFields(sim, shared, r, cards);
    StartEnds(sim, shared, r, cards);
    hide Start, Without, Within, NoDup, Done;
  }

  lemma {:induction false} StartPairs(sim: Sim, shared: set<Uuid>, all: seq<Request>, r: Request, cards: seq<Uuid>, n: Entry)
    requires Ok(sim, shared, all) && CanStart(sim, r, cards) && n.job.gpus == cards
    requires var t := Start(sim, shared, r, cards); forall e :: e in t.stoppable ==> e in sim.stoppable || e == n
    ensures PairsApart(Start(sim, shared, r, cards))
  {
    var t := Start(sim, shared, r, cards);
    hide Start, EntryOk, QueuesOk, Live, Apart, CanStart;
    forall e, f | (e in t.stoppable && f in t.stoppable && e.job.jobId != f.job.jobId && LiveThere(t, e) && LiveThere(t, f))
      ensures Apart(e.job.gpus, f.job.gpus)
    {
      if e in sim.stoppable {
        StartOld(sim, shared, all, r, cards, e);
        OldEnds(sim, shared, e);
      }
      if f in sim.stoppable {
        StartOld(sim, shared, all, r, cards, f);
        OldEnds(sim, shared, f);
        ApartBoth(f.job.gpus, cards);
      }
    }
  }

  lemma {:induction false} StartEntries(sim: Sim, shared: set<Uuid>, all: seq<Request>, r: Request, cards: seq<Uuid>)
    requires Ok(sim, shared, all) && CanStart(sim, r, cards)
    ensures EntriesOk(Start(sim, shared, r, cards), shared)
    ensures Start(sim, shared, r, cards).stoppable
         == sim.stoppable + if r.fills && cards != [] then [Started(sim, shared, r, cards)] else []
  {
    var t, n := Start(sim, shared, r, cards), Started(sim, shared, r, cards);
    NotRunning(sim, all, r);
    StartEnds(sim, shared, r, cards);
    PutNew(sim.stoppable, n);
    assert n.job.gpus == cards;
    hide Start, Put, EntryOk, QueuesOk, Started, Live, PairsApart, CanStart;
    assert forall e :: e in t.stoppable ==> e in sim.stoppable || e == n;
    StartPairs(sim, shared, all, r, cards, n);
    forall e | e in t.stoppable
      ensures EntryOk(t, shared, e)
    {
      if e in sim.stoppable {
        StartOld(sim, shared, all, r, cards, e);
      } else {
        StartNew(sim, shared, r, cards);
      }
    }
  }

  lemma {:induction false} EntryEnds(sim: Sim, shared: set<Uuid>, e: Entry)
    requires EntryOk(sim, shared, e)
    ensures e.job.jobId in sim.ends
  {
  }

  lemma {:induction false} AppendDistinct(es: seq<Entry>, n: Entry)
    requires DistinctEntries(es) && forall e :: e in es ==> e.job.jobId != n.job.jobId
    ensures DistinctEntries(es + [n])
  {
  }

  lemma {:induction false} StartQueues(sim: Sim, shared: set<Uuid>, all: seq<Request>, r: Request, cards: seq<Uuid>)
    requires Ok(sim, shared, all) && CanStart(sim, r, cards)
    ensures QueuesOk(Start(sim, shared, r, cards), all)
  {
    var t, n := Start(sim, shared, r, cards), Started(sim, shared, r, cards);
    NotRunning(sim, all, r);
    RemoveIs(sim.pending, r);
    StartEntries(sim, shared, all, r, cards);
    StartFields(sim, shared, r, cards);
    AppendDistinct(sim.stoppable, n);
    assert n.job.jobId == r.jobId && n.again == r;
    hide Start, Put, Remove, EntriesOk, EntryOk, Started, DistinctEntries, Distinct;
    assert sim.stoppable + [] == sim.stoppable;
    assert EntryIds(t.stoppable) <= EntryIds(sim.stoppable) + {r.jobId};
    assert RequestIds(t.pending) <= RequestIds(sim.pending) - {r.jobId};
  }

  lemma {:induction false} StartFields(sim: Sim, shared: set<Uuid>, r: Request, cards: seq<Uuid>)
    ensures var t := Start(sim, shared, r, cards);
            && t.pending == Remove(sim.pending, r) && t.clock == sim.clock
            && t.starts.Keys == sim.starts.Keys + {r.jobId}
            && (forall id :: id in sim.starts ==> t.starts[id] == sim.starts[id])
            && (r.jobId !in sim.starts ==> t.starts[r.jobId] == sim.clock)
            && t.releases.Keys == sim.releases.Keys + Elems(cards)
            && (forall c :: c in cards ==> t.releases[c] == Done(sim, r))
            && (forall c :: c in sim.releases && c !in cards ==> t.releases[c] == sim.releases[c])
  {
    hide Put, Remove;
  }

  lemma {:induction false} StartAnswered(sim: Sim, shared: set<Uuid>, all: seq<Request>, requests: seq<Request>, r: Request, cards: seq<Uuid>)
    requires Ok(sim, shared, all) && CanStart(sim, r, cards)
    requires Distinct(all) && Answered(sim, requests) && forall x :: x in requests ==> x in all
    ensures Answered(Start(sim, shared, r, cards), requests)
  {
    var t := Start(sim, shared, r, cards);
    RemoveIs(sim.pending, r);
    StartEntries(sim, shared, all, r, cards);
    StartFields(sim, shared, r, cards);
    hide Start, Put, Remove, EntriesOk, EntryOk;
    assert EntryIds(t.stoppable) <= EntryIds(sim.stoppable) + if r.fills then {r.jobId} else {};
    forall x | x in requests
      ensures x.jobId in t.starts || x in t.pending
      ensures !x.fills ==> x.jobId !in EntryIds(t.stoppable) && (x.jobId in t.starts ==> x.jobId !in RequestIds(t.pending))
    {
      SameId(all, x, r);
    }
  }

  lemma {:induction false} SameId(all: seq<Request>, x: Request, y: Request)
    requires Distinct(all) && x in all && y in all
    ensures x.jobId == y.jobId ==> x == y
  {
    var i :| 0 <= i < |all| && all[i] == x;
    var j :| 0 <= j < |all| && all[j] == y;
  }

  lemma {:induction false} StartLogOk(sim: Sim, shared: set<Uuid>, log: seq<Stint>, r: Request, cards: seq<Uuid>)
    requires LogOk(sim, log) && CanStart(sim, r, cards)
    ensures LogOk(Start(sim, shared, r, cards), StartLog(sim, log, r, cards))
  {
    var t, more := Start(sim, shared, r, cards), StartLog(sim, log, r, cards);
    StartFields(sim, shared, r, cards);
    hide Start;
    forall i, j | 0 <= i < |log| <= j < |more|
      ensures more[i].from <= more[j].from && (more[i].card == more[j].card ==> Past(more[i].until, more[j].from))
    {
      assert more[j].card == cards[j - |log|] && more[j].from == sim.clock;
    }
    forall i, j | |log| <= i < j < |more|
      ensures more[i].card != more[j].card && more[i].from <= more[j].from
    {
      assert more[i].card == cards[i - |log|] && more[j].card == cards[j - |log|];
    }
  }

  lemma {:induction false} StartNames(sim: Sim, shared: set<Uuid>, all: seq<Request>, log: seq<Stint>, r: Request, cards: seq<Uuid>)
    requires Ok(sim, shared, all) && LogOk(sim, log) && LogNames(sim, log) && CanStart(sim, r, cards)
    ensures LogNames(Start(sim, shared, r, cards), StartLog(sim, log, r, cards))
  {
    var t, more := Start(sim, shared, r, cards), StartLog(sim, log, r, cards);
    var n := Started(sim, shared, r, cards);
    assert n.job.gpus == cards && n.job.jobId == r.jobId && t.clock == sim.clock;
    StartEntries(sim, shared, all, r, cards);
    assert forall i :: 0 <= i < |log| && log[i].card in cards ==> Past(log[i].until, sim.clock);
    assert forall i :: |log| <= i < |more| ==> more[i].card in cards && more[i].job == Some(r.jobId);
    assert forall i :: 0 <= i < |log| ==> more[i] == log[i];
    hide Start, StartLog, EntryOk, EntriesOk, QueuesOk, Started, OneAtATime, NoDup;
    forall e | e in sim.stoppable
      ensures e.job.jobId in sim.ends && e.job.jobId in t.ends && Live(t, e) == Live(sim, e)
      ensures Live(sim, e) ==> Apart(e.job.gpus, cards)
    {
      StartOld(sim, shared, all, r, cards, e);
      EntryEnds(t, shared, e);
      OldEnds(sim, shared, e);
    }
    assert forall e :: e in t.stoppable ==> e in sim.stoppable || e == n;
  }

  lemma {:induction false} OldEnds(sim: Sim, shared: set<Uuid>, e: Entry)
    requires EntriesOk(sim, shared) && e in sim.stoppable
    ensures e.job.jobId in sim.ends
  {
    assert EntryOk(sim, shared, e);
  }

  // Stopping one.

  function Stop(sim: Sim, e: Entry): Sim {
    sim.(stoppable := Pop(sim.stoppable, e.job.jobId),
         releases := sim.releases + map c | c in e.job.gpus :: Some(sim.clock),
         pending := sim.pending + [e.again])
  }

  function Cut(s: Stint, cards: seq<Uuid>, clock: real): Stint {
    if s.card in cards && !Past(s.until, clock) then s.(until := Some(clock)) else s
  }

  /** The stopped job is off its cards from now on. */
  function StopLog(sim: Sim, log: seq<Stint>, e: Entry): (r: seq<Stint>)
    ensures |r| == |log|
    ensures forall i :: 0 <= i < |log| ==> r[i] == Cut(log[i], e.job.gpus, sim.clock)
  {
    seq(|log|, i requires 0 <= i < |log| => Cut(log[i], e.job.gpus, sim.clock))
  }

  lemma {:induction false} StopFields(sim: Sim, e: Entry)
    ensures var t := Stop(sim, e);
            && t.releases.Keys == sim.releases.Keys + Elems(e.job.gpus)
            && (forall c :: c in e.job.gpus ==> t.releases[c] == Some(sim.clock))
            && (forall c :: c in sim.releases && c !in e.job.gpus ==> t.releases[c] == sim.releases[c])
  {
    hide Pop;
  }

  lemma {:induction false} StopOther(sim: Sim, shared: set<Uuid>, e: Entry, f: Entry)
    requires EntriesOk(sim, shared) && e in sim.stoppable && f in sim.stoppable && e.job.jobId != f.job.jobId
    requires e.job.jobId in sim.ends && Live(sim, e)
    ensures EntryOk(Stop(sim, e), shared, f)
  {
    assert EntryOk(sim, shared, f);
    StopFields(sim, e);
    assert Stop(sim, e).ends == sim.ends && Stop(sim, e).clock == sim.clock;
    hide Stop, Without, Within, NoDup, PairsApart;
    assert Live(sim, f) ==> Apart(e.job.gpus, f.job.gpus) by { PairApart(sim, e, f); }
    hide EntriesOk;
  }

  lemma {:induction false} PairApart(sim: Sim, e: Entry, f: Entry)
    requires PairsApart(sim) && e in sim.stoppable && f in sim.stoppable && e.job.jobId != f.job.jobId
    ensures LiveThere(sim, e) && LiveThere(sim, f) ==> Apart(e.job.gpus, f.job.gpus)
  {
  }

  lemma {:induction false} StopEntries(sim: Sim, shared: set<Uuid>, all: seq<Request>, e: Entry)
    requires Ok(sim, shared, all) && e in sim.stoppable && e.job.jobId in sim.ends && Live(sim, e)
    ensures EntriesOk(Stop(sim, e), shared)
    ensures DistinctEntries(Stop(sim, e).stoppable)
    ensures forall f :: f in Stop(sim, e).stoppable <==> f in sim.stoppable && f.job.jobId != e.job.jobId
  {
    var t := Stop(sim, e);
    PopIs(sim.stoppable, e.job.jobId);
    assert t.stoppable == Pop(sim.stoppable, e.job.jobId) && t.ends == sim.ends && t.clock == sim.clock;
    hide Pop, Stop, EntryOk, DistinctEntries, Distinct, PairsApart;
    FewerPairs(sim, t);
    forall f | f in t.stoppable
      ensures EntryOk(t, shared, f)
    {
      StopOther(sim, shared, e, f);
    }
  }

  lemma {:induction false} FewerPairs(sim: Sim, t: Sim)
    requires PairsApart(sim) && (forall e :: e in t.stoppable ==> e in sim.stoppable) && t.ends == sim.ends && sim.clock <= t.clock
    ensures PairsApart(t)
  {
    hide Apart;
    assert forall e :: LiveThere(t, e) ==> LiveThere(sim, e);
  }

  lemma {:induction false} StopKeeps(sim: Sim, shared: set<Uuid>, all: seq<Request>, e: Entry)
    requires Ok(sim, shared, all) && e in sim.stoppable && e.job.jobId in sim.ends && Live(sim, e)
    ensures Ok(Stop(sim, e), shared, all)
    ensures forall f :: f in Stop(sim, e).stoppable <==> f in sim.stoppable && f.job.jobId != e.job.jobId
  {
    var t := Stop(sim, e);
    StopEntries(sim, shared, all, e);
    assert EntryOk(sim, shared, e);
    assert t.pending == sim.pending + [e.again];
    hide Stop, EntriesOk, EntryOk;
    assert e.job.jobId in EntryIds(sim.stoppable);
    forall i | 0 <= i < |sim.pending|
      ensures sim.pending[i].jobId in RequestIds(sim.pending)
    {
    }
    assert EntryIds(t.stoppable) <= EntryIds(sim.stoppable) - {e.job.jobId};
    assert RequestIds(t.pending) <= RequestIds(sim.pending) + {e.job.jobId};
  }

  lemma {:induction false} StopAnswered(sim: Sim, shared: set<Uuid>, all: seq<Request>, requests: seq<Request>, e: Entry)
    requires Ok(sim, shared, all) && e in sim.stoppable && e.job.jobId in sim.ends && Live(sim, e)
    requires Answered(sim, requests)
    ensures Answered(Stop(sim, e), requests)
  {
    var t := Stop(sim, e);
    StopKeeps(sim, shared, all, e);
    assert t.pending == sim.pending + [e.again] && t.starts == sim.starts;
    assert EntryOk(sim, shared, e) && e.job.jobId in EntryIds(sim.stoppable);
    hide Stop, EntriesOk, EntryOk;
    assert EntryIds(t.stoppable) <= EntryIds(sim.stoppable);
    assert RequestIds(t.pending) <= RequestIds(sim.pending) + {e.job.jobId};
  }

  lemma {:induction false} StopLogOk(sim: Sim, log: seq<Stint>, e: Entry)
    requires LogOk(sim, log)
    ensures LogOk(Stop(sim, e), StopLog(sim, log, e))
  {
    var t, less := Stop(sim, e), StopLog(sim, log, e);
    StopFields(sim, e);
    assert t.clock == sim.clock;
    hide Stop, StopLog;
    forall i, j | 0 <= i < j < |less|
      ensures less[i].from <= less[j].from && (less[i].card == less[j].card ==> Past(less[i].until, less[j].from))
    {
      assert log[i].from <= log[j].from;
    }
  }

  lemma {:induction false} StopNames(sim: Sim, shared: set<Uuid>, all: seq<Request>, log: seq<Stint>, e: Entry)
    requires Ok(sim, shared, all) && LogNames(sim, log) && e in sim.stoppable && e.job.jobId in sim.ends && Live(sim, e)
    ensures LogNames(Stop(sim, e), StopLog(sim, log, e))
  {
    var t, less := Stop(sim, e), StopLog(sim, log, e);
    StopKeeps(sim, shared, all, e);
    assert t.ends == sim.ends && t.clock == sim.clock;
    hide Stop, StopLog, EntriesOk, QueuesOk;
    forall f, i | f in t.stoppable && 0 <= i < |less| && less[i].card in f.job.gpus
                  && f.job.jobId in t.ends && Live(t, f) && !Past(less[i].until, t.clock)
      ensures less[i].job == Some(f.job.jobId)
    {
      assert less[i] == log[i];
    }
  }

  // Moving the clock, and forgetting the jobs that have ended by then.

  function LiveOnly(sim: Sim, es: seq<Entry>): seq<Entry>
    requires forall e :: e in es ==> e.job.jobId in sim.ends
  {
    if es == [] then []
    else if Live(sim, es[0]) then [es[0]] + LiveOnly(sim, es[1..])
    else LiveOnly(sim, es[1..])
  }

  lemma {:induction false} LiveOnlyIs(sim: Sim, es: seq<Entry>)
    requires forall e :: e in es ==> e.job.jobId in sim.ends
    requires DistinctEntries(es)
    ensures DistinctEntries(LiveOnly(sim, es))
    ensures forall e :: e in LiveOnly(sim, es) <==> e in es && Live(sim, e)
  {
    if es != [] {
      assert es == [es[0]] + es[1..];
      LiveOnlyIs(sim, es[1..]);
      var rest := LiveOnly(sim, es[1..]);
      forall j | 0 <= j < |rest| ensures rest[j].job.jobId != es[0].job.jobId { assert rest[j] in es[1..]; }
    }
  }

  function Prune(sim: Sim): Sim
    requires forall e :: e in sim.stoppable ==> e.job.jobId in sim.ends
  {
    sim.(stoppable := LiveOnly(sim, sim.stoppable))
  }

  lemma {:induction false} SameEntry(sim: Sim, shared: set<Uuid>, t: Sim, e: Entry)
    requires EntryOk(sim, shared, e) && t.ends == sim.ends && t.releases == sim.releases && sim.clock <= t.clock
    ensures EntryOk(t, shared, e)
  {
    hide Without, Within, NoDup;
  }

  lemma {:induction false} FewerEntries(sim: Sim, shared: set<Uuid>, t: Sim)
    requires EntriesOk(sim, shared)
    requires (forall e :: e in t.stoppable ==> e in sim.stoppable)
             && t.ends == sim.ends && t.releases == sim.releases && sim.clock <= t.clock
    ensures EntriesOk(t, shared)
  {
    hide EntryOk, PairsApart;
    FewerPairs(sim, t);
    forall e | e in t.stoppable ensures EntryOk(t, shared, e) { SameEntry(sim, shared, t, e); }
  }

  lemma {:induction false} FewerNames(sim: Sim, t: Sim, log: seq<Stint>)
    requires LogNames(sim, log)
    requires (forall e :: e in t.stoppable ==> e in sim.stoppable)
             && t.ends == sim.ends && t.releases == sim.releases && sim.clock <= t.clock
    ensures LogNames(t, log)
  {
  }

  lemma {:induction false} FewerAnswered(sim: Sim, t: Sim, requests: seq<Request>)
    requires Answered(sim, requests) && t.starts == sim.starts && t.pending == sim.pending
    requires forall e :: e in t.stoppable ==> e in sim.stoppable
    ensures Answered(t, requests) && EntryIds(t.stoppable) <= EntryIds(sim.stoppable)
  {
  }

  lemma {:induction false} LaterLog(sim: Sim, t: Sim, log: seq<Stint>)
    requires LogOk(sim, log) && t.releases == sim.releases && sim.clock <= t.clock
    ensures LogOk(t, log)
  {
    hide OneAtATime;
  }

  lemma {:induction false} PruneKeeps(sim: Sim, shared: set<Uuid>, all: seq<Request>, requests: seq<Request>, log: seq<Stint>)
    requires Ok(sim, shared, all) && Answered(sim, requests) && LogOk(sim, log) && LogNames(sim, log)
    requires forall e :: e in sim.stoppable ==> e.job.jobId in sim.ends
    ensures var t := Prune(sim);
            && Ok(t, shared, all) && Answered(t, requests) && LogOk(t, log) && LogNames(t, log)
            && (forall e :: e in t.stoppable ==> e in sim.stoppable && e.job.jobId in t.ends && Live(t, e))
  {
    LiveOnlyIs(sim, sim.stoppable);
    var t := Prune(sim);
    assert t == sim.(stoppable := t.stoppable);
    hide Prune, LiveOnly, EntriesOk, Answered, LogOk, LogNames, DistinctEntries, Distinct;
    assert forall e :: e in t.stoppable ==> e in sim.stoppable;
    FewerEntries(sim, shared, t);
    FewerNames(sim, t, log);
    FewerAnswered(sim, t, requests);
    LaterLog(sim, t, log);
  }

  lemma {:induction false} TickKeeps(sim: Sim, shared: set<Uuid>, all: seq<Request>, requests: seq<Request>, log: seq<Stint>, clock: real)
    requires Ok(sim, shared, all) && Answered(sim, requests) && LogOk(sim, log) && LogNames(sim, log)
    requires sim.clock <= clock
    ensures var t := sim.(clock := clock);
            Ok(t, shared, all) && Answered(t, requests) && LogOk(t, log) && LogNames(t, log)
  {
    var t := sim.(clock := clock);
    hide EntriesOk, Answered, LogOk, LogNames;
    FewerEntries(sim, shared, t);
    FewerNames(sim, t, log);
    FewerAnswered(sim, t, requests);
    LaterLog(sim, t, log);
  }

  // `pending.sort(key=lambda r: r.key)`

  function InsertByKey(r: Request, rs: seq<Request>): seq<Request> {
    if rs == [] || !Before(rs[0].SortKey(), r.SortKey()) then [r] + rs else [rs[0]] + InsertByKey(r, rs[1..])
  }

  function ByKey(rs: seq<Request>): seq<Request> {
    if rs == [] then [] else InsertByKey(rs[0], ByKey(rs[1..]))
  }

  predicate Sorted(rs: seq<Request>) {
    forall i, j :: 0 <= i < j < |rs| ==> Before(rs[i].SortKey(), rs[j].SortKey())
  }

  lemma {:induction false} InsertByKeyIs(r: Request, rs: seq<Request>)
    requires Sorted(rs) && r.jobId !in RequestIds(rs)
    ensures Sorted(InsertByKey(r, rs))
    ensures forall x :: x in InsertByKey(r, rs) <==> x == r || x in rs
  {
    if rs != [] {
      assert rs[0].jobId in RequestIds(rs);
      if Before(rs[0].SortKey(), r.SortKey()) {
        forall x | x in rs[1..] ensures x.jobId in RequestIds(rs) { assert x in rs; }
        InsertByKeyIs(r, rs[1..]);
        assert rs == [rs[0]] + rs[1..];
        var rest := InsertByKey(r, rs[1..]);
        forall j | 0 <= j < |rest| ensures Before(rs[0].SortKey(), rest[j].SortKey()) { assert rest[j] == r || rest[j] in rs[1..]; }
      }
    }
  }

  lemma {:induction false} ByKeyIs(rs: seq<Request>)
    requires Distinct(rs)
    ensures Sorted(ByKey(rs))
    ensures forall x :: x in ByKey(rs) <==> x in rs
  {
    if rs != [] {
      ByKeyIs(rs[1..]);
      assert rs == [rs[0]] + rs[1..];
      InsertByKeyIs(rs[0], ByKey(rs[1..]));
    }
  }

  lemma {:induction false} SortKeeps(sim: Sim, shared: set<Uuid>, all: seq<Request>, requests: seq<Request>, log: seq<Stint>)
    requires Ok(sim, shared, all) && Answered(sim, requests) && LogOk(sim, log) && LogNames(sim, log)
    ensures var t := sim.(pending := ByKey(sim.pending));
            && Ok(t, shared, all) && Answered(t, requests) && LogOk(t, log) && LogNames(t, log)
            && Sorted(t.pending)
  {
    ByKeyIs(sim.pending);
    var t := sim.(pending := ByKey(sim.pending));
    hide ByKey;
    assert RequestIds(t.pending) == RequestIds(sim.pending);
    forall i, j | 0 <= i < j < |t.pending|
      ensures t.pending[i].jobId != t.pending[j].jobId
    {
      assert t.pending[i] in sim.pending && t.pending[j] in sim.pending;
      SameId(sim.pending, t.pending[i], t.pending[j]);
    }
    FewerEntries(sim, shared, t);
  }
}
