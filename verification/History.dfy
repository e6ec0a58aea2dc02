/** What a projection may claim about its past: every start put a job on exactly
    the cards it asked for, and every stop was paid for. */
module History {
  import opened Lists
  import opened Preempt
  import opened Rule
  import opened Simulation
  import opened Rounds
  import opened Owing

  datatype Launch = Launch(job: JobId, cards: seq<Uuid>, at: real)

  /** `stopped` gave way to `waiting`. */
  datatype Yield = Yield(stopped: Request, waiting: Request, at: real)

  ghost predicate OnCards(log: seq<Stint>, l: Launch) {
    forall c :: c in l.cards ==> exists i :: 0 <= i < |log| && log[i].job == Some(l.job) && log[i].card == c && log[i].from == l.at
  }

  predicate AsAsked(all: seq<Request>, l: Launch) {
    NoDup(l.cards) && exists r :: r in all && r.jobId == l.job && |l.cards| == r.gpus
  }

  ghost predicate LaunchesOk(all: seq<Request>, log: seq<Stint>, launches: seq<Launch>) {
    forall l :: l in launches ==> OnCards(log, l) && AsAsked(all, l)
  }

  predicate StartedAt(launches: seq<Launch>, job: JobId, at: real) {
    exists l :: l in launches && l.job == job && l.at == at
  }

  /** `starts` has the first start of every job that ever started. */
  predicate StartsOk(sim: Sim, launches: seq<Launch>) {
    && (forall l :: l in launches ==> l.at <= sim.clock && l.job in sim.starts && sim.starts[l.job] <= l.at)
    && (forall id :: id in sim.starts ==> StartedAt(launches, id, sim.starts[id]))
  }

  /** Every stop was for a job ahead of the stopped one, and that job started
      there and then; save the one still owed its start. */
  predicate Paid(stops: seq<Yield>, launches: seq<Launch>, owed: Option<Request>, clock: real) {
    forall s :: s in stops ==>
      && Before(s.waiting.SortKey(), s.stopped.SortKey())
      && (StartedAt(launches, s.waiting.jobId, s.at) || (owed == Some(s.waiting) && s.at == clock))
  }

  function HolderOf(running: seq<Entry>, card: Uuid): Option<JobId> {
    if running == [] then None
    else if card in running[0].job.gpus then Some(running[0].job.jobId)
    else HolderOf(running[1..], card)
  }

  /** Whoever is on a card now comes first on it, and keeps it to its release
      unless it is a job that may be stopped. */
  predicate Incumbents(log: seq<Stint>, cards: seq<Card>, running: seq<Entry>) {
    && |cards| <= |log|
    && forall i :: 0 <= i < |cards| ==>
         && log[i].card == cards[i].uuid && log[i].from == 0.0
         && log[i].job == HolderOf(running, cards[i].uuid)
         && (log[i].job.None? ==> log[i].until == cards[i].release)
  }

  ghost predicate HistoryOk(sim: Sim, all: seq<Request>, cards: seq<Card>, running: seq<Entry>,
                            log: seq<Stint>, launches: seq<Launch>) {
    LaunchesOk(all, log, launches) && StartsOk(sim, launches) && Incumbents(log, cards, running)
  }

  lemma {:induction false} LaunchedKeeps(sim: Sim, shared: set<Uuid>, all: seq<Request>, log: seq<Stint>, launches: seq<Launch>,
                      r: Request, gpus: seq<Uuid>)
    requires LaunchesOk(all, log, launches) && NoDup(gpus) && |gpus| == r.gpus && r in all
    ensures LaunchesOk(all, StartLog(sim, log, r, gpus), launches + [Launch(r.jobId, gpus, sim.clock)])
  {
    var more, n := StartLog(sim, log, r, gpus), Launch(r.jobId, gpus, sim.clock);
    assert AsAsked(all, n);
    hide NoDup, AsAsked;
    forall l | l in launches
      ensures OnCards(more, l)
    {
      forall c | c in l.cards
        ensures exists i :: 0 <= i < |more| && more[i].job == Some(l.job) && more[i].card == c && more[i].from == l.at
      {
        assert OnCards(log, l);
        var i :| 0 <= i < |log| && log[i].job == Some(l.job) && log[i].card == c && log[i].from == l.at;
        assert more[i] == log[i];
      }
    }
    forall c | c in gpus
      ensures exists i :: 0 <= i < |more| && more[i].job == Some(r.jobId) && more[i].card == c && more[i].from == sim.clock
    {
      var i :| 0 <= i < |gpus| && gpus[i] == c;
      assert more[|log| + i].card == c;
    }
    assert OnCards(more, n);
    assert forall l :: l in launches + [n] ==> l in launches || l == n;
  }

  lemma {:induction false} StartsKeeps(sim: Sim, shared: set<Uuid>, launches: seq<Launch>, r: Request, gpus: seq<Uuid>)
    requires StartsOk(sim, launches)
    ensures StartsOk(Start(sim, shared, r, gpus), launches + [Launch(r.jobId, gpus, sim.clock)])
  {
    var t, n := Start(sim, shared, r, gpus), Launch(r.jobId, gpus, sim.clock);
    StartFields(sim, shared, r, gpus);
    hide Start;
    assert n in launches + [n];
    assert forall l :: l in launches ==> l in launches + [n];
    assert forall l :: l in launches + [n] ==> l in launches || l == n;
    forall id | id in t.starts
      ensures StartedAt(launches + [n], id, t.starts[id])
    {
      if id in sim.starts {
        var l :| l in launches && l.job == id && l.at == sim.starts[id];
      }
    }
  }

  lemma {:induction false} StartHistory(sim: Sim, shared: set<Uuid>, all: seq<Request>, cards: seq<Card>, running: seq<Entry>,
                     log: seq<Stint>, launches: seq<Launch>, r: Request, gpus: seq<Uuid>)
    requires HistoryOk(sim, all, cards, running, log, launches) && NoDup(gpus) && |gpus| == r.gpus && r in all
    ensures HistoryOk(Start(sim, shared, r, gpus), all, cards, running,
                      StartLog(sim, log, r, gpus), launches + [Launch(r.jobId, gpus, sim.clock)])
  {
    LaunchedKeeps(sim, shared, all, log, launches, r, gpus);
    StartsKeeps(sim, shared, launches, r, gpus);
    hide Start, LaunchesOk, StartsOk, HolderOf, NoDup;
  }

  function RoundLaunches(rs: seq<Request>, ds: seq<Decision>, at: real, k: nat): seq<Launch>
    requires k <= |ds| == |rs|
  {
    if k == 0 then []
    else RoundLaunches(rs, ds, at, k - 1) + if ds[k - 1].Assigned? then [Launch(rs[k - 1].jobId, ds[k - 1].gpus, at)] else []
  }

  predicate Sized(rs: seq<Request>, ds: seq<Decision>, all: seq<Request>) {
    |ds| == |rs| && forall i :: 0 <= i < |ds| ==> rs[i] in all && (ds[i].Assigned? ==> NoDup(ds[i].gpus) && |ds[i].gpus| == rs[i].gpus)
  }

  lemma {:induction false} SameClock(sim: Sim, shared: set<Uuid>, rs: seq<Request>, ds: seq<Decision>, k: nat)
    requires k <= |ds| == |rs|
    ensures StartAll(sim, shared, rs, ds, k).clock == sim.clock
  {
    if k > 0 {
      SameClock(sim, shared, rs, ds, k - 1);
    }
  }

  lemma {:induction false} StartAllHistory(sim: Sim, shared: set<Uuid>, all: seq<Request>, cards: seq<Card>, running: seq<Entry>,
                                           log: seq<Stint>, launches: seq<Launch>, rs: seq<Request>, ds: seq<Decision>, k: nat)
    requires HistoryOk(sim, all, cards, running, log, launches) && Sized(rs, ds, all) && k <= |ds|
    ensures HistoryOk(StartAll(sim, shared, rs, ds, k), all, cards, running,
                      StartAllLog(sim, shared, log, rs, ds, k), launches + RoundLaunches(rs, ds, sim.clock, k))
  {
    hide HistoryOk, Start, StartLog, NoDup;
    if k == 0 {
      assert launches + [] == launches;
    } else {
      StartAllHistory(sim, shared, all, cards, running, log, launches, rs, ds, k - 1);
      SameClock(sim, shared, rs, ds, k - 1);
      var t, more := StartAll(sim, shared, rs, ds, k - 1), StartAllLog(sim, shared, log, rs, ds, k - 1);
      var so := launches + RoundLaunches(rs, ds, sim.clock, k - 1);
      if ds[k - 1].Assigned? {
        StartHistory(t, shared, all, cards, running, more, so, rs[k - 1], ds[k - 1].gpus);
        assert launches + RoundLaunches(rs, ds, sim.clock, k) == so + [Launch(rs[k - 1].jobId, ds[k - 1].gpus, sim.clock)];
      } else {
        assert launches + RoundLaunches(rs, ds, sim.clock, k) == so;
      }
    }
  }

  lemma {:induction false} RoundLaunched(rs: seq<Request>, ds: seq<Decision>, at: real, k: nat, m: nat)
    requires m < k <= |ds| == |rs| && ds[m].Assigned?
    ensures StartedAt(RoundLaunches(rs, ds, at, k), rs[m].jobId, at)
  {
    if m < k - 1 {
      RoundLaunched(rs, ds, at, k - 1, m);
      var l :| l in RoundLaunches(rs, ds, at, k - 1) && l.job == rs[m].jobId && l.at == at;
      assert l in RoundLaunches(rs, ds, at, k);
    } else {
      assert Launch(rs[m].jobId, ds[m].gpus, at) in RoundLaunches(rs, ds, at, k);
    }
  }

  lemma {:induction false} StillStarted(launches: seq<Launch>, more: seq<Launch>, job: JobId, at: real)
    requires StartedAt(launches, job, at) || StartedAt(more, job, at)
    ensures StartedAt(launches + more, job, at)
  {
    if StartedAt(launches, job, at) {
      var l :| l in launches && l.job == job && l.at == at;
      assert l in launches + more;
    } else {
      var l :| l in more && l.job == job && l.at == at;
      assert l in launches + more;
    }
  }

  /** The round that starts the job it owed has paid for every stop. */
  lemma {:induction false} RoundPays(stops: seq<Yield>, launches: seq<Launch>, owed: Option<Request>, clock: real,
                  rs: seq<Request>, ds: seq<Decision>)
    requires Paid(stops, launches, owed, clock) && |ds| == |rs|
    requires owed.Some? ==> exists m :: 0 <= m < |rs| && rs[m] == owed.value && ds[m].Assigned?
    ensures Paid(stops, launches + RoundLaunches(rs, ds, clock, |ds|), None, clock)
  {
    hide StartedAt, RoundLaunches;
    forall s | s in stops
      ensures StartedAt(launches + RoundLaunches(rs, ds, clock, |ds|), s.waiting.jobId, s.at)
    {
      if !StartedAt(launches, s.waiting.jobId, s.at) {
        var m :| 0 <= m < |rs| && rs[m] == owed.value && ds[m].Assigned?;
        RoundLaunched(rs, ds, clock, |ds|, m);
      }
      StillStarted(launches, RoundLaunches(rs, ds, clock, |ds|), s.waiting.jobId, s.at);
    }
  }

  function YieldsFor(es: seq<Entry>, waiting: Request, at: real): (r: seq<Yield>)
    ensures |r| == |es|
    ensures forall i :: 0 <= i < |es| ==> r[i] == Yield(es[i].again, waiting, at)
  {
    seq(|es|, i requires 0 <= i < |es| => Yield(es[i].again, waiting, at))
  }

  lemma {:induction false} StopsOwe(stops: seq<Yield>, launches: seq<Launch>, clock: real, es: seq<Entry>, r: Request)
    requires Paid(stops, launches, None, clock)
    requires forall e :: e in es ==> Before(r.SortKey(), e.again.SortKey())
    ensures Paid(stops + YieldsFor(es, r, clock), launches, Some(r), clock)
  {
    hide StartedAt;
    forall s | s in stops + YieldsFor(es, r, clock)
      ensures s in stops || (s.waiting == r && s.at == clock && Before(r.SortKey(), s.stopped.SortKey()))
    {
      if s !in stops {
        var i :| 0 <= i < |es| && YieldsFor(es, r, clock)[i] == s;
        assert es[i] in es;
      }
    }
  }

  lemma {:induction false} PaidLater(stops: seq<Yield>, launches: seq<Launch>, clock: real, later: real)
    requires Paid(stops, launches, None, clock)
    ensures Paid(stops, launches, None, later)
  {
  }

  // Stops change who is on a card until when, and nothing else of the past.

  lemma {:induction false} StopHistory(sim: Sim, all: seq<Request>, cards: seq<Card>, running: seq<Entry>,
                    log: seq<Stint>, launches: seq<Launch>, e: Entry)
    requires HistoryOk(sim, all, cards, running, log, launches)
    requires LogNames(sim, log) && e in sim.stoppable && e.job.jobId in sim.ends && Live(sim, e)
    ensures HistoryOk(Stop(sim, e), all, cards, running, StopLog(sim, log, e), launches)
  {
    var less := StopLog(sim, log, e);
    assert Stop(sim, e).clock == sim.clock && Stop(sim, e).starts == sim.starts;
    hide Stop, AsAsked, StartedAt, HolderOf;
    forall l | l in launches
      ensures OnCards(less, l)
    {
      forall c | c in l.cards
        ensures exists i :: 0 <= i < |less| && less[i].job == Some(l.job) && less[i].card == c && less[i].from == l.at
      {
        assert OnCards(log, l);
        var i :| 0 <= i < |log| && log[i].job == Some(l.job) && log[i].card == c && log[i].from == l.at;
        assert less[i] == Cut(log[i], e.job.gpus, sim.clock);
      }
    }
  }

  lemma {:induction false} StopAllHistory(sim: Sim, shared: set<Uuid>, all: seq<Request>, requests: seq<Request>,
                                          cards: seq<Card>, running: seq<Entry>,
                                          log: seq<Stint>, launches: seq<Launch>, es: seq<Entry>)
    requires HistoryOk(sim, all, cards, running, log, launches)
    requires Fine(sim, shared, all, requests, log) && AllStoppable(sim, es)
    ensures HistoryOk(StopAll(sim, es), all, cards, running, StopAllLog(sim, log, es), launches)
    decreases |es|
  {
    hide HistoryOk, Stop, StopLog, Stopped, EntriesOk, QueuesOk, Answered, LogOk;
    if es != [] {
      var rest := es[..|es| - 1];
      assert AllStoppable(sim, rest);
      StopAllHistory(sim, shared, all, requests, cards, running, log, launches, rest);
      StopAllFine(sim, shared, all, requests, log, rest);
      LastIsReady(sim, StopAll(sim, rest), es);
      StopHistory(StopAll(sim, rest), all, cards, running, StopAllLog(sim, log, rest), launches, es[|es| - 1]);
    }
  }
}
