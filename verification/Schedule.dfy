/** How long each stint of a projected schedule lasts: to the job's estimated
    end, or to the moment it was stopped, and never two at once for one job. */
module Schedule {
  import opened Lists
  import opened Preempt
  import opened Rule
  import opened Simulation
  import opened Rounds
  import opened History

  /** Where a stint would end if nobody stopped it: whoever is there at the
      beginning by the card's release, and a started job by its estimate. */
  predicate RunsTo(all: seq<Request>, cards: seq<Card>, i: nat, s: Stint, end: Option<real>) {
    if i < |cards| then end == cards[i].release
    else exists r :: r in all && s.job == Some(r.jobId)
                     && end == if r.estimate.None? then None else Some(s.from + r.estimate.value)
  }

  /** This stop cut the stint short. */
  predicate CutBy(s: Stint, end: Option<real>, y: Yield) {
    s.job == Some(y.stopped.jobId) && s.until == Some(y.at) && s.from <= y.at && !Past(end, y.at)
  }

  predicate CutShort(s: Stint, end: Option<real>, stops: seq<Yield>) {
    exists y :: y in stops && CutBy(s, end, y)
  }

  ghost predicate EndsRight(all: seq<Request>, cards: seq<Card>, stops: seq<Yield>, i: nat, s: Stint) {
    exists end :: RunsTo(all, cards, i, s, end) && (s.until == end || CutShort(s, end, stops))
  }

  /** A job that said it may be stopped, queued or already running. */
  predicate MayStop(r: Request, all: seq<Request>, running: seq<Entry>) {
    r in all && (r.fills || r.jobId in EntryIds(running))
  }

  datatype Mark = Mark(job: Option<JobId>, card: Uuid, from: real)

  function Marks(log: seq<Stint>): (ms: seq<Mark>)
    ensures |ms| == |log|
    ensures forall i :: 0 <= i < |log| ==> ms[i] == Mark(log[i].job, log[i].card, log[i].from)
  {
    seq(|log|, i requires 0 <= i < |log| => Mark(log[i].job, log[i].card, log[i].from))
  }

  /** The cards of one launch, in order. */
  function LaunchMarks(l: Launch): (ms: seq<Mark>)
    ensures |ms| == |l.cards|
    ensures forall i :: 0 <= i < |ms| ==> ms[i] == Mark(Some(l.job), l.cards[i], l.at)
  {
    seq(|l.cards|, i requires 0 <= i < |l.cards| => Mark(Some(l.job), l.cards[i], l.at))
  }

  function AllMarks(launches: seq<Launch>): seq<Mark> {
    if launches == [] then [] else AllMarks(launches[..|launches| - 1]) + LaunchMarks(launches[|launches| - 1])
  }

  /** One job's stints of two launches do not overlap. */
  predicate JobOnce(log: seq<Stint>) {
    forall i, j :: 0 <= i < j < |log| && log[i].job.Some? && log[i].job == log[j].job ==>
      log[i].from == log[j].from || Past(log[i].until, log[j].from)
  }

  /** The whole of a schedule: the cards as they were found, then the cards of
      each launch in order, each stint ending where it should; and only jobs
      that may be stopped were. */
  ghost predicate ScheduleIs(all: seq<Request>, cards: seq<Card>, running: seq<Entry>, log: seq<Stint>, launches: seq<Launch>, stops: seq<Yield>) {
    && |cards| <= |log| && Marks(log[|cards|..]) == AllMarks(launches)
    && (forall i :: 0 <= i < |log| ==> EndsRight(all, cards, stops, i, log[i]))
    && (forall y :: y in stops ==> MayStop(y.stopped, all, running))
    && JobOnce(log)
  }

  /** What the simulation keeps of it. */
  ghost predicate ScheduleOk(sim: Sim, all: seq<Request>, cards: seq<Card>, running: seq<Entry>, log: seq<Stint>, launches: seq<Launch>, stops: seq<Yield>) {
    && ScheduleIs(all, cards, running, log, launches, stops)
    && (forall y :: y in stops ==> y.at <= sim.clock)
    && (forall e :: e in sim.stoppable ==> MayStop(e.again, all, running))
    && OffCards(sim, log)
  }

  /** A queued job is on no card, and a stoppable one only on its own. */
  predicate OffCards(sim: Sim, log: seq<Stint>) {
    && (forall r, i :: r in sim.pending && 0 <= i < |log| && log[i].job == Some(r.jobId) ==> Past(log[i].until, sim.clock))
    && (forall e, i :: e in sim.stoppable && 0 <= i < |log| && log[i].job == Some(e.job.jobId) && !Past(log[i].until, sim.clock) ==>
         log[i].card in e.job.gpus)
  }

  // Starting a job.

  lemma {:induction false} PutMembers(es: seq<Entry>, n: Entry)
    ensures forall e :: e in Put(es, n) ==> e in es || e == n
  {
    if es != [] && es[0].job.jobId != n.job.jobId {
      PutMembers(es[1..], n);
    }
  }

  lemma {:induction false} StartEndsRight(sim: Sim, all: seq<Request>, cards: seq<Card>, log: seq<Stint>, stops: seq<Yield>, r: Request, gpus: seq<Uuid>)
    requires r in all && |cards| <= |log| && forall i :: 0 <= i < |log| ==> EndsRight(all, cards, stops, i, log[i])
    ensures var more := StartLog(sim, log, r, gpus); forall i :: 0 <= i < |more| ==> EndsRight(all, cards, stops, i, more[i])
  {
    var more := StartLog(sim, log, r, gpus);
    forall i | 0 <= i < |more|
      ensures EndsRight(all, cards, stops, i, more[i])
    {
      if i < |log| {
        assert more[i] == log[i];
      } else {
        assert more[i].job == Some(r.jobId) && more[i].from == sim.clock;
        assert RunsTo(all, cards, i, more[i], Done(sim, r));
      }
    }
  }

  lemma {:induction false} StartMarks(sim: Sim, log: seq<Stint>, n: nat, launches: seq<Launch>, r: Request, gpus: seq<Uuid>)
    requires n <= |log| && Marks(log[n..]) == AllMarks(launches)
    ensures Marks(StartLog(sim, log, r, gpus)[n..]) == AllMarks(launches + [Launch(r.jobId, gpus, sim.clock)])
  {
    var more, l := StartLog(sim, log, r, gpus), Launch(r.jobId, gpus, sim.clock);
    assert (launches + [l])[..|launches|] == launches;
    assert more[n..] == log[n..] + more[|log|..];
    assert Marks(more[n..]) == Marks(log[n..]) + LaunchMarks(l);
  }

  lemma {:induction false} StartOnce(sim: Sim, log: seq<Stint>, r: Request, gpus: seq<Uuid>)
    requires JobOnce(log) && r in sim.pending && OffCards(sim, log)
    ensures JobOnce(StartLog(sim, log, r, gpus))
  {
    var more := StartLog(sim, log, r, gpus);
    forall i, j | 0 <= i < j < |more| && more[i].job.Some? && more[i].job == more[j].job
      ensures more[i].from == more[j].from || Past(more[i].until, more[j].from)
    {
      if j < |log| {
        assert more[i] == log[i] && more[j] == log[j];
      } else if i < |log| {
        assert more[i] == log[i];
      }
    }
  }

  lemma {:induction false} StartOff(sim: Sim, shared: set<Uuid>, all: seq<Request>, log: seq<Stint>, r: Request, gpus: seq<Uuid>)
    requires Ok(sim, shared, all) && r in sim.pending && OffCards(sim, log)
    ensures OffCards(Start(sim, shared, r, gpus), StartLog(sim, log, r, gpus))
  {
    var t, more, n := Start(sim, shared, r, gpus), StartLog(sim, log, r, gpus), Started(sim, shared, r, gpus);
    NotRunning(sim, all, r);
    RemoveIs(sim.pending, r);
    PutMembers(sim.stoppable, n);
    StartFields(sim, shared, r, gpus);
    assert forall e :: e in t.stoppable ==> e in sim.stoppable || e == n;
    assert n.job.gpus == gpus && n.job.jobId == r.jobId;
    assert forall i :: 0 <= i < |log| ==> more[i] == log[i];
    assert forall i :: |log| <= i < |more| ==> more[i].card in gpus && more[i].job == Some(r.jobId);
    hide Start, StartLog, Started, Put, Remove, EntriesOk, QueuesOk;
  }

  lemma {:induction false} StartMayStop(sim: Sim, shared: set<Uuid>, all: seq<Request>, running: seq<Entry>, r: Request, gpus: seq<Uuid>)
    requires r in all && forall e :: e in sim.stoppable ==> MayStop(e.again, all, running)
    ensures forall e :: e in Start(sim, shared, r, gpus).stoppable ==> MayStop(e.again, all, running)
  {
    PutMembers(sim.stoppable, Started(sim, shared, r, gpus));
    hide Put, Remove;
  }

  lemma {:induction false} StartSchedule(sim: Sim, shared: set<Uuid>, all: seq<Request>, cards: seq<Card>, running: seq<Entry>,
                                         log: seq<Stint>, launches: seq<Launch>, stops: seq<Yield>, r: Request, gpus: seq<Uuid>)
    requires ScheduleOk(sim, all, cards, running, log, launches, stops) && Ok(sim, shared, all) && r in sim.pending && r in all
    ensures ScheduleOk(Start(sim, shared, r, gpus), all, cards, running,
                       StartLog(sim, log, r, gpus), launches + [Launch(r.jobId, gpus, sim.clock)], stops)
  {
    StartEndsRight(sim, all, cards, log, stops, r, gpus);
    StartMarks(sim, log, |cards|, launches, r, gpus);
    StartOnce(sim, log, r, gpus);
    StartOff(sim, shared, all, log, r, gpus);
    StartMayStop(sim, shared, all, running, r, gpus);
    assert Start(sim, shared, r, gpus).clock == sim.clock;
    hide Start, EndsRight, Marks, AllMarks, JobOnce, OffCards, MayStop, EntriesOk, QueuesOk;
  }

  lemma {:induction false} StartAllSchedule(sim: Sim, shared: set<Uuid>, all: seq<Request>, requests: seq<Request>, cards: seq<Card>, running: seq<Entry>,
                                            log: seq<Stint>, launches: seq<Launch>, stops: seq<Yield>,
                                            rs: seq<Request>, ds: seq<Decision>, k: nat)
    requires ScheduleOk(sim, all, cards, running, log, launches, stops)
    requires k <= |ds| == |rs| && Sound(sim, rs, ds) && sim.pending == rs && Sorted(rs) && Fine(sim, shared, all, requests, log)
    requires forall r :: r in rs ==> r in all
    ensures ScheduleOk(StartAll(sim, shared, rs, ds, k), all, cards, running,
                       StartAllLog(sim, shared, log, rs, ds, k), launches + RoundLaunches(rs, ds, sim.clock, k), stops)
  {
    hide ScheduleOk, Start, StartLog, Fine, Sound, Sorted, Ok;
    if k == 0 {
      assert launches + [] == launches;
    } else {
      StartAllSchedule(sim, shared, all, requests, cards, running, log, launches, stops, rs, ds, k - 1);
      StartAllFine(sim, shared, all, requests, log, rs, ds, k - 1);
      SameClock(sim, shared, rs, ds, k - 1);
      var t, more := StartAll(sim, shared, rs, ds, k - 1), StartAllLog(sim, shared, log, rs, ds, k - 1);
      var so := launches + RoundLaunches(rs, ds, sim.clock, k - 1);
      if ds[k - 1].Assigned? {
        FineIs(t, shared, all, requests, more);
        assert Unstarted(rs, ds, k - 1, rs[k - 1]);
        StartSchedule(t, shared, all, cards, running, more, so, stops, rs[k - 1], ds[k - 1].gpus);
        assert launches + RoundLaunches(rs, ds, sim.clock, k) == so + [Launch(rs[k - 1].jobId, ds[k - 1].gpus, sim.clock)];
      } else {
        assert launches + RoundLaunches(rs, ds, sim.clock, k) == so;
      }
    }
  }

  // Stopping some.

  lemma {:induction false} MoreStops(all: seq<Request>, cards: seq<Card>, stops: seq<Yield>, more: seq<Yield>, i: nat, s: Stint)
    requires EndsRight(all, cards, stops, i, s)
    ensures EndsRight(all, cards, stops + more, i, s)
  {
    var end :| RunsTo(all, cards, i, s, end) && (s.until == end || CutShort(s, end, stops));
    if s.until != end {
      var y :| y in stops && CutBy(s, end, y);
      assert y in stops + more;
    }
  }

  lemma {:induction false} YieldsSchedule(sim: Sim, all: seq<Request>, cards: seq<Card>, running: seq<Entry>,
                                          log: seq<Stint>, launches: seq<Launch>, stops: seq<Yield>, es: seq<Entry>, r: Request)
    requires ScheduleOk(sim, all, cards, running, log, launches, stops) && forall e :: e in es ==> e in sim.stoppable
    ensures ScheduleOk(sim, all, cards, running, log, launches, stops + YieldsFor(es, r, sim.clock))
  {
    var more := YieldsFor(es, r, sim.clock);
    forall i | 0 <= i < |log|
      ensures EndsRight(all, cards, stops + more, i, log[i])
    {
      MoreStops(all, cards, stops, more, i, log[i]);
    }
    hide EndsRight, Marks, AllMarks, JobOnce, OffCards, MayStop;
    forall y | y in stops + more
      ensures y.at <= sim.clock && MayStop(y.stopped, all, running)
    {
      if y !in stops {
        var i :| 0 <= i < |es| && more[i] == y;
        assert es[i] in es;
      }
    }
  }

  /** What is not over yet has not been cut. */
  lemma {:induction false} Uncut(all: seq<Request>, cards: seq<Card>, stops: seq<Yield>, i: nat, s: Stint, clock: real)
    requires EndsRight(all, cards, stops, i, s) && !Past(s.until, clock) && forall y :: y in stops ==> y.at <= clock
    ensures RunsTo(all, cards, i, s, s.until)
  {
  }

  lemma {:induction false} StopEndsRight(sim: Sim, all: seq<Request>, cards: seq<Card>, log: seq<Stint>, stops: seq<Yield>, e: Entry, y: Yield, i: nat)
    requires i < |log| && EndsRight(all, cards, stops, i, log[i]) && (forall y :: y in stops ==> y.at <= sim.clock)
    requires LogNames(sim, log) && log[i].from <= sim.clock && e in sim.stoppable && e.job.jobId in sim.ends && Live(sim, e)
    requires y in stops && y.stopped.jobId == e.job.jobId && y.at == sim.clock
    ensures EndsRight(all, cards, stops, i, StopLog(sim, log, e)[i])
  {
    var s := StopLog(sim, log, e)[i];
    if s != log[i] {
      Uncut(all, cards, stops, i, log[i], sim.clock);
      var end := log[i].until;
      assert RunsTo(all, cards, i, s, end);
      assert CutBy(s, end, y);
      assert CutShort(s, end, stops);
    }
  }

  lemma {:induction false} StopOff(sim: Sim, shared: set<Uuid>, all: seq<Request>, log: seq<Stint>, e: Entry)
    requires Ok(sim, shared, all) && e in sim.stoppable && OffCards(sim, log)
    ensures OffCards(Stop(sim, e), StopLog(sim, log, e))
  {
    PopIs(sim.stoppable, e.job.jobId);
    assert EntryOk(sim, shared, e);
    var t, less := Stop(sim, e), StopLog(sim, log, e);
    assert t.pending == sim.pending + [e.again] && t.clock == sim.clock && t.stoppable == Pop(sim.stoppable, e.job.jobId);
    assert e.again.jobId == e.job.jobId;
    hide Stop, Pop, StopLog, EntriesOk, QueuesOk, EntryOk;
    assert forall i :: 0 <= i < |less| ==> less[i] == Cut(log[i], e.job.gpus, sim.clock);
  }

  lemma {:induction false} StopOnce(sim: Sim, log: seq<Stint>, e: Entry)
    requires JobOnce(log) && forall i :: 0 <= i < |log| ==> log[i].from <= sim.clock
    ensures JobOnce(StopLog(sim, log, e))
  {
    var less := StopLog(sim, log, e);
    forall i, j | 0 <= i < j < |less| && less[i].job.Some? && less[i].job == less[j].job
      ensures less[i].from == less[j].from || Past(less[i].until, less[j].from)
    {
      assert log[i].job == log[j].job;
    }
  }

  lemma {:induction false} StopMarks(sim: Sim, log: seq<Stint>, e: Entry, n: nat)
    requires n <= |log|
    ensures Marks(StopLog(sim, log, e)[n..]) == Marks(log[n..])
  {
    var less := StopLog(sim, log, e);
    forall i | 0 <= i < |log| - n
      ensures Marks(less[n..])[i] == Marks(log[n..])[i]
    {
      assert less[n..][i] == less[n + i] == Cut(log[n + i], e.job.gpus, sim.clock);
    }
  }

  lemma {:induction false} StopSchedule(sim: Sim, shared: set<Uuid>, all: seq<Request>, cards: seq<Card>, running: seq<Entry>,
                                        log: seq<Stint>, launches: seq<Launch>, stops: seq<Yield>, e: Entry, y: Yield)
    requires ScheduleOk(sim, all, cards, running, log, launches, stops) && Ok(sim, shared, all)
    requires LogOk(sim, log) && LogNames(sim, log) && e in sim.stoppable && e.job.jobId in sim.ends && Live(sim, e)
    requires y in stops && y.stopped.jobId == e.job.jobId && y.at == sim.clock
    ensures ScheduleOk(Stop(sim, e), all, cards, running, StopLog(sim, log, e), launches, stops)
  {
    var t, less := Stop(sim, e), StopLog(sim, log, e);
    assert forall i :: 0 <= i < |log| ==> log[i].from <= sim.clock;
    StopOff(sim, shared, all, log, e);
    StopOnce(sim, log, e);
    StopMarks(sim, log, e, |cards|);
    PopIs(sim.stoppable, e.job.jobId);
    assert t.clock == sim.clock && t.stoppable == Pop(sim.stoppable, e.job.jobId);
    forall i | 0 <= i < |less|
      ensures EndsRight(all, cards, stops, i, less[i])
    {
      StopEndsRight(sim, all, cards, log, stops, e, y, i);
    }
    hide Stop, StopLog, Pop, EndsRight, Marks, AllMarks, JobOnce, OffCards, MayStop, EntriesOk, QueuesOk, LogOk, LogNames;
  }

  lemma {:induction false} StopAllSchedule(sim: Sim, shared: set<Uuid>, all: seq<Request>, requests: seq<Request>, cards: seq<Card>, running: seq<Entry>,
                                           log: seq<Stint>, launches: seq<Launch>, stops: seq<Yield>, es: seq<Entry>)
    requires ScheduleOk(sim, all, cards, running, log, launches, stops)
    requires Fine(sim, shared, all, requests, log) && AllStoppable(sim, es)
    requires forall e :: e in es ==> exists y :: y in stops && y.stopped.jobId == e.job.jobId && y.at == sim.clock
    ensures ScheduleOk(StopAll(sim, es), all, cards, running, StopAllLog(sim, log, es), launches, stops)
    decreases |es|
  {
    hide ScheduleOk, Stop, StopLog, Stopped, EntriesOk, QueuesOk, Answered, LogOk, LogNames;
    if es != [] {
      var rest, e := es[..|es| - 1], es[|es| - 1];
      assert es == rest + [e];
      assert AllStoppable(sim, rest);
      StopAllSchedule(sim, shared, all, requests, cards, running, log, launches, stops, rest);
      StopAllFine(sim, shared, all, requests, log, rest);
      LastIsReady(sim, StopAll(sim, rest), es);
      assert StopAll(sim, rest).clock == sim.clock by { StoppedSameClock(sim, StopAll(sim, rest), rest); }
      assert e in es;
      var y :| y in stops && y.stopped.jobId == e.job.jobId && y.at == sim.clock;
      StopSchedule(StopAll(sim, rest), shared, all, cards, running, StopAllLog(sim, log, rest), launches, stops, e, y);
    }
  }

  lemma {:induction false} StoppedSameClock(t: Sim, u: Sim, es: seq<Entry>)
    requires Stopped(t, u, es)
    ensures u.clock == t.clock
  {
  }

  // Everything else a round does.

  lemma {:induction false} LaterSchedule(sim: Sim, t: Sim, all: seq<Request>, cards: seq<Card>, running: seq<Entry>, log: seq<Stint>, launches: seq<Launch>, stops: seq<Yield>)
    requires ScheduleOk(sim, all, cards, running, log, launches, stops) && sim.clock <= t.clock
    requires (forall e :: e in t.stoppable ==> e in sim.stoppable) && (forall r :: r in t.pending ==> r in sim.pending)
    ensures ScheduleOk(t, all, cards, running, log, launches, stops)
  {
    hide ScheduleIs, MayStop;
  }

  // What a stop ends.

  /** No stint of a job that had begun when it was stopped goes on after that. */
  ghost predicate EveryStopCuts(log: seq<Stint>, stops: seq<Yield>) {
    forall y, i :: y in stops && 0 <= i < |log| && log[i].job == Some(y.stopped.jobId) && log[i].from < y.at ==> Past(log[i].until, y.at)
  }

  lemma {:induction false} StartCuts(sim: Sim, log: seq<Stint>, stops: seq<Yield>, r: Request, gpus: seq<Uuid>)
    requires EveryStopCuts(log, stops) && forall y :: y in stops ==> y.at <= sim.clock
    ensures EveryStopCuts(StartLog(sim, log, r, gpus), stops)
  {
    var more := StartLog(sim, log, r, gpus);
    forall y, i | y in stops && 0 <= i < |more| && more[i].job == Some(y.stopped.jobId) && more[i].from < y.at
      ensures Past(more[i].until, y.at)
    {
      assert i < |log| && more[i] == log[i];
    }
  }

  lemma {:induction false} StartAllCuts(sim: Sim, shared: set<Uuid>, log: seq<Stint>, stops: seq<Yield>, rs: seq<Request>, ds: seq<Decision>, k: nat)
    requires k <= |ds| == |rs| && EveryStopCuts(log, stops) && forall y :: y in stops ==> y.at <= sim.clock
    ensures EveryStopCuts(StartAllLog(sim, shared, log, rs, ds, k), stops)
  {
    hide EveryStopCuts, Start, StartLog;
    if k > 0 {
      StartAllCuts(sim, shared, log, stops, rs, ds, k - 1);
      SameClock(sim, shared, rs, ds, k - 1);
      if ds[k - 1].Assigned? {
        StartCuts(StartAll(sim, shared, rs, ds, k - 1), StartAllLog(sim, shared, log, rs, ds, k - 1), stops, rs[k - 1], ds[k - 1].gpus);
      }
    }
  }

  /** Stopping jobs changes no stint but those still under way. */
  lemma {:induction false} StopAllKeeps(t: Sim, log: seq<Stint>, es: seq<Entry>)
    ensures var less := StopAllLog(t, log, es);
            && |less| == |log| && StopAll(t, es).clock == t.clock
            && (forall i :: 0 <= i < |log| ==> less[i].job == log[i].job && less[i].from == log[i].from)
            && (forall i :: 0 <= i < |log| && Past(log[i].until, t.clock) ==> less[i] == log[i])
            && (forall e :: e in es ==> e.again in StopAll(t, es).pending)
    decreases |es|
  {
    if es != [] {
      var rest, e := es[..|es| - 1], es[|es| - 1];
      assert es == rest + [e];
      StopAllKeeps(t, log, rest);
      var u, more := StopAll(t, rest), StopAllLog(t, log, rest);
      assert StopAll(t, es).pending == u.pending + [e.again];
      assert forall i :: 0 <= i < |log| ==> StopLog(u, more, e)[i] == Cut(more[i], e.job.gpus, u.clock);
      hide Pop;
    }
  }

  lemma {:induction false} StopAllCuts(t: Sim, log: seq<Stint>, stops: seq<Yield>, es: seq<Entry>, r: Request)
    requires EveryStopCuts(log, stops) && (forall y :: y in stops ==> y.at <= t.clock)
    requires OffCards(StopAll(t, es), StopAllLog(t, log, es))
    ensures EveryStopCuts(StopAllLog(t, log, es), stops + YieldsFor(es, r, t.clock))
  {
    StopAllKeeps(t, log, es);
    var u, less, cuts := StopAll(t, es), StopAllLog(t, log, es), YieldsFor(es, r, t.clock);
    hide StopAll, StopAllLog;
    forall y, i | y in stops + cuts && 0 <= i < |less| && less[i].job == Some(y.stopped.jobId) && less[i].from < y.at
      ensures Past(less[i].until, y.at)
    {
      if y in stops {
        assert Past(log[i].until, y.at);
      } else {
        var k :| 0 <= k < |es| && cuts[k] == y;
        assert es[k] in es && y.stopped in u.pending;
      }
    }
  }
}
