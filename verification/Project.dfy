/** The loop of `project`, round by round. */
module Project {
  import opened Lists
  import opened Preempt
  import opened Rule
  import opened RuleTheorems
  import opened Pass
  import opened Simulation
  import opened Rounds
  import opened Owing
  import opened Countdown
  import opened History
  import opened Schedule
  import opened Replay
  import opened Projecting

  /** What holds in front of every round. */
  ghost predicate Inv(x: Setup, cards: seq<Card>, running: seq<Entry>, all: seq<Request>, requests: seq<Request>,
                      sim: Sim, log: seq<Stint>, launches: seq<Launch>, stops: seq<Yield>, owed: Option<Request>) {
    && SetupOk(x) && Sorted(all)
    && Fine(sim, Elems(x.shared), all, requests, log) && Sorted(sim.pending) && Complete(x, sim)
    && HistoryOk(sim, all, cards, running, log, launches) && Paid(stops, launches, owed, sim.clock)
    && ScheduleOk(sim, all, cards, running, log, launches, stops)
    && (owed.Some? ==> Owed(x, sim, owed.value))
  }

  predicate AllLive(sim: Sim) {
    forall e :: e in sim.stoppable ==> e.job.jobId in sim.ends && Live(sim, e)
  }

  lemma {:induction false} FineEnds(sim: Sim, shared: set<Uuid>, all: seq<Request>, requests: seq<Request>, log: seq<Stint>)
    requires Fine(sim, shared, all, requests, log)
    ensures forall e :: e in sim.stoppable ==> e.job.jobId in sim.ends
    ensures Distinct(sim.pending) && Distinct(all) && DistinctEntries(sim.stoppable) && Ok(sim, shared, all)
    ensures forall r :: r in sim.pending ==> r in all
    ensures forall e :: e in sim.stoppable ==> e.again in all
  {
    hide Answered, LogOk, LogNames;
    forall e | e in sim.stoppable ensures e.job.jobId in sim.ends { assert EntryOk(sim, shared, e); }
  }

  lemma {:induction false} PruneFine(sim: Sim, shared: set<Uuid>, all: seq<Request>, requests: seq<Request>, log: seq<Stint>)
    requires Fine(sim, shared, all, requests, log)
    requires forall e :: e in sim.stoppable ==> e.job.jobId in sim.ends
    ensures Fine(Prune(sim), shared, all, requests, log) && AllLive(Prune(sim))
  {
    hide Answered, LogOk, LogNames, EntriesOk, QueuesOk, Prune;
    PruneKeeps(sim, shared, all, requests, log);
    FineEnds(Prune(sim), shared, all, requests, log);
  }

  lemma {:induction false} PruneInv(x: Setup, cards: seq<Card>, running: seq<Entry>, all: seq<Request>, requests: seq<Request>,
                                    sim: Sim, log: seq<Stint>, launches: seq<Launch>, stops: seq<Yield>, owed: Option<Request>)
    requires Inv(x, cards, running, all, requests, sim, log, launches, stops, owed)
    requires forall e :: e in sim.stoppable ==> e.job.jobId in sim.ends
    ensures Inv(x, cards, running, all, requests, Prune(sim), log, launches, stops, owed) && AllLive(Prune(sim))
    ensures Outstanding(Prune(sim), owed) == Outstanding(sim, owed) && Later(Prune(sim)) == Later(sim)
  {
    PruneFine(sim, Elems(x.shared), all, requests, log);
    PruneFewer(sim);
    LaterSchedule(sim, Prune(sim), all, cards, running, log, launches, stops);
    hide Fine, LiveOnly, LaunchesOk, Incumbents, Paid, StartedAt, Sorted, AllLive, ScheduleOk;
  }

  lemma {:induction false} PruneFewer(sim: Sim)
    requires forall e :: e in sim.stoppable ==> e.job.jobId in sim.ends
    ensures Prune(sim).clock == sim.clock && Prune(sim).pending == sim.pending
    ensures forall e :: e in Prune(sim).stoppable ==> e in sim.stoppable
  {
    LiveOnlyMembers(sim, sim.stoppable);
  }

  lemma {:induction false} LiveOnlyMembers(sim: Sim, es: seq<Entry>)
    requires forall e :: e in es ==> e.job.jobId in sim.ends
    ensures forall e :: e in LiveOnly(sim, es) ==> e in es
  {
    if es != [] {
      LiveOnlyMembers(sim, es[1..]);
    }
  }

  // The decisions of a round.

  lemma {:induction false} RoundNames(x: Setup, sim: Sim)
    ensures forall i :: 0 <= i < |sim.pending| ==> Round(x, sim)[i].jobId == sim.pending[i].jobId
  {
    hide After, Without, Within, Free, Back, Fillable, Cover;
  }

  lemma {:induction false} RoundIsSized(x: Setup, sim: Sim, all: seq<Request>)
    requires SetupOk(x) && forall r :: r in sim.pending ==> r in all
    ensures Sized(sim.pending, Round(x, sim), all)
  {
    hide Decide, Next, After;
    PassSeparate(x, sim);
    var h, s, rs := PassHost(x, sim.stoppable), PassState(x, sim), sim.pending;
    forall i | 0 <= i < |rs| && Round(x, sim)[i].Assigned?
      ensures NoDup(Round(x, sim)[i].gpus) && |Round(x, sim)[i].gpus| == rs[i].gpus
    {
      AssignedIsSafe(h, s, rs, i);
    }
  }

  lemma {:induction false} RoundPaysDebt(x: Setup, sim: Sim, owed: Option<Request>)
    requires SetupOk(x) && Sorted(sim.pending) && (owed.Some? ==> Owed(x, sim, owed.value))
    ensures owed.Some? ==> exists m :: 0 <= m < |sim.pending| && sim.pending[m] == owed.value && Round(x, sim)[m].Assigned?
  {
    hide Round, Hopeless, Usable;
    if owed.Some? {
      var m :| 0 <= m < |sim.pending| && sim.pending[m] == owed.value;
      OwedIsPaid(x, sim, m);
    }
  }

  /** After the starts of a round nothing is owed, and the queue is no bigger a
      number than it counted for. */
  lemma {:induction false} StartsInv(x: Setup, cards: seq<Card>, running: seq<Entry>, all: seq<Request>, requests: seq<Request>,
                                     sim: Sim, log: seq<Stint>, launches: seq<Launch>, stops: seq<Yield>, owed: Option<Request>)
    requires Inv(x, cards, running, all, requests, sim, log, launches, stops, owed)
    ensures var rs, ds, shared := sim.pending, Round(x, sim), Elems(x.shared);
            var t := StartAll(sim, shared, rs, ds, |rs|);
            && Inv(x, cards, running, all, requests, t, StartAllLog(sim, shared, log, rs, ds, |rs|),
                   launches + RoundLaunches(rs, ds, sim.clock, |rs|), stops, None)
            && Underway(sim, t, rs, ds, |rs|)
            && Weight(all, RequestIds(t.pending)) <= Weight(all, Outstanding(sim, owed))
            && (owed.None? && (exists i :: 0 <= i < |ds| && ds[i].Assigned?) ==>
                 Weight(all, RequestIds(t.pending)) < Weight(all, Outstanding(sim, owed)))
  {
    hide Fine, HistoryOk, ScheduleOk, Paid, Owed, Round, Weight, StartAll, StartAllLog, RoundLaunches, SetupOk, Outstanding, Sound, Sized,
         RequestIds, Distinct;
    var rs, ds, shared := sim.pending, Round(x, sim), Elems(x.shared);
    var t := StartAll(sim, shared, rs, ds, |rs|);
    FineEnds(sim, shared, all, requests, log);
    RoundIsSound(x, sim);
    RoundIsSized(x, sim, all);
    RoundPaysDebt(x, sim, owed);
    StartAllFine(sim, shared, all, requests, log, rs, ds, |rs|);
    StartAllHistory(sim, shared, all, cards, running, log, launches, rs, ds, |rs|);
    StartAllSchedule(sim, shared, all, requests, cards, running, log, launches, stops, rs, ds, |rs|);
    RoundPays(stops, launches, owed, sim.clock, rs, ds);
    StartsShrink(sim, t, rs, ds, all, owed);
  }

  lemma {:induction false} ChosenStoppable(sim: Sim, t: Sim, rs: seq<Request>, ds: seq<Decision>, es: seq<Entry>)
    requires |ds| == |rs| && Underway(sim, t, rs, ds, |rs|) && AllStoppable(sim, es)
    ensures AllStoppable(t, es)
  {
  }

  lemma {:induction false} StoppedComplete(x: Setup, t: Sim, u: Sim, es: seq<Entry>)
    requires Complete(x, t) && Stopped(t, u, es)
    ensures Complete(x, u.(pending := ByKey(u.pending)))
  {
    hide ByKey, Again, AllCards;
  }

  lemma {:induction false} SortFine(sim: Sim, shared: set<Uuid>, all: seq<Request>, requests: seq<Request>, log: seq<Stint>)
    requires Fine(sim, shared, all, requests, log)
    ensures Fine(sim.(pending := ByKey(sim.pending)), shared, all, requests, log)
    ensures Sorted(sim.(pending := ByKey(sim.pending)).pending)
  {
    hide EntriesOk, QueuesOk, Answered, LogOk, LogNames, ByKey;
    SortKeeps(sim, shared, all, requests, log);
  }

  lemma {:induction false} SortHistory(sim: Sim, all: seq<Request>, cards: seq<Card>, running: seq<Entry>, log: seq<Stint>, launches: seq<Launch>)
    requires HistoryOk(sim, all, cards, running, log, launches)
    ensures HistoryOk(sim.(pending := ByKey(sim.pending)), all, cards, running, log, launches)
  {
    hide LaunchesOk, Incumbents, StartedAt, ByKey;
  }

  /** After the stops of a round the stuck job is owed a start, and counting it
      as started the queue is a smaller number. */
  lemma {:induction false} StopsInv(x: Setup, cards: seq<Card>, running: seq<Entry>, all: seq<Request>, requests: seq<Request>,
                                    sim: Sim, t: Sim, log: seq<Stint>, launches: seq<Launch>, stops: seq<Yield>, m: nat)
    requires Ok(sim, Elems(x.shared), all) && AllLive(sim) && Sorted(sim.pending) && Complete(x, sim)
    requires Underway(sim, t, sim.pending, Round(x, sim), |sim.pending|)
    requires Inv(x, cards, running, all, requests, t, log, launches, stops, None)
    requires FirstStuck(Round(x, sim), m) && Round(x, sim)[m].preempts != []
    ensures forall id :: id in Round(x, sim)[m].preempts ==> id in EntryIds(sim.stoppable)
    ensures var es, r := Chosen(sim.stoppable, Round(x, sim)[m].preempts), sim.pending[m];
            var u := StopAll(t, es);
            var v := u.(pending := ByKey(u.pending));
            && AllStoppable(t, es)
            && Inv(x, cards, running, all, requests, v, StopAllLog(t, log, es), launches,
                   stops + YieldsFor(es, r, sim.clock), Some(r))
            && Weight(all, Outstanding(v, Some(r))) < Weight(all, RequestIds(t.pending))
  {
    hide Fine, HistoryOk, ScheduleOk, Paid, Owed, Round, Weight, SetupOk, EntriesOk, QueuesOk, StopAll, StopAllLog, ByKey, AllLive, Chosen,
         CardsApart, Freed, Jobs, AllStoppable, Stopped, YieldsFor, EntryIds, RequestIds, Distinct;
    var shared, r := Elems(x.shared), sim.pending[m];
    assert forall e :: e in sim.stoppable ==> e.job.jobId in sim.ends && Live(sim, e) by { LiveAll(sim); }
    StopsAre(x, sim, all, m);
    var es := Chosen(sim.stoppable, Round(x, sim)[m].preempts);
    assert es != [] by { ChosenSome(sim.stoppable, Round(x, sim)[m].preempts); }
    ChosenStoppable(sim, t, sim.pending, Round(x, sim), es);
    var u := StopAll(t, es);
    StopAllFine(t, shared, all, requests, log, es);
    SortFine(u, shared, all, requests, StopAllLog(t, log, es));
    StopAllHistory(t, shared, all, requests, cards, running, log, launches, es);
    SortHistory(u, all, cards, running, StopAllLog(t, log, es), launches);
    StopsSchedule(t, shared, all, requests, cards, running, log, launches, stops, es, r);
    StoppedComplete(x, t, u, es);
    assert u.clock == t.clock by { StoppedClock(t, u, es); }
    DebtArises(x, sim, t, u, m, es);
    StopsOwe(stops, launches, sim.clock, es, r);
    assert Unstarted(sim.pending, Round(x, sim), |sim.pending|, r);
    FineEnds(t, shared, all, requests, log);
    AllStoppableAgain(t, all, es);
    StopsShrink(t, u, es, all, r);
    OutstandingIs(u.(pending := ByKey(u.pending)), r);
  }

  lemma {:induction false} StopsSchedule(t: Sim, shared: set<Uuid>, all: seq<Request>, requests: seq<Request>, cards: seq<Card>, running: seq<Entry>,
                                         log: seq<Stint>, launches: seq<Launch>, stops: seq<Yield>, es: seq<Entry>, r: Request)
    requires ScheduleOk(t, all, cards, running, log, launches, stops)
    requires Fine(t, shared, all, requests, log) && AllStoppable(t, es)
    ensures var u := StopAll(t, es);
            ScheduleOk(u.(pending := ByKey(u.pending)), all, cards, running, StopAllLog(t, log, es), launches, stops + YieldsFor(es, r, t.clock))
  {
    hide ScheduleOk, StopAll, StopAllLog, ByKey, EntriesOk, QueuesOk, Answered, LogOk, LogNames, Live, DistinctEntries;
    var u, more := StopAll(t, es), YieldsFor(es, r, t.clock);
    YieldsSchedule(t, all, cards, running, log, launches, stops, es, r);
    forall e | e in es
      ensures exists y :: y in stops + more && y.stopped.jobId == e.job.jobId && y.at == t.clock
    {
      assert e in t.stoppable && EntryOk(t, shared, e) by { EntryThere(t, shared, e); }
      var i :| 0 <= i < |es| && es[i] == e;
      assert more[i] in stops + more;
    }
    StopAllSchedule(t, shared, all, requests, cards, running, log, launches, stops + more, es);
    ByKeyMembers(u.pending);
    LaterSchedule(u, u.(pending := ByKey(u.pending)), all, cards, running, StopAllLog(t, log, es), launches, stops + more);
  }

  lemma {:induction false} EntryThere(t: Sim, shared: set<Uuid>, e: Entry)
    requires EntriesOk(t, shared) && e in t.stoppable
    ensures EntryOk(t, shared, e)
  {
  }

  lemma {:induction false} LiveAll(sim: Sim)
    requires AllLive(sim)
    ensures forall e :: e in sim.stoppable ==> e.job.jobId in sim.ends && Live(sim, e)
  {
  }

  lemma {:induction false} ChosenSome(es: seq<Entry>, ids: seq<JobId>)
    requires ids != [] && forall id :: id in ids ==> id in EntryIds(es)
    ensures Chosen(es, ids) != []
  {
  }

  lemma {:induction false} StoppedClock(t: Sim, u: Sim, es: seq<Entry>)
    requires Stopped(t, u, es)
    ensures u.clock == t.clock
  {
  }

  lemma {:induction false} AllStoppableAgain(t: Sim, all: seq<Request>, es: seq<Entry>)
    requires AllStoppable(t, es) && forall e :: e in t.stoppable ==> e.again in all
    ensures forall e :: e in es ==> e.again in all
  {
  }

  lemma {:induction false} OutstandingIs(v: Sim, r: Request)
    ensures Outstanding(v, Some(r)) == RequestIds(v.pending) - {r.jobId}
  {
  }

  /** Moving the clock on. */
  lemma {:induction false} TickInv(x: Setup, cards: seq<Card>, running: seq<Entry>, all: seq<Request>, requests: seq<Request>,
                                   t: Sim, log: seq<Stint>, launches: seq<Launch>, stops: seq<Yield>, clock: real)
    requires Inv(x, cards, running, all, requests, t, log, launches, stops, None) && t.clock <= clock
    ensures Inv(x, cards, running, all, requests, t.(clock := clock), log, launches, stops, None)
  {
    hide EntriesOk, QueuesOk, Answered, LogOk, LogNames, LaunchesOk, Incumbents, StartedAt, Sorted, SetupOk, Paid;
    TickKeeps(t, Elems(x.shared), all, requests, log, clock);
    LaterSchedule(t, t.(clock := clock), all, cards, running, log, launches, stops);
    hide ScheduleOk;
    PaidLater(stops, launches, t.clock, clock);
  }

  lemma {:induction false} NothingStarted(sim: Sim, shared: set<Uuid>, rs: seq<Request>, ds: seq<Decision>, k: nat)
    requires k <= |ds| == |rs| && forall i :: 0 <= i < |ds| ==> !ds[i].Assigned?
    ensures StartAll(sim, shared, rs, ds, k) == sim
  {
    if k > 0 {
      NothingStarted(sim, shared, rs, ds, k - 1);
    }
  }

  // The loops of a round.

  /** `{r.job_id: r for r in pending}` */
  function ById(rs: seq<Request>): map<JobId, Request> {
    if rs == [] then map[] else ById(rs[..|rs| - 1])[rs[|rs| - 1].jobId := rs[|rs| - 1]]
  }

  lemma {:induction false} ByIdIs(rs: seq<Request>, k: nat)
    requires Distinct(rs) && k < |rs|
    ensures rs[k].jobId in ById(rs) && ById(rs)[rs[k].jobId] == rs[k]
    decreases |rs|
  {
    if k < |rs| - 1 {
      ByIdIs(rs[..|rs| - 1], k);
    }
  }

  method StartAssigned(sim: Sim, shared: set<Uuid>, decisions: seq<Decision>) returns (t: Sim)
    requires |decisions| == |sim.pending| && Distinct(sim.pending)
    requires forall k :: 0 <= k < |decisions| ==> decisions[k].jobId == sim.pending[k].jobId
    ensures t == StartAll(sim, shared, sim.pending, decisions, |decisions|)
  {
    hide Start, ById;
    t := sim;
    var byId := ById(sim.pending);
    for k := 0 to |decisions|
      invariant t == StartAll(sim, shared, sim.pending, decisions, k)
    {
      var decision := decisions[k];
      if decision.Assigned? {
        ByIdIs(sim.pending, k);
        t := Start(t, shared, byId[decision.jobId], decision.gpus);
      }
    }
  }

  lemma {:induction false} SameEntryThere(a: seq<Entry>, b: seq<Entry>, id: JobId)
    requires DistinctEntries(a) && (forall e :: e in b ==> e in a) && id in EntryIds(b)
    ensures id in EntryIds(a) && EntryFor(a, id) == EntryFor(b, id)
  {
    var e := EntryFor(b, id);
    assert e in a;
    var i :| 0 <= i < |a| && a[i] == e;
    var j :| 0 <= j < |a| && a[j] == EntryFor(a, id);
  }

  /** The jobs still to stop are stoppable once the first `k` are stopped. */
  ghost predicate StopsLeft(sim: Sim, t: Sim, ids: seq<JobId>, es: seq<Entry>, k: nat) {
    && |es| == |ids| && DistinctEntries(t.stoppable)
    && (forall e :: e in t.stoppable ==> e in sim.stoppable)
    && forall j :: k <= j < |ids| ==> es[j] in t.stoppable && es[j].job.jobId == ids[j]
  }

  lemma {:induction false} StopNext(sim: Sim, t: Sim, ids: seq<JobId>, es: seq<Entry>, k: nat)
    requires StopsLeft(sim, t, ids, es, k) && k < |ids| && NoDup(ids)
    ensures ids[k] in EntryIds(t.stoppable) && EntryFor(t.stoppable, ids[k]) == es[k]
    ensures StopsLeft(sim, Stop(t, es[k]), ids, es, k + 1)
  {
    assert es[k] in t.stoppable;
    SameEntryThere(t.stoppable, t.stoppable, ids[k]);
    PopIs(t.stoppable, ids[k]);
    var e := EntryFor(t.stoppable, ids[k]);
    var i :| 0 <= i < |t.stoppable| && t.stoppable[i] == e;
    var j :| 0 <= j < |t.stoppable| && t.stoppable[j] == es[k];
    hide Pop;
  }

  method StopChosen(sim: Sim, ids: seq<JobId>) returns (t: Sim)
    requires DistinctEntries(sim.stoppable) && NoDup(ids) && forall id :: id in ids ==> id in EntryIds(sim.stoppable)
    ensures t == StopAll(sim, Chosen(sim.stoppable, ids))
  {
    t := sim;
    ghost var es := Chosen(sim.stoppable, ids);
    assert es[..0] == [];
    hide Pop, Stop, EntryFor, DistinctEntries, NoDup, Chosen;
    for k := 0 to |ids|
      invariant t == StopAll(sim, es[..k]) && StopsLeft(sim, t, ids, es, k)
    {
      StopNext(sim, t, ids, es, k);
      hide StopsLeft;
      t := Stop(t, EntryFor(t.stoppable, ids[k]));
      assert es[..k + 1][..k] == es[..k];
    }
    assert es[..|ids|] == es;
  }

  // Why the rest have no start time.

  /** The first job of these that waits. */
  ghost predicate FirstHolder(decisions: seq<Decision>, ids: set<JobId>, k: nat, f: nat) {
    && f < k <= |decisions| && decisions[f].Holds? && decisions[f].jobId in ids
    && forall i :: 0 <= i < f && decisions[i].Holds? ==> decisions[i].jobId !in ids
  }

  ghost predicate NoHolder(decisions: seq<Decision>, ids: set<JobId>, k: nat) {
    k <= |decisions| && forall i :: 0 <= i < k && decisions[i].Holds? ==> decisions[i].jobId !in ids
  }

  predicate DistinctDecisions(decisions: seq<Decision>) {
    forall i, j :: 0 <= i < j < |decisions| ==> decisions[i].jobId != decisions[j].jobId
  }

  /** The reason a decision comes to. */
  ghost predicate Because(decisions: seq<Decision>, ids: set<JobId>, i: nat, why: Unknown)
    requires i < |decisions|
  {
    match decisions[i]
    case Fails(_, reason) => why == NeverFits(reason)
    case SteppedOver(_, short) => why == TheirCards(short)
    case Holds(_, _, _, _, _) =>
      (NoHolder(decisions, ids, i) && why == NoEndTime)
      || exists f: nat :: FirstHolder(decisions, ids, i, f) && why == Behind(decisions[f].jobId)
    case Assigned(_, _, _) => true
  }

  predicate Told(decisions: seq<Decision>, ids: set<JobId>, i: nat)
    requires i < |decisions|
  {
    decisions[i].jobId in ids && !decisions[i].Assigned?
  }

  /** Each job of these that is not assigned cards has its reason. */
  ghost predicate Explains(decisions: seq<Decision>, ids: set<JobId>, k: nat, reasons: map<JobId, Unknown>)
    requires k <= |decisions|
  {
    && (forall id :: id in reasons <==> exists i :: 0 <= i < k && decisions[i].jobId == id && Told(decisions, ids, i))
    && forall i :: 0 <= i < k && Told(decisions, ids, i) ==> Because(decisions, ids, i, reasons[decisions[i].jobId])
  }

  lemma {:induction false} ExplainsMore(decisions: seq<Decision>, ids: set<JobId>, k: nat, reasons: map<JobId, Unknown>, why: Option<Unknown>)
    requires k < |decisions| && DistinctDecisions(decisions) && Explains(decisions, ids, k, reasons)
    requires why.Some? <==> Told(decisions, ids, k)
    requires why.Some? ==> Because(decisions, ids, k, why.value)
    ensures Explains(decisions, ids, k + 1, if why.Some? then reasons[decisions[k].jobId := why.value] else reasons)
  {
    hide Because, Told;
    var more := if why.Some? then reasons[decisions[k].jobId := why.value] else reasons;
    forall i | 0 <= i < k + 1 && Told(decisions, ids, i)
      ensures decisions[i].jobId in more && Because(decisions, ids, i, more[decisions[i].jobId])
    {
      assert i < k ==> decisions[i].jobId != decisions[k].jobId;
    }
  }

  method UnknownReasons(decisions: seq<Decision>, ids: set<JobId>) returns (reasons: map<JobId, Unknown>)
    requires DistinctDecisions(decisions)
    ensures Explains(decisions, ids, |decisions|, reasons)
  {
    reasons := map[];
    var firstHolder: Option<JobId> := None;
    ghost var first: nat := 0;
    hide Explains, DistinctDecisions;
    assert Explains(decisions, ids, 0, reasons) by { NobodyTold(decisions, ids); }
    for k := 0 to |decisions|
      invariant Explains(decisions, ids, k, reasons)
      invariant firstHolder.None? ==> NoHolder(decisions, ids, k)
      invariant firstHolder.Some? ==> FirstHolder(decisions, ids, k, first) && firstHolder.value == decisions[first].jobId
    {
      var d := decisions[k];
      var why: Option<Unknown> := None;
      if d.jobId in ids {
        match d {
          case Fails(_, reason) =>
            why := Some(NeverFits(reason));
          case SteppedOver(_, short) =>
            why := Some(TheirCards(short));
          case Holds(_, _, _, _, _) =>
            why := Some(if firstHolder.Some? then Behind(firstHolder.value) else NoEndTime);
          case Assigned(_, _, _) =>
        }
      }
      ExplainsMore(decisions, ids, k, reasons, why);
      if why.Some? {
        reasons := reasons[d.jobId := why.value];
        if d.Holds? && firstHolder.None? {
          firstHolder, first := Some(d.jobId), k;
        }
      }
    }
  }

  lemma {:induction false} NobodyTold(decisions: seq<Decision>, ids: set<JobId>)
    ensures Explains(decisions, ids, 0, map[])
  {
  }

  // The method.

  lemma {:induction false} InitialCards(cards: seq<Card>, x: Setup, sim: Sim)
    requires NoDup(Uuids(cards)) && x.owned == OfKind(cards, false) && x.shared == OfKind(cards, true)
    requires sim.releases == Release(cards)
    ensures SetupOk(x) && Complete(x, sim)
  {
    hide Release, OfKind, Uuids, IsKind;
    OfKindIs(cards, false);
    OfKindIs(cards, true);
    KindsApart(cards);
    ReleaseIs(cards);
  }

  lemma {:induction false} InitialHistory(sim: Sim, all: seq<Request>, cards: seq<Card>, running: seq<Entry>, log: seq<Stint>)
    requires Incumbents(log, cards, running) && sim.starts == map[]
    ensures HistoryOk(sim, all, cards, running, log, []) && Paid([], [], None, sim.clock)
  {
    hide Incumbents;
  }

  lemma {:induction false} HolderAmong(running: seq<Entry>, c: Uuid)
    ensures HolderOf(running, c).Some? ==> exists e :: e in running && e.job.jobId == HolderOf(running, c).value && c in e.job.gpus
  {
    if running != [] && c !in running[0].job.gpus {
      HolderAmong(running[1..], c);
    }
  }

  lemma {:induction false} InitialOff(requests: seq<Request>, cards: seq<Card>, running: seq<Entry>)
    requires DistinctEntries(running) && RequestIds(requests) !! EntryIds(running)
    ensures OffCards(Initially(requests, cards, running), FirstStints(cards, running))
  {
    var sim, log := Initially(requests, cards, running), FirstStints(cards, running);
    assert sim.pending == requests && sim.stoppable == running;
    hide Initially;
    forall i | 0 <= i < |log|
      ensures log[i].job.Some? ==> log[i].job.value in EntryIds(running)
    {
      HolderAmong(running, cards[i].uuid);
    }
    assert forall r :: r in requests ==> r.jobId in RequestIds(requests);
    forall e, i | e in running && 0 <= i < |log| && log[i].job == Some(e.job.jobId)
      ensures log[i].card in e.job.gpus
    {
      HolderAmong(running, cards[i].uuid);
      var f :| f in running && f.job.jobId == e.job.jobId && cards[i].uuid in f.job.gpus;
      OneEntry(running, e, f);
    }
  }

  lemma {:induction false} OneEntry(running: seq<Entry>, e: Entry, f: Entry)
    requires DistinctEntries(running) && e in running && f in running && e.job.jobId == f.job.jobId
    ensures e == f
  {
    var i :| 0 <= i < |running| && running[i] == e;
    var j :| 0 <= j < |running| && running[j] == f;
  }

  lemma {:induction false} InitialSchedule(requests: seq<Request>, cards: seq<Card>, running: seq<Entry>)
    requires Given(requests, cards, running)
    ensures ScheduleOk(Initially(requests, cards, running), Everyone(requests, running), cards, running, FirstStints(cards, running), [], [])
  {
    var sim, all, log := Initially(requests, cards, running), Everyone(requests, running), FirstStints(cards, running);
    EveryoneIs(requests, cards, running);
    InitialOff(requests, cards, running);
    assert sim.stoppable == running;
    hide Initially, Everyone, OffCards;
    assert log[|cards|..] == [];
    forall i | 0 <= i < |log|
      ensures EndsRight(all, cards, [], i, log[i])
    {
      assert RunsTo(all, cards, i, log[i], cards[i].release);
    }
    forall e | e in running
      ensures Schedule.MayStop(e.again, all, running)
    {
      assert Matches(e, cards, Elems(OfKind(cards, true)));
      assert e.job.jobId in EntryIds(running);
    }
  }

  lemma {:induction false} InitiallyInv(requests: seq<Request>, cards: seq<Card>, running: seq<Entry>, x: Setup)
    requires Given(requests, cards, running) && x.owned == OfKind(cards, false) && x.shared == OfKind(cards, true)
    ensures Inv(x, cards, running, Everyone(requests, running), requests, Initially(requests, cards, running),
                FirstStints(cards, running), [], [], None)
  {
    hide Fine, FirstStints, OfKind, Everyone, Matches, Release, CardsApart, LogOk, LogNames, Incumbents, HistoryOk, ScheduleOk, Paid, Sorted,
         Distinct, Complete, SetupOk, DistinctEntries, Ends, NoDup;
    var sim, all := Initially(requests, cards, running), Everyone(requests, running);
    InitiallyFine(requests, cards, running);
    EveryoneIs(requests, cards, running);
    InitiallyLog(requests, cards, running);
    InitialCards(cards, x, sim);
    InitialHistory(sim, all, cards, running, FirstStints(cards, running));
    InitialSchedule(requests, cards, running);
  }

  /** The decisions the pool object comes to are those of the rule. */
  method Decided(x: Setup, sim: Sim) returns (decisions: seq<Decision>)
    requires SetupOk(x)
    ensures decisions == Round(x, sim)
  {
    hide Decide, Next, LazyDecide, LazyNext, Without;
    var host := PassHost(x, sim.stoppable);
    var busy := Busy(sim);
    var pool := new Pool(host, None, Without(x.owned, busy), Some(Without(x.shared, busy)), x.theirs);
    ghost var start := pool.At(map[], {}, false);
    decisions := pool.Plan(sim.pending);
    forall k | 0 <= k < |sim.pending|
      ensures decisions[k] == Round(x, sim)[k]
    {
      LazyIsEager(host, None, start, sim.pending, k);
    }
  }

  /** What a job with no start time is told, once nothing more can happen. */
  lemma {:induction false} LastRound(x: Setup, sim: Sim, t: Sim, r: Request)
    requires Underway(sim, t, sim.pending, Round(x, sim), |sim.pending|) && r in t.pending
    ensures exists i :: 0 <= i < |sim.pending| && Round(x, sim)[i].jobId == r.jobId && !Round(x, sim)[i].Assigned?
  {
    hide Round, Sorted;
    RoundNames(x, sim);
    assert Unstarted(sim.pending, Round(x, sim), |sim.pending|, r);
  }

  lemma {:induction false} RoundDistinct(x: Setup, sim: Sim)
    requires Distinct(sim.pending)
    ensures DistinctDecisions(Round(x, sim))
  {
    hide Round;
    RoundNames(x, sim);
  }

  /** `next((d for d in decisions if isinstance(d, Holds) and d.gap), None)` */
  function FirstGap(ds: seq<Decision>): Option<Decision> {
    if ds == [] then None else if ds[0].Holds? && ds[0].gap > 0 then Some(ds[0]) else FirstGap(ds[1..])
  }

  lemma {:induction false} FirstGapIs(ds: seq<Decision>)
    ensures FirstGap(ds).Some? ==> exists m :: 0 <= m < |ds| && ds[m] == FirstGap(ds).value && ds[m].Holds? && ds[m].gap > 0
                                               && forall i :: 0 <= i < m && ds[i].Holds? ==> ds[i].gap == 0
  {
    if ds != [] && !(ds[0].Holds? && ds[0].gap > 0) && FirstGap(ds).Some? {
      FirstGapIs(ds[1..]);
      var m :| 0 <= m < |ds[1..]| && ds[1..][m] == FirstGap(ds).value && ds[1..][m].Holds? && ds[1..][m].gap > 0
               && forall i :: 0 <= i < m && ds[1..][i].Holds? ==> ds[1..][i].gap == 0;
      assert ds[m + 1] == ds[1..][m];
      forall i | 0 <= i < m + 1 && ds[i].Holds?
        ensures ds[i].gap == 0
      {
        if i > 0 { assert ds[i] == ds[1..][i - 1]; }
      }
    }
  }

  lemma {:induction false} FirstGapFound(ds: seq<Decision>, m: nat)
    requires GapAt(ds, m)
    ensures FirstGap(ds) == Some(ds[m])
  {
    if m > 0 {
      assert !(ds[0].Holds? && ds[0].gap > 0);
      forall i | 0 <= i < m - 1
        ensures !(ds[1..][i].Holds? && ds[1..][i].gap > 0)
      {
        assert ds[1..][i] == ds[i + 1];
      }
      FirstGapFound(ds[1..], m - 1);
    }
  }

  lemma {:induction false} GapIndex(ds: seq<Decision>, m: nat)
    requires FirstGap(ds).Some? && FirstStuck(ds, m) && ds[m] == FirstGap(ds).value
    ensures GapAt(ds, m)
  {
    FirstGapIs(ds);
  }

  /** The turn of a round that stops somebody. */
  lemma {:induction false} StoppingTurn(x: Setup, v: Sim, m: nat, w: Sim) returns (turn: Turn)
    requires v.pending != [] && Ending(v)
    requires var s := Prune(v);
             var ds := Round(x, s);
             var t := StartAll(s, Elems(x.shared), s.pending, ds, |ds|);
             && FirstGap(ds).Some? && FirstStuck(ds, m) && ds[m] == FirstGap(ds).value && ds[m].preempts != []
             && (forall id :: id in ds[m].preempts ==> id in EntryIds(s.stoppable))
             && w == StopAll(t, Chosen(s.stoppable, ds[m].preempts)).(pending := ByKey(StopAll(t, Chosen(s.stoppable, ds[m].preempts)).pending))
    ensures var s := Prune(v);
            var ds := Round(x, s);
            m < |s.pending| && !turn.over && turn.launches == RoundLaunches(s.pending, ds, s.clock, |ds|)
            && turn.stops == YieldsFor(Chosen(s.stoppable, ds[m].preempts), s.pending[m], s.clock)
    ensures IsTurn(x, v, w, turn)
  {
    hide Prune, Round, StartAll, StopAll, ByKey, Chosen, YieldsFor, RoundLaunches, EntryIds, GapAt, IsTurn;
    var s := Prune(v);
    var ds := Round(x, s);
    GapIndex(ds, m);
    turn := Turn(RoundLaunches(s.pending, ds, s.clock, |ds|), YieldsFor(Chosen(s.stoppable, ds[m].preempts), s.pending[m], s.clock), false);
    TurnStops(x, v, m, w);
  }

  /** That of one that does not. */
  lemma {:induction false} PassingTurn(x: Setup, v: Sim, w: Sim) returns (turn: Turn)
    requires v.pending != [] && Ending(v)
    requires var s := Prune(v);
             var ds := Round(x, s);
             var t := StartAll(s, Elems(x.shared), s.pending, ds, |ds|);
             && !(FirstGap(ds).Some? && FirstGap(ds).value.Holds? && FirstGap(ds).value.preempts != [])
             && (forall c :: c in x.owned + x.shared ==> c in t.releases)
             && var at := NextRelease(x.owned + x.shared, t); w == if at.None? then t else t.(clock := at.value)
    ensures var s := Prune(v);
            var ds := Round(x, s);
            var t := StartAll(s, Elems(x.shared), s.pending, ds, |ds|);
            && turn.launches == RoundLaunches(s.pending, ds, s.clock, |ds|) && turn.stops == []
            && (forall c :: c in x.owned + x.shared ==> c in t.releases) && turn.over == NextRelease(x.owned + x.shared, t).None?
    ensures IsTurn(x, v, w, turn)
  {
    hide Prune, Round, StartAll, RoundLaunches, IsTurn, NextRelease, GapAt, FirstGap;
    var s := Prune(v);
    var ds := Round(x, s);
    var t := StartAll(s, Elems(x.shared), s.pending, ds, |ds|);
    turn := Turn(RoundLaunches(s.pending, ds, s.clock, |ds|), [], NextRelease(x.owned + x.shared, t).None?);
    forall m: nat | GapAt(ds, m)
      ensures m < |ds| && ds[m].Holds? && ds[m].preempts == []
    {
      InRange(ds, m);
      FirstGapFound(ds, m);
    }
    TurnGoesOn(x, v, w, turn);
  }

  /** In a projection every job that waits has a gap. */
  lemma {:induction false} EveryHoldHasAGap(x: Setup, sim: Sim)
    ensures forall i :: 0 <= i < |sim.pending| && Round(x, sim)[i].Holds? ==> Round(x, sim)[i].gap > 0
  {
    hide Decide, Next, After;
    var h, s, rs := PassHost(x, sim.stoppable), PassState(x, sim), sim.pending;
    forall i | 0 <= i < |rs| && Round(x, sim)[i].Holds?
      ensures Round(x, sim)[i].gap > 0
    {
      WaitsWithAGap(h, After(h, s, rs, i), rs[i]);
    }
  }

  lemma {:induction false} StuckIndex(x: Setup, sim: Sim) returns (m: nat)
    requires FirstGap(Round(x, sim)).Some?
    ensures m < |sim.pending| && FirstStuck(Round(x, sim), m) && Round(x, sim)[m] == FirstGap(Round(x, sim)).value
  {
    hide Round;
    FirstGapIs(Round(x, sim));
    EveryHoldHasAGap(x, sim);
    m :| 0 <= m < |Round(x, sim)| && Round(x, sim)[m] == FirstGap(Round(x, sim)).value && Round(x, sim)[m].Holds?
         && forall i :: 0 <= i < m && Round(x, sim)[i].Holds? ==> Round(x, sim)[i].gap == 0;
  }

  function Only(starts: map<JobId, real>, already: set<JobId>): map<JobId, real> {
    starts - already
  }

  /** What a finished projection may say, and what it rests on. */
  ghost predicate Answers(requests: seq<Request>, cards: seq<Card>, running: seq<Entry>, all: seq<Request>, p: Projection,
                          log: seq<Stint>, launches: seq<Launch>, stops: seq<Yield>) {
    // Every queued job has a start time or a reason, and one that may not be
    // stopped has exactly one of the two.
    && (forall r :: r in requests ==>
         && (r.jobId in p.starts || r.jobId in p.unknown)
         && (!r.fills ==> r.jobId !in p.starts || r.jobId !in p.unknown))
    && (forall id :: id in p.starts || id in p.unknown ==> id !in EntryIds(running))
    // Each start time is that of a first launch, on cards as asked for.
    && (forall id :: id in p.starts ==> StartedAt(launches, id, p.starts[id]))
    && (forall l :: l in launches ==> l.job in p.starts || l.job in EntryIds(running))
    && (forall l :: l in launches && l.job in p.starts ==> p.starts[l.job] <= l.at)
    && LaunchesOk(all, log, launches)
    // No card is under two jobs at once, every stint ends when its job does or
    // is stopped, and every stop was paid for.
    && OneAtATime(log)
    && ScheduleIs(all, cards, running, log, launches, stops) && EveryStopCuts(log, stops)
    && Paid(stops, launches, None, 0.0)
  }

  lemma {:induction false} PaidAtAll(stops: seq<Yield>, launches: seq<Launch>, clock: real)
    requires Paid(stops, launches, None, clock)
    ensures Paid(stops, launches, None, 0.0)
  {
    PaidLater(stops, launches, clock, 0.0);
  }

  lemma {:induction false} Concluding(x: Setup, cards: seq<Card>, running: seq<Entry>, all: seq<Request>, requests: seq<Request>,
                                      sim: Sim, log: seq<Stint>, launches: seq<Launch>, stops: seq<Yield>,
                                      decisions: seq<Decision>, unknown: map<JobId, Unknown>, gives: map<JobId, JobId>)
    requires Inv(x, cards, running, all, requests, sim, log, launches, stops, None)
    requires Explains(decisions, RequestIds(sim.pending) - EntryIds(running), |decisions|, unknown)
    requires forall r :: r in sim.pending ==> exists i :: 0 <= i < |decisions| && decisions[i].jobId == r.jobId && !decisions[i].Assigned?
    requires RequestIds(requests) !! EntryIds(running) && EveryStopCuts(log, stops)
    ensures Answers(requests, cards, running, all, Projection(Only(sim.starts, EntryIds(running)), unknown, gives), log, launches, stops)
    ensures Incumbents(log, cards, running)
  {
    hide Paid, LaunchesOk, Incumbents, StartedAt, OneAtATime, SetupOk, Sorted, EntriesOk, QueuesOk, LogNames, Complete, FirstHolder, NoHolder, ScheduleIs, OffCards, EveryStopCuts;
    PaidAtAll(stops, launches, sim.clock);
    var ids := RequestIds(sim.pending) - EntryIds(running);
    forall id
      ensures id in unknown <==> id in ids
    {
      if id in ids {
        var r :| r in sim.pending && r.jobId == id;
      }
    }
    forall r | r in requests
      ensures r.jobId !in EntryIds(running)
    {
      assert r.jobId in RequestIds(requests);
    }
  }

  /** The simulated clock never goes back. */
  predicate NeverBack(launches: seq<Launch>) {
    forall i, j :: 0 <= i < j < |launches| ==> launches[i].at <= launches[j].at
  }

  predicate UpTo(launches: seq<Launch>, clock: real) {
    NeverBack(launches) && forall i :: 0 <= i < |launches| ==> launches[i].at <= clock
  }

  lemma {:induction false} NoLaunches(clock: real)
    ensures UpTo([], clock) && NeverBack([])
  {
  }

  lemma {:induction false} RoundInTime(launches: seq<Launch>, rs: seq<Request>, ds: seq<Decision>, clock: real, k: nat)
    requires UpTo(launches, clock) && k <= |ds| == |rs|
    ensures UpTo(launches + RoundLaunches(rs, ds, clock, k), clock)
  {
    if k == 0 {
      assert launches + [] == launches;
    } else {
      RoundInTime(launches, rs, ds, clock, k - 1);
      var so := launches + RoundLaunches(rs, ds, clock, k - 1);
      assert launches + RoundLaunches(rs, ds, clock, k)
          == so + if ds[k - 1].Assigned? then [Launch(rs[k - 1].jobId, ds[k - 1].gpus, clock)] else [];
    }
  }

  lemma {:induction false} StillInTime(launches: seq<Launch>, clock: real, later: real)
    requires UpTo(launches, clock) && clock <= later
    ensures UpTo(launches, later)
  {
  }

  lemma {:induction false} AllInTime(launches: seq<Launch>, clock: real)
    requires UpTo(launches, clock)
    ensures NeverBack(launches)
  {
  }

  lemma {:induction false} PruneClock(sim: Sim)
    requires forall e :: e in sim.stoppable ==> e.job.jobId in sim.ends
    ensures Prune(sim).clock == sim.clock
  {
  }

  lemma {:induction false} StopAllClock(sim: Sim, es: seq<Entry>)
    ensures StopAll(sim, es).clock == sim.clock
    decreases |es|
  {
    if es != [] {
      StopAllClock(sim, es[..|es| - 1]);
    }
  }

  lemma {:induction false} EndingIs(sim: Sim)
    requires forall e :: e in sim.stoppable ==> e.job.jobId in sim.ends
    requires DistinctEntries(sim.stoppable) && Distinct(sim.pending) && Sorted(sim.pending)
    requires RequestIds(sim.pending) !! EntryIds(sim.stoppable)
    ensures Ending(sim)
  {
  }

  lemma {:induction false} GivenEntries(requests: seq<Request>, cards: seq<Card>, running: seq<Entry>)
    requires Given(requests, cards, running)
    ensures DistinctEntries(running)
  {
  }

  lemma {:induction false} NothingCut(log: seq<Stint>)
    ensures EveryStopCuts(log, [])
  {
  }

  lemma {:induction false} NoMoreStops(stops: seq<Yield>)
    ensures stops + [] == stops
  {
  }

  lemma {:induction false} StopsSoFar(x: Setup, cards: seq<Card>, running: seq<Entry>, all: seq<Request>, requests: seq<Request>,
                                      sim: Sim, log: seq<Stint>, launches: seq<Launch>, stops: seq<Yield>, owed: Option<Request>)
    requires Inv(x, cards, running, all, requests, sim, log, launches, stops, owed)
    ensures forall y :: y in stops ==> y.at <= sim.clock
  {
    hide Fine, HistoryOk, Paid, SetupOk, Sorted, ScheduleIs, OffCards, Complete, Owed;
  }

  lemma {:induction false} CutsThen(x: Setup, cards: seq<Card>, running: seq<Entry>, all: seq<Request>, requests: seq<Request>,
                                    t: Sim, log: seq<Stint>, launches: seq<Launch>, stops: seq<Yield>, es: seq<Entry>, r: Request)
    requires Inv(x, cards, running, all, requests, t, log, launches, stops, None) && AllStoppable(t, es) && EveryStopCuts(log, stops)
    ensures EveryStopCuts(StopAllLog(t, log, es), stops + YieldsFor(es, r, t.clock))
  {
    hide HistoryOk, Paid, SetupOk, Sorted, Complete, Owed, EveryStopCuts, StopAll, StopAllLog, ByKey, ScheduleIs, OffCards, EntriesOk, QueuesOk, Answered, LogOk, LogNames;
    StopsSchedule(t, Elems(x.shared), all, requests, cards, running, log, launches, stops, es, r);
    OffCardsThen(StopAll(t, es), StopAllLog(t, log, es));
    StopAllCuts(t, log, stops, es, r);
  }

  lemma {:induction false} OffCardsThen(u: Sim, log: seq<Stint>)
    ensures OffCards(u.(pending := ByKey(u.pending)), log) ==> OffCards(u, log)
  {
    ByKeyMembers(u.pending);
    hide ByKey;
  }

  /** When each queued job is expected to start, and why each of the rest is not;
      with the rounds and the schedule it rests on. */
  method Project(requests: seq<Request>, cards: seq<Card>, ownedMissing: seq<string>, sharedMissing: seq<string>,
                 theirs: nat, running: seq<Entry>, draining: bool)
    returns (p: Projection, ghost log: seq<Stint>, ghost launches: seq<Launch>, ghost stops: seq<Yield>, ghost last: Sim,
             ghost sims: seq<Sim>, ghost turns: seq<Turn>)
    requires Given(requests, cards, running)
    ensures draining ==> p.starts == map[] && p.yieldsTo == map[] && p.unknown == AllDraining(requests)
    ensures !draining ==>
      && Answers(requests, cards, running, Everyone(requests, running), p, log, launches, stops)
      && Incumbents(log, cards, running)
      && TellsTheFirst(p.yieldsTo, running, requests)
      && Replays(Setup(OfKind(cards, false), OfKind(cards, true), theirs, ownedMissing, sharedMissing),
                 Initially(requests, cards, running), sims, turns, launches, stops)
      && EndsRightly(sims, turns) && p.starts == Only(sims[|turns|].starts, EntryIds(running))
      && (p.unknown != map[] ==>
           ReasonsAre(Setup(OfKind(cards, false), OfKind(cards, true), theirs, ownedMissing, sharedMissing), last, p.unknown, log))
    ensures NeverBack(launches)
  {
    hide *;
    NoLaunches(0.0);
    log, launches, stops := [], [], [];
    last := Initially(requests, cards, running);
    sims, turns := [last], [];
    if draining {
      p := Projection(map[], AllDraining(requests), map[]);
      return;
    }
    var x := Setup(OfKind(cards, false), OfKind(cards, true), theirs, ownedMissing, sharedMissing);
    var shared := Elems(x.shared);
    ghost var all := Everyone(requests, running);
    var sim := Initially(requests, cards, running);
    log := FirstStints(cards, running);
    NoLaunches(sim.clock);
    InitiallyInv(requests, cards, running, x);
    var decisions: seq<Decision> := [];
    assert DistinctDecisions(decisions) by { NoDecisions(); }
    ghost var owed: Option<Request> := None;
    ghost var ended := false;
    ReplayBegins(x, sim);
    assert EveryStopCuts(log, stops) by { NothingCut(log); }
    while sim.pending != []
      invariant Inv(x, cards, running, all, requests, sim, log, launches, stops, owed)
      invariant DistinctDecisions(decisions) && UpTo(launches, sim.clock) && !ended && EveryStopCuts(log, stops)
      invariant Replays(x, Initially(requests, cards, running), sims, turns, launches, stops) && NoneOver(turns)
      invariant |sims| == |turns| + 1 && sims[|turns|] == sim
      decreases Weight(all, Outstanding(sim, owed)), if owed.Some? then 1 else 0, |Later(sim)|
    {
      InvEnds(x, cards, running, all, requests, sim, log, launches, stops, owed);
      PruneInv(x, cards, running, all, requests, sim, log, launches, stops, owed);
      PruneClock(sim);
      ghost var found := sim;
      EndingIs(found);
      sim := Prune(sim);
      InvEnds(x, cards, running, all, requests, sim, log, launches, stops, owed);
      decisions := Decided(x, sim);
      RoundNames(x, sim);
      RoundDistinct(x, sim);
      StartsInv(x, cards, running, all, requests, sim, log, launches, stops, owed);
      var started := StartAssigned(sim, shared, decisions);
      StopsSoFar(x, cards, running, all, requests, sim, log, launches, stops, owed);
      StartAllCuts(sim, shared, log, stops, sim.pending, decisions, |decisions|);
      log := StartAllLog(sim, shared, log, sim.pending, decisions, |decisions|);
      RoundInTime(launches, sim.pending, decisions, sim.clock, |decisions|);
      SameClock(sim, shared, sim.pending, decisions, |decisions|);
      ghost var begun := launches;
      launches := launches + RoundLaunches(sim.pending, decisions, sim.clock, |decisions|);
      var stuck := FirstGap(decisions);
      if stuck.Some? && stuck.value.Holds? && stuck.value.preempts != [] {
        ghost var m := StuckIndex(x, sim);
        StopsInv(x, cards, running, all, requests, sim, started, log, launches, stops, m);
        InvEnds(x, cards, running, all, requests, started, log, launches, stops, None);
        ChosenInStarted(x, sim, started, all, m);
        var stopped := StopChosen(started, stuck.value.preempts);
        ghost var es := Chosen(sim.stoppable, stuck.value.preempts);
        StopAllClock(started, es);
        CutsThen(x, cards, running, all, requests, started, log, launches, stops, es, sim.pending[m]);
        log := StopAllLog(started, log, es);
        ghost var turn := StoppingTurn(x, found, m, stopped.(pending := ByKey(stopped.pending)));
        ReplaysMore(x, Initially(requests, cards, running), sims, turns, begun, stops, stopped.(pending := ByKey(stopped.pending)), turn);
        stops, owed := stops + YieldsFor(es, sim.pending[m], sim.clock), Some(sim.pending[m]);
        sim := stopped.(pending := ByKey(stopped.pending));
        sims, turns := sims + [sim], turns + [turn];
        continue;
      }
      InvEnds(x, cards, running, all, requests, started, log, launches, stops, None);
      var later := NextRelease(x.owned + x.shared, started);
      ghost var turn := PassingTurn(x, found, if later.None? then started else started.(clock := later.value));
      ReplaysMore(x, Initially(requests, cards, running), sims, turns, begun, stops, if later.None? then started else started.(clock := later.value), turn);
      NoMoreStops(stops);
      sims, turns := sims + [if later.None? then started else started.(clock := later.value)], turns + [turn];
      if later.None? {
        LastRounds(x, sim, started);
        last, ended := sim, true;
        sim, owed := started, None;
        break;
      }
      Onwards(x, cards, running, all, requests, sim, started, log, launches, stops, owed);
      NextReleaseIs(x.owned + x.shared, started);
      StillInTime(launches, started.clock, later.value);
      sim, owed := started.(clock := later.value), None;
    }
    InvEnds(x, cards, running, all, requests, sim, log, launches, stops, owed);
    if !ended {
      QueueEmpties(sims, turns);
    }
    AllInTime(launches, sim.clock);
    var already := EntryIds(running);
    var unknown := UnknownReasons(decisions, RequestIds(sim.pending) - already);
    GivenApart(requests, cards, running);
    Concluding(x, cards, running, all, requests, sim, log, launches, stops, decisions, unknown, GivesWay(running, requests));
    p := Projection(Only(sim.starts, already), unknown, GivesWay(running, requests));
    GivenEntries(requests, cards, running);
    GivesWayIs(running, requests);
    if ended {
      ReasonsGiven(x, cards, running, all, requests, last, sim, log, launches, stops, decisions, unknown);
    } else {
      NobodyLeft(sim.pending, already, decisions, unknown);
    }
  }

  lemma {:induction false} NobodyLeft(pending: seq<Request>, already: set<JobId>, decisions: seq<Decision>, unknown: map<JobId, Unknown>)
    requires pending == [] && Explains(decisions, RequestIds(pending) - already, |decisions|, unknown)
    ensures unknown == map[]
  {
    assert RequestIds(pending) - already == {};
    forall id
      ensures id !in unknown
    {
      assert forall i :: 0 <= i < |decisions| ==> !Told(decisions, {}, i);
    }
    assert unknown.Keys == {};
  }

  lemma {:induction false} ReasonsGiven(x: Setup, cards: seq<Card>, running: seq<Entry>, all: seq<Request>, requests: seq<Request>, last: Sim,
                                        sim: Sim, log: seq<Stint>, launches: seq<Launch>, stops: seq<Yield>, decisions: seq<Decision>, unknown: map<JobId, Unknown>)
    requires Inv(x, cards, running, all, requests, sim, log, launches, stops, None)
    requires decisions == Round(x, last) && sim == StartAll(last, Elems(x.shared), last.pending, decisions, |decisions|)
    requires Explains(decisions, RequestIds(sim.pending) - EntryIds(running), |decisions|, unknown)
    requires forall r :: r in sim.pending ==> exists i :: 0 <= i < |decisions| && decisions[i].jobId == r.jobId && !decisions[i].Assigned?
    ensures ReasonsAre(x, last, unknown, log)
  {
    hide Round, StartAll, SetupOk, Sorted, Ok, Answered, LogOk, LogNames, Complete, HistoryOk, Paid, ScheduleOk, Because;
    var ids := RequestIds(sim.pending) - EntryIds(running);
    forall id
      ensures id in unknown <==> id in ids
    {
      if id in ids {
        var r :| r in sim.pending && r.jobId == id;
      }
    }
    assert unknown.Keys == ids;
  }

  /** Each reason is the one the rule's last round comes to, over the cards then
      free: those of the schedule not under a stint that is not over. */
  ghost predicate ReasonsAre(x: Setup, last: Sim, unknown: map<JobId, Unknown>, log: seq<Stint>) {
    && Explains(Round(x, last), unknown.Keys, |last.pending|, unknown)
    && LogOk(StartAll(last, Elems(x.shared), last.pending, Round(x, last), |last.pending|), log)
  }

  function AllDraining(requests: seq<Request>): (m: map<JobId, Unknown>)
    ensures m.Keys == RequestIds(requests) && forall id :: id in m ==> m[id] == Draining
  {
    map id | id in RequestIds(requests) :: Draining
  }

  lemma {:induction false} NoDecisions()
    ensures DistinctDecisions([])
  {
  }

  lemma {:induction false} GivenApart(requests: seq<Request>, cards: seq<Card>, running: seq<Entry>)
    requires Given(requests, cards, running)
    ensures RequestIds(requests) !! EntryIds(running)
  {
  }

  lemma {:induction false} LastRounds(x: Setup, sim: Sim, t: Sim)
    requires Underway(sim, t, sim.pending, Round(x, sim), |sim.pending|)
    ensures forall r :: r in t.pending ==>
      exists i :: 0 <= i < |Round(x, sim)| && Round(x, sim)[i].jobId == r.jobId && !Round(x, sim)[i].Assigned?
  {
    hide Round, Underway;
    forall r | r in t.pending
      ensures exists i :: 0 <= i < |Round(x, sim)| && Round(x, sim)[i].jobId == r.jobId && !Round(x, sim)[i].Assigned?
    {
      LastRound(x, sim, t, r);
    }
  }

  /** A round without stops moves the clock, and the countdown with it. */
  lemma {:induction false} Onwards(x: Setup, cards: seq<Card>, running: seq<Entry>, all: seq<Request>, requests: seq<Request>,
                                   sim: Sim, t: Sim, log: seq<Stint>, launches: seq<Launch>, stops: seq<Yield>, owed: Option<Request>)
    requires t == StartAll(sim, Elems(x.shared), sim.pending, Round(x, sim), |sim.pending|)
    requires Inv(x, cards, running, all, requests, t, log, launches, stops, None)
    requires forall c :: c in x.owned + x.shared ==> c in t.releases
    requires NextRelease(x.owned + x.shared, t).Some?
    requires Weight(all, RequestIds(t.pending)) <= Weight(all, Outstanding(sim, owed))
    requires owed.None? && (exists i :: 0 <= i < |Round(x, sim)| && Round(x, sim)[i].Assigned?) ==>
      Weight(all, RequestIds(t.pending)) < Weight(all, Outstanding(sim, owed))
    ensures var v := t.(clock := NextRelease(x.owned + x.shared, t).value);
            && Inv(x, cards, running, all, requests, v, log, launches, stops, None)
            && var a, b := Weight(all, Outstanding(v, None)), Weight(all, Outstanding(sim, owed));
               a < b || (a == b && (owed.Some? || |Later(v)| < |Later(sim)|))
  {
    hide Inv, Round, Weight, StartAll, NextRelease, Later, RequestIds;
    var v := t.(clock := NextRelease(x.owned + x.shared, t).value);
    LaterShrinks(x.owned + x.shared, t);
    TickInv(x, cards, running, all, requests, t, log, launches, stops, v.clock);
    assert Outstanding(v, None) == RequestIds(t.pending);
    if owed.None? && Weight(all, RequestIds(t.pending)) == Weight(all, Outstanding(sim, owed)) {
      NothingStarted(sim, Elems(x.shared), sim.pending, Round(x, sim), |sim.pending|);
    }
  }

  /** The jobs to stop are still there once the round's starts are made. */
  lemma {:induction false} ChosenInStarted(x: Setup, sim: Sim, t: Sim, all: seq<Request>, m: nat)
    requires Ok(sim, Elems(x.shared), all) && DistinctEntries(t.stoppable)
    requires Underway(sim, t, sim.pending, Round(x, sim), |sim.pending|)
    requires FirstStuck(Round(x, sim), m)
    requires forall id :: id in Round(x, sim)[m].preempts ==> id in EntryIds(sim.stoppable)
    requires AllStoppable(t, Chosen(sim.stoppable, Round(x, sim)[m].preempts))
    ensures NoDup(Round(x, sim)[m].preempts)
    ensures forall id :: id in Round(x, sim)[m].preempts ==> id in EntryIds(t.stoppable)
    ensures Chosen(t.stoppable, Round(x, sim)[m].preempts) == Chosen(sim.stoppable, Round(x, sim)[m].preempts)
  {
    hide Round, Unstarted, Untouched, Sorted;
    var ids := Round(x, sim)[m].preempts;
    var es := Chosen(sim.stoppable, ids);
    forall i, j | 0 <= i < j < |ids|
      ensures ids[i] != ids[j]
    {
      assert es[i].job.jobId != es[j].job.jobId;
    }
    forall i | 0 <= i < |ids|
      ensures ids[i] in EntryIds(t.stoppable) && EntryFor(t.stoppable, ids[i]) == es[i]
    {
      assert es[i] in t.stoppable;
      var e := EntryFor(t.stoppable, ids[i]);
      var a :| 0 <= a < |t.stoppable| && t.stoppable[a] == es[i];
      var b :| 0 <= b < |t.stoppable| && t.stoppable[b] == e;
    }
  }

  lemma {:induction false} InvEnds(x: Setup, cards: seq<Card>, running: seq<Entry>, all: seq<Request>, requests: seq<Request>,
                                   sim: Sim, log: seq<Stint>, launches: seq<Launch>, stops: seq<Yield>, owed: Option<Request>)
    requires Inv(x, cards, running, all, requests, sim, log, launches, stops, owed)
    ensures SetupOk(x) && Sorted(sim.pending) && Complete(x, sim)
    ensures forall e :: e in sim.stoppable ==> e.job.jobId in sim.ends
    ensures Distinct(sim.pending) && DistinctEntries(sim.stoppable) && Ok(sim, Elems(x.shared), all)
    ensures forall c :: c in x.owned + x.shared ==> c in sim.releases
    ensures RequestIds(sim.pending) !! EntryIds(sim.stoppable)
    ensures sim.pending == [] ==> owed.None?
  {
    hide Fine, HistoryOk, Paid, SetupOk, Sorted;
    FineEnds(sim, Elems(x.shared), all, requests, log);
  }
}
