/** Runs in which the dispatcher does not keep what is promised of it, each made
    by its own methods or passes. */
module Races {
  import opened Lists
  import opened Preempt
  import opened Rule
  import opened Pass
  import opened Machine
  import opened Ledger
  import opened Quiet
  import opened Bookkeeping
  import opened Passes
  import opened Still
  import opened Clearance
  import opened Startup
  import opened Dispatching

  /** A host with these cards of its own. */
  function Owning(cards: seq<Uuid>): Readings {
    Readings(cards, [], [], [], {}, false, false)
  }

  /** The moments of a pass in which nothing happens on the machine. */
  ghost predicate StillPass(log: Log, p: Readings, r: Round) {
    && RoundIs(p, r) && !p.draining && Lawful(true, log) && Kept(log) && Extends(r.after, log)
    && Eventless(r.after, |r.reaped.acts|, |r.after.acts|) && Specified(Now(r.reaped).world)
  }

  lemma {:induction false} StillLaunch(log: Log, p: Readings, r: Round)
    requires StillPass(log, p, r)
    ensures Kept(r.reaped) && Kept(r.launched) && PlannedAt(Now(r.reaped), p, None, r.launching)
    ensures Done(r.launching.Dealt(), |r.launching.rs|, r.launching.attempts, Now(r.reaped).running, Now(r.launched).running, r.blocks.Keys)
    ensures forall j :: j in r.blocks && r.blocks[j].ClaimedSince? ==> GivenUpNow(Now(r.reaped), r.launching, j, r.blocks[j].card)
    ensures forall j :: j in Now(r.launched).running && j !in Now(r.reaped).running ==>
      MadeSince(Now(r.launched), j, Now(r.reaped).world.next)
    ensures LivesOn(Now(r.reaped).world, Now(r.launched).world)
    ensures LivesOn(Now(r.launched).world, Now(r.after).world)
  {
    hide Lawful, RoundIs, PreemptPass, Done, GivenUpFor, PlannedAt, GivenUpNow, MadeSince, LivesOn, OfLaunching, Decisions;
    PassOrder(log, p, r);
    MadeThen(log, p, r);
    var a, b, c := |r.reaped.acts|, |r.launched.acts|, |r.after.acts|;
    StillPlan(r.launching, p, None, r.reaped);
    MadeAtOnce(r.launching, p, None, r.reaped);
    hide PlanIs;
    RunnersLiveOn(true, log, a, b);
    RunnersLiveOn(true, log, b, c);
    forall j | j in Now(r.launched).running && j !in Now(r.reaped).running
      ensures MadeSince(Now(r.launched), j, Now(r.reaped).world.next)
    {
      NewEntries(true, log, a, b, j);
    }
    forall j | j in r.blocks && r.blocks[j].ClaimedSince?
      ensures GivenUpNow(Now(r.reaped), r.launching, j, r.blocks[j].card)
    {
      GivenUpThen(log, r, j, r.blocks[j].card);
    }
  }

  lemma {:induction false} PassOrder(log: Log, p: Readings, r: Round)
    requires StillPass(log, p, r)
    ensures Kept(r.reaped) && Kept(r.launching.at) && Kept(r.launched) && Kept(r.after)
    ensures Extends(r.reaped, r.launching.at) && Extends(r.launching.at, r.launched) && Extends(r.launched, r.after) && Extends(r.after, log)
    ensures PlanIs(r.launching, p, None, |r.reaped.acts|, r.reaped)
    ensures Done(r.launching.Dealt(), |r.launching.rs|, r.launching.attempts, Now(r.reaped).running, Now(r.launched).running, r.blocks.Keys)
    ensures forall j :: j in r.blocks && r.blocks[j].ClaimedSince? ==>
      GivenUpFor(r.launching.Dealt(), j, r.blocks[j].card, r.launched, |r.launching.at.acts|)
    ensures OnlyLaunches(r.launching.at, r.launched)
  {
    hide Lawful, Done, RequestsAre, HostFor, ScanIs, StateFor, PreemptPass, GivenUpFor, SeenAlive, Decisions;
  }

  lemma {:induction false} MadeThen(log: Log, p: Readings, r: Round)
    requires StillPass(log, p, r)
    requires Kept(r.reaped) && Kept(r.launching.at) && Kept(r.launched) && Kept(r.after)
    requires Extends(r.reaped, r.launching.at) && Extends(r.launching.at, r.launched) && Extends(r.launched, r.after) && Extends(r.after, log)
    requires OnlyLaunches(r.launching.at, r.launched)
    ensures Eventless(log, |r.reaped.acts|, |r.after.acts|) && Eventless(r.launching.at, |r.reaped.acts|, |r.launching.at.acts|)
    ensures log.states[|r.reaped.acts|] == Now(r.reaped) && log.states[|r.launched.acts|] == Now(r.launched) && log.states[|r.after.acts|] == Now(r.after)
    ensures forall t :: |r.launching.at.acts| <= t < |r.launched.acts| ==> OfLaunching(log.acts[t])
    ensures forall t :: |r.reaped.acts| <= t <= |r.launched.acts| ==> log.states[t] == r.launched.states[t]
  {
    hide Lawful, RoundIs, OfLaunching;
    assert forall t :: 0 <= t < |r.launching.at.acts| ==> r.launching.at.acts[t] == r.after.acts[t];
    assert forall t :: 0 <= t < |r.launched.acts| ==> r.launched.acts[t] == r.after.acts[t];
  }

  /** The launch was given up for a claim that was there before the pass. */
  ghost predicate GivenUpNow(s: Snapshot, plan: Plan, job: JobId, card: Uuid) {
    && (exists k :: 0 <= k < |plan.rs| && plan.Dealt()[k].Assigned? && plan.Dealt()[k].jobId == job && card in plan.Dealt()[k].gpus)
    && exists j :: Claims(s.world, j, card)
  }

  lemma {:induction false} GivenUpThen(log: Log, r: Round, job: JobId, card: Uuid)
    requires Lawful(true, log) && Kept(log) && Kept(r.reaped) && Kept(r.launched) && Extends(r.launched, log) && r.launching.at == r.reaped
    requires Extends(r.reaped, r.launched) && Eventless(log, |r.reaped.acts|, |r.launched.acts|)
    requires forall t :: |r.reaped.acts| <= t < |r.launched.acts| ==> OfLaunching(log.acts[t])
    requires log.states[|r.reaped.acts|] == Now(r.reaped)
    requires forall t :: |r.reaped.acts| <= t <= |r.launched.acts| ==> log.states[t] == r.launched.states[t]
    requires GivenUpFor(r.launching.Dealt(), job, card, r.launched, |r.reaped.acts|)
    ensures GivenUpNow(Now(r.reaped), r.launching, job, card)
  {
    hide Lawful, Claims, Decide, After;
    var t: nat, j :| |r.reaped.acts| <= t <= |r.launched.acts| && Claims(r.launched.states[t].world, j, card);
    NoNewClaims(true, log, |r.reaped.acts|, t, j, card);
  }

  // A runner the startup scan misses.

  /** One job on the only card, asked to stop. */
  function Stopped(card: Uuid): World {
    World(map[0 := Job(Running, 0, [card], 0, ToPreempt, 0, 0.0, Some(Spec(1, false, false)))],
          map[0 := Runner(0, [card], 0, Claimed)], 1, {})
  }

  /** Its runner has queued it again, and is still uploading. */
  function BackInQueue(card: Uuid): World {
    World(map[0 := Job(Queued, 1, [], 0, NoIntent, 0, 0.0, Some(Spec(1, false, false)))],
          map[0 := Runner(0, [card], 0, Ended)], 1, {})
  }

  /** It does so between the listing of the jobs and the reading of its state. */
  function WhileScanning(n: nat): seq<Event> {
    if n == 1 then [Requeue(0)] else []
  }

  lemma {:induction false} BackSince(card: Uuid, n: nat)
    requires n >= 2
    ensures Passing(Stopped(card), WhileScanning, 0, n) == BackInQueue(card)
  {
    var w := Stopped(card);
    assert Passing(w, WhileScanning, 0, 0) == w;
    assert Passing(w, WhileScanning, 0, 1) == w;
    assert Requeueing(w, 0) == BackInQueue(card);
    assert Passed(w, [Requeue(0)]) == Happens(Passed(w, []), Requeue(0));
    assert Passing(w, WhileScanning, 0, 2) == BackInQueue(card);
    PassedAll(w, WhileScanning, 0, 2, n);
  }

  lemma {:induction false} NotFound(card: Uuid, n: nat)
    requires n >= 2
    ensures FindsNobody(Stopped(card), WhileScanning, 0, n)
  {
    forall m: nat | 2 <= m <= n
      ensures NobodyRuns(Passing(Stopped(card), WhileScanning, 0, m))
    {
      BackSince(card, m);
    }
  }

  lemma {:induction false} StoppedIsFit(card: Uuid)
    ensures Startable(Stopped(card)) && AloneScript(WhileScanning) && EndsBy(WhileScanning, 2)
    ensures ReadAllBy(Stopped(card), WhileScanning, 0) == 2
  {
    assert Passed(Stopped(card), WhileScanning(0)) == Stopped(card);
    assert Stopped(card).jobs.Keys == {0};
  }

  /** What a pass then plans: to start the job on its old card. */
  lemma {:induction false} PlansItsCard(card: Uuid, plan: Plan)
    requires PlannedAt(Snapshot(BackInQueue(card), map[], None), Owning([card]), None, plan)
    ensures |plan.rs| == 1 && plan.Dealt()[0] == Assigned(0, [card], [])
  {
    var s := Snapshot(BackInQueue(card), map[], None);
    assert Reads(s.world, 0, Queued);
    OneRequest(s, plan.rs, 0);
    assert plan.claims == {} by {
      assert forall j, c :: !Claims(s.world, j, c);
      assert forall c :: c !in plan.claims;
    }
    assert CardsOf(s.running) + plan.claims == {};
    assert plan.s == Fresh([card], [], 0);
    var r := plan.rs[0];
    hide PlannedAt;
    assert Own(plan.s, r) == [card];
    assert Free(plan.s, r) == [card];
    assert After(plan.h, plan.s, plan.rs, 0) == plan.s;
  }

  lemma {:induction false} OneRequest(s: Snapshot, rs: seq<Request>, job: JobId)
    requires s.world.jobs.Keys == {job} && HasRequest(rs, job) && Waiting(rs, s.running)
    requires forall r :: r in rs ==> AsksNow(s.world, r)
    ensures |rs| == 1 && AsksNow(s.world, rs[0]) && rs[0].jobId == job
  {
    hide Before;
    forall i | 0 <= i < |rs|
      ensures AsksNow(s.world, rs[i]) && rs[i].jobId == job
    {
      assert rs[i] in rs;
      assert rs[i].jobId in s.world.jobs.Keys;
    }
    assert rs != [];
    FirstThreeDiffer(rs, s.running);
  }

  method MissARunner(card: Uuid) returns (d: Dispatcher)
    ensures fresh(d) && d.Valid() && d.alone && d.script == WhileScanning && (forall n :: !d.spawnFails(n)) && d.settling.None?
    ensures d.log.states[0] == Snapshot(Stopped(card), map[], None) && d.strays == {0}
    ensures d.world == BackInQueue(card) && d.running == map[] && d.turn >= 2
  {
    hide Good, EventsOf, Happened, OrderOf, InOrder, Startable, Passing, Names, NoneShared, FindsNobody;
    StoppedIsFit(card);
    FitStarts(Stopped(card));
    d := new Dispatcher(true, WhileScanning, _ => false, Stopped(card));
    assert Names(Stopped(card)) && NoneShared(Snapshot(Stopped(card), map[], None), {}) by { StartableIs(Stopped(card)); }
    ghost var unread := d.AdoptOrphans();
    NotFound(card, d.turn);
    BackSince(card, d.turn);
    OneUncounted(card);
  }

  lemma {:induction false} StartableIs(w: World)
    requires Startable(w)
    ensures Names(w) && NoneShared(Snapshot(w, map[], None), {})
  {
  }

  lemma {:induction false} OneUncounted(card: Uuid)
    ensures Uncounted(Snapshot(BackInQueue(card), map[], None)) == {0}
  {
  }

  /** An earlier runner shares its card with a new one: it queued its job again
      while the scan looked, so that the scan left it alone, and the next pass
      starts the job anew on the card it is still on. */
  method MissedRunnerShares(card: Uuid) returns (d: Dispatcher, ghost scanned: Log, ghost other: Pid)
    ensures fresh(d) && d.Valid() && d.alone && Extends(scanned, d.log) && Kept(scanned)
    ensures scanned.states[0] == Snapshot(Stopped(card), map[], None) && Startable(Stopped(card)) && d.strays == {0}
    ensures other != 0 && 0 in d.world.live && other in d.world.live && d.world.live[0] == Runner(0, [card], 0, Ended)
    ensures d.world.live[other].job == 0 && d.world.live[other].gpus == [card]
  {
    hide Good, EventsOf, Happened, OrderOf, InOrder, Lawful, RoundIs, Startable, Eventless, EndsBy;
    StoppedIsFit(card);
    d := MissARunner(card);
    scanned := d.log;
    ghost var n := d.turn;
    ghost var r := d.RunOnce(Owning([card]));
    EndsLater(WhileScanning, 2, n);
    NothingHappens(scanned, d.log, WhileScanning, n, d.turn);
    GoodIs(true, d.strays, d.quietFrom, d.script, d.log);
    NothingToReap(d.log, Owning([card]), r);
    hide StillPass;
    other := StartsBeside(card, d.log, r);
  }

  lemma {:induction false} EndsLater(script: nat -> seq<Event>, n: nat, m: nat)
    requires EndsBy(script, n) && n <= m
    ensures EndsBy(script, m)
  {
  }

  lemma {:induction false} StartsBeside(card: Uuid, log: Log, r: Round) returns (other: Pid)
    requires Kept(log) && StillPass(log, Owning([card]), r) && r.after == log && Now(r.reaped) == Snapshot(BackInQueue(card), map[], None)
    requires forall j :: j in r.blocks ==> !r.blocks[j].SpawnFailed?
    ensures other != 0 && 0 in Now(log).world.live && other in Now(log).world.live
    ensures Now(log).world.live[0] == Runner(0, [card], 0, Ended) && Now(log).world.live[other].job == 0 && Now(log).world.live[other].gpus == [card]
  {
    hide StillPass, PlannedAt, Done, Decisions;
    StillLaunch(log, Owning([card]), r);
    hide LivesOn;
    PlansItsCard(card, r.launching);
    StartedOnIt(card, r);
    hide GivenUpNow;
    other := Now(r.launched).running[0].pid;
    LivesThrough(Now(r.reaped).world, Now(r.launched).world, Now(log).world, other);
  }

  lemma {:induction false} LivesThrough(u: World, v: World, w: World, pid: Pid)
    requires LivesOn(u, v) && LivesOn(v, w) && 0 in u.live && 0 < u.next && pid in v.live && pid < v.next
    ensures 0 in w.live && w.live[0] == u.live[0] && pid in w.live && w.live[pid] == v.live[pid]
  {
  }

  lemma {:induction false} StartedOnIt(card: Uuid, r: Round)
    requires Kept(r.reaped) && Kept(r.launched) && Now(r.reaped) == Snapshot(BackInQueue(card), map[], None)
    requires |r.launching.rs| == 1 && r.launching.Dealt()[0] == Assigned(0, [card], []) && PlannedAt(Now(r.reaped), Owning([card]), None, r.launching)
    requires Done(r.launching.Dealt(), |r.launching.rs|, r.launching.attempts, Now(r.reaped).running, Now(r.launched).running, r.blocks.Keys)
    requires forall j :: j in r.blocks ==> r.blocks[j].ClaimedSince? && GivenUpNow(Now(r.reaped), r.launching, j, r.blocks[j].card)
    ensures 0 in Now(r.launched).running && Now(r.launched).running[0].gpus == [card]
  {
    hide PlannedAt, Decisions;
    NobodyGivenUp(card, r.launching);
    hide GivenUpNow;
  }

  lemma {:induction false} NobodyGivenUp(card: Uuid, plan: Plan)
    ensures forall j, c :: !GivenUpNow(Snapshot(BackInQueue(card), map[], None), plan, j, c)
  {
    hide Decide, After;
    assert forall j, c :: !Claims(BackInQueue(card), j, c);
  }

  lemma {:induction false} NothingToReap(log: Log, p: Readings, r: Round)
    requires RoundIs(p, r) && !p.draining && Lawful(true, log) && Kept(log) && r.after == log
    requires Now(r.before).running == map[] && Eventless(log, |r.before.acts|, |log.acts|) && Specified(Now(r.before).world)
    ensures r.reaped == r.before && StillPass(log, p, r)
  {
    hide Lawful, ServedThen, SeenAlive;
  }

  // A claim that comes too late to be seen.

  /** Two queued jobs, and a runner somebody else has started for the second. */
  function Contended(card: Uuid): World {
    World(map[0 := Job(Queued, 0, [], 0, NoIntent, 0, 0.0, Some(Spec(1, false, false))),
              1 := Job(Queued, 0, [], 0, NoIntent, 0, 0.0, Some(Spec(1, false, false)))],
          map[0 := Runner(1, [card], 0, Spawned)], 1, {})
  }

  /** The runner has claimed it. */
  function Snatched(card: Uuid): World {
    World(map[0 := Job(Queued, 0, [], 0, NoIntent, 0, 0.0, Some(Spec(1, false, false))),
              1 := Job(Running, 0, [card], 0, NoIntent, 0, 0.0, Some(Spec(1, false, false)))],
          map[0 := Runner(1, [card], 0, Machine.Claimed)], 1, {})
  }

  /** It does so after every state has been read again, just before the spawn. */
  function BeforeTheSpawn(n: nat): seq<Event> {
    if n == 3 then [Claim(0, 0.0)] else []
  }

  lemma {:induction false} ReadBeforeIt(card: Uuid)
    ensures ReadAllBy(Contended(card), BeforeTheSpawn, 0) == 3
    ensures Passing(Contended(card), BeforeTheSpawn, 0, 4) == Snatched(card)
    ensures Happened(BeforeTheSpawn, 3) == []
  {
    var w := Contended(card);
    assert Passed(w, []) == w && w.jobs.Keys == {0, 1};
    assert Passing(w, BeforeTheSpawn, 0, 0) == w;
    assert Passing(w, BeforeTheSpawn, 0, 1) == w;
    assert Passing(w, BeforeTheSpawn, 0, 2) == w;
    assert Passing(w, BeforeTheSpawn, 0, 3) == w;
    assert Claiming(w, 0, 0.0) == Snatched(card);
    assert Passed(w, [Claim(0, 0.0)]) == Happens(Passed(w, []), Claim(0, 0.0));
    assert Happened(BeforeTheSpawn, 1) == [];
    assert Happened(BeforeTheSpawn, 2) == [];
  }

  lemma {:induction false} NothingSeen(log: Log, card: Uuid, c: Uuid)
    requires Lawful(false, log) && Kept(log) && EventsOf(log.acts) == [] && log.states[0].world == Contended(card)
    requires forall t :: 0 <= t < |log.acts| ==> OfLaunching(log.acts[t])
    ensures !SeenClaimed(log.states, 0, |log.acts|, c)
  {
    assert log.acts[..0] == [];
    NoNewEvents(log.acts, 0);
    forall t: nat, j | t <= |log.acts|
      ensures !Claims(log.states[t].world, j, c)
    {
      NoNewClaims(false, log, 0, t, j, c);
      assert !Claims(Contended(card), j, c);
    }
  }

  /** The dispatcher's launch beside it. */
  method LaunchBeside(card: Uuid) returns (d: Dispatcher)
    ensures fresh(d) && d.Valid() && !d.alone && Lawful(false, d.log) && Launched(d.log, 0, [card], 0, Snatched(card))
    ensures d.world == Now(d.log).world
  {
    hide Good, EventsOf, Happened, OrderOf, InOrder, Lawful, Passing, Passed, Names, Knows, Contended, Snatched, Launched, SeenClaimed, Claims;
    ReadBeforeIt(card);
    d := new Dispatcher(false, BeforeTheSpawn, _ => false, Contended(card));
    assert CameTo(d.world, 0, 0) by { ContendedIs(card); }
    var block := d.Launch(0, [card], 0);
    GoodIs(false, d.strays, d.quietFrom, d.script, d.log);
    if block.Some? && block.value.ClaimedSince? {
      NothingSeen(d.log, card, block.value.card);
      assert false;
    }
  }

  lemma {:induction false} ContendedIs(card: Uuid)
    ensures CameTo(Contended(card), 0, 0)
  {
  }

  /** A launch on a card another dispatcher's runner has claimed since its job's
      state was read again, so that both are on it. */
  method LateClaimIsMissed(card: Uuid) returns (d: Dispatcher, ghost k: nat)
    ensures fresh(d) && d.Valid() && !d.alone && Lawful(false, d.log) && k < |d.log.acts| < |d.log.states|
    ensures d.log.acts[k].Spawn? && card in d.log.acts[k].gpus && Claims(d.log.states[k].world, 1, card)
    ensures !ClearOfClaims(d.log.states[k].world, d.log.acts[k].gpus)
    ensures d.world.live.Keys == {0, 1} && forall p :: p in d.world.live ==> d.world.live[p].gpus == [card]
  {
    hide Good, EventsOf, Happened, OrderOf, InOrder, Lawful, Names, Knows;
    d := LaunchBeside(card);
    k := |d.log.acts| - 1;
    assert Claims(Snatched(card), 1, card);
  }

  // A stopped job whose state cannot be read.

  /** Job 0 waits for both cards: one is free, and job 1, asked to stop, is on
      the other. Job 2, which may be stopped again, would fill with one. */
  function Covering(b: Uuid): Snapshot {
    Snapshot(
      World(map[0 := Job(Queued, 0, [], 0, NoIntent, 0, 0.0, Some(Spec(2, false, false))),
                1 := Job(Running, 0, [b], 1, ToPreempt, 0, 0.0, Some(Spec(1, false, true))),
                2 := Job(Queued, 0, [], 0, NoIntent, 0, 0.0, Some(Spec(1, false, true)))],
            map[1 := Runner(1, [b], 0, Machine.Claimed)], 2, {}),
      map[1 := Entry([b], 0, 1)], None)
  }

  /** The same with the state of job 1 unreadable. */
  function Uncovering(b: Uuid): Snapshot {
    Covering(b).(world := Happens(Covering(b).world, Garble(1)))
  }

  lemma {:induction false} CoveringIs(b: Uuid)
    ensures Whole(Covering(b)) && Leaves(Covering(b), 1) && !Leaves(Uncovering(b), 1)
    ensures Uncovering(b).world == Covering(b).world.(garbled := {1})
  {
    assert Named(Covering(b).world, 1);
  }

  function Wide(): Request { Request(0, 2, false, None, 0, false) }
  function Filler(): Request { Request(2, 1, false, None, 0, true) }

  /** The requests of either moment. */
  lemma {:induction false} TwoRequests(s: Snapshot, b: Uuid, rs: seq<Request>)
    requires s == Covering(b) || s == Uncovering(b)
    requires Waiting(rs, s.running) && HasRequest(rs, 0) && HasRequest(rs, 2) && forall r :: r in rs ==> AsksNow(s.world, r)
    ensures rs == [Wide(), Filler()]
  {
    forall i | 0 <= i < |rs|
      ensures rs[i] == Wide() || rs[i] == Filler()
    {
      assert rs[i] in rs;
    }
    InOrderOnce(rs, s.running);
  }

  lemma {:induction false} InOrderOnce(rs: seq<Request>, running: map<JobId, Entry>)
    requires Waiting(rs, running) && HasRequest(rs, 0) && HasRequest(rs, 2)
    requires forall i :: 0 <= i < |rs| ==> rs[i] == Wide() || rs[i] == Filler()
    ensures rs == [Wide(), Filler()]
  {
    var i :| 0 <= i < |rs| && rs[i].jobId == 0;
    var j :| 0 <= j < |rs| && rs[j].jobId == 2;
    assert Before(Wide().SortKey(), Filler().SortKey()) && !Before(Filler().SortKey(), Wide().SortKey());
    FirstThreeDiffer(rs, running);
    assert i != j;
  }

  lemma {:induction false} FirstThreeDiffer(rs: seq<Request>, running: map<JobId, Entry>)
    requires Waiting(rs, running)
    ensures |rs| > 1 ==> rs[0].jobId != rs[1].jobId && Before(rs[0].SortKey(), rs[1].SortKey())
    ensures |rs| > 2 ==> rs[0].jobId != rs[2].jobId && rs[1].jobId != rs[2].jobId
  {
    hide Before;
  }

  lemma {:induction false} FirstOf<T>(s: seq<T>)
    ensures |s| > 0 ==> s[0] in s
    ensures NoDup(s) && |s| > 1 ==> s[0] != s[1] && s[1] in s
  {
  }

  /** What either moment leaves to give out. */
  lemma {:induction false} WhatIsLeft(s: Snapshot, a: Uuid, b: Uuid, plan: Plan)
    requires a != b && (s == Covering(b) || s == Uncovering(b)) && PlannedAt(s, Owning([a, b]), None, plan)
    ensures plan.s == Fresh([a], [], 0) && plan.h.preemptable == [] && plan.rs == [Wide(), Filler()]
    ensures plan.h.coming == if s == Covering(b) then [b] else []
    ensures plan.h.ownedPresent == 2 && plan.h.sharedVisible == 0 && plan.h.shared == {}
  {
    WhatIsAsked(s, b);
    hide Covering, Uncovering, Waiting, AsksNow, Stoppable, StateFor, CardsIn, IsLeaving, NoDup;
    TwoRequests(s, b, plan.rs);
    FirstOf(plan.h.preemptable);
    FreeThen(s, a, b, plan.claims);
    ComingThen(s, a, b, plan.leavers);
  }

  lemma {:induction false} WhatIsAsked(s: Snapshot, b: Uuid)
    requires s == Covering(b) || s == Uncovering(b)
    ensures Reads(s.world, 0, Queued) && Reads(s.world, 2, Queued) && 0 !in s.running && 2 !in s.running
    ensures forall j :: !Stoppable(s.world, j)
  {
    CoveringIs(b);
  }

  lemma {:induction false} FreeThen(s: Snapshot, a: Uuid, b: Uuid, claims: set<Uuid>)
    requires a != b && (s == Covering(b) || s == Uncovering(b)) && forall c :: c in claims <==> exists j :: Claims(s.world, j, c)
    ensures StateFor(Owning([a, b]), None, CardsOf(s.running) + claims) == Fresh([a], [], 0)
  {
    var busy := CardsOf(s.running) + claims;
    assert b in busy by {
      assert 1 in s.running && b in s.running[1].gpus;
    }
    forall c | c in claims
      ensures c == b
    {
      var j :| Claims(s.world, j, c);
    }
    assert a !in busy;
    assert [a, b][1..] == [b];
    assert Without([a, b], busy) == [a];
  }

  lemma {:induction false} ComingThen(s: Snapshot, a: Uuid, b: Uuid, leavers: seq<JobId>)
    requires a != b && (s == Covering(b) || s == Uncovering(b)) && NoDup(leavers) && AllIn(leavers, s.running)
    requires forall j :: j in leavers <==> j in s.running && IsLeaving(Read(s.world, j), s.running[j])
    ensures CardsIn(leavers, s.running, Elems([a, b]) + Elems<Uuid>([])) == if s == Covering(b) then [b] else []
  {
    CoveringIs(b);
    var visible := Elems([a, b]) + Elems<Uuid>([]);
    assert b in visible by {
      assert [a, b][1] == b;
    }
    if s == Covering(b) {
      assert Leaves(s, 1);
      assert 1 in leavers;
      FirstOf(leavers);
      assert leavers == [1];
      assert leavers[..0] == [];
      assert CardsIn([], s.running, visible) == [];
      assert Within([b], visible) == [b];
    } else {
      FirstOf(leavers);
    }
  }

  /** The wide job holds the free card; with the other one on its way back that
      covers it. */
  lemma {:induction false} WideHolds(a: Uuid, b: Uuid, h: Host, s: State)
    requires a != b && h.ownedPresent == 2 && h.sharedVisible == 0 && h.shared == {} && h.preemptable == []
    requires s == Fresh([a], [], 0) && (h.coming == [b] || h.coming == [])
    ensures var gap := if h.coming == [b] then 0 else 1;
            Decide(h, s, Wide()) == Holds(0, |h.coming| + 1, 0, gap, [])
            && Next(h, s, Wide()) == State([a], [], 0, if gap == 0 then map[a := 0, b := 0] else map[a := 0], if gap == 0 then {0} else {}, gap == 1)
  {
    var r := Wide();
    assert Without([a], {}) == [a];
    assert Own(s, r) == [a];
    assert Free(s, r) == [a];
    assert Back(h, s, r) == h.coming by {
      WithoutNothing(h.coming, s.held.Keys + {});
      assert s.held.Keys + (if r.borrows then {} else h.shared) == {};
      assert Without(h.coming, {}) == h.coming by { WithoutNothing(h.coming, {}); }
      assert Within(h.coming, {}) == [];
      assert Returning(h, s, r) == h.coming;
    }
    assert Stops(h, s, r) == [];
    hide Free, Back, Own;
    assert OwnedAmong(h.coming, {}) == |h.coming| by { WithoutNothing(h.coming, {}); }
    assert [a] + h.coming == if h.coming == [b] then [a, b] else [a];
  }

  lemma {:induction false} FillerTakes(a: Uuid, b: Uuid, h: Host, s: State)
    requires a != b && h.ownedPresent == 2 && h.sharedVisible == 0 && h.shared == {} && h.preemptable == []
    requires h.coming == [] && s == State([a], [], 0, map[a := 0], {}, true)
    ensures Decide(h, s, Filler()) == Assigned(2, [a], [0])
  {
    var r := Filler();
    assert Own(s, r) == [];
    assert Covered(s) == {};
    assert Without([a], {}) == [a];
    assert UnheldFirst([a], s.held) == [a];
    assert Fillable(s, r) == [a];
    assert First([a], 1) == [a];
    assert [a][..0] == [];
    assert Holders([], s.held) == [];
    assert Holders([a], s.held) == [0];
  }

  lemma {:induction false} FillerWaits(a: Uuid, b: Uuid, h: Host, s: State)
    requires a != b && h.ownedPresent == 2 && h.sharedVisible == 0 && h.shared == {} && h.preemptable == []
    requires h.coming == [b] && s == State([a], [], 0, map[a := 0, b := 0], {0}, false)
    ensures !Decide(h, s, Filler()).Assigned?
  {
    var r := Filler();
    assert Own(s, r) == [];
    assert a in Covered(s);
    assert Without([a], Covered(s)) == [];
    assert Fillable(s, r) == [];
  }

  /** With the state readable the waiting job is covered, and nobody is started. */
  lemma {:induction false} CoveredWaits(a: Uuid, b: Uuid, plan: Plan)
    requires a != b && PlannedAt(Covering(b), Owning([a, b]), None, plan)
    ensures |plan.rs| == 2 && plan.Dealt()[0].Holds? && plan.Dealt()[0].gap == 0 && !plan.Dealt()[1].Assigned?
  {
    WhatIsLeft(Covering(b), a, b, plan);
    hide PlannedAt, Decide, Next;
    WideHolds(a, b, plan.h, plan.s);
    FillerWaits(a, b, plan.h, Next(plan.h, plan.s, Wide()));
    assert After(plan.h, plan.s, plan.rs, 0) == plan.s;
    assert After(plan.h, plan.s, plan.rs, 1) == Next(plan.h, plan.s, Wide());
  }

  /** Without it the filler gets the free card. */
  lemma {:induction false} UncoveredLoses(a: Uuid, b: Uuid, plan: Plan)
    requires a != b && PlannedAt(Uncovering(b), Owning([a, b]), None, plan)
    ensures |plan.rs| == 2 && plan.Dealt()[0].Holds? && plan.Dealt()[0].gap == 1 && plan.Dealt()[1] == Assigned(2, [a], [0])
  {
    CoveringIs(b);
    WhatIsLeft(Uncovering(b), a, b, plan);
    hide PlannedAt, Decide, Next;
    WideHolds(a, b, plan.h, plan.s);
    FillerTakes(a, b, plan.h, Next(plan.h, plan.s, Wide()));
    assert After(plan.h, plan.s, plan.rs, 0) == plan.s;
    assert After(plan.h, plan.s, plan.rs, 1) == Next(plan.h, plan.s, Wide());
  }

  /** A covered job loses the card held for it in any pass that finds a stopped
      job's state unreadable: the filler is started on it, unless its spawn
      fails. With the state readable, no such pass starts anybody. */
  lemma {:induction false} GarbledStopLosesItsCard(a: Uuid, b: Uuid, log: Log, r: Round)
    requires a != b && StillPass(log, Owning([a, b]), r) && Kept(r.reaped) && Kept(r.launched)
    requires Now(r.reaped) == Covering(b) || Now(r.reaped) == Uncovering(b)
    ensures Now(r.reaped) == Covering(b) ==> Now(r.launched).running.Keys == {1}
    ensures Now(r.reaped) == Uncovering(b) ==>
      (2 in r.blocks && r.blocks[2].SpawnFailed?) || (2 in Now(r.launched).running && Now(r.launched).running[2].gpus == [a])
  {
    hide StillPass, PlannedAt, Done, Decisions;
    StillLaunch(log, Owning([a, b]), r);
    CoveringIs(b);
    if Now(r.reaped) == Covering(b) {
      CoveredWaits(a, b, r.launching);
      NobodyStarted(r.launching, Now(r.reaped).running, Now(r.launched).running, r.blocks.Keys);
    } else {
      UncoveredLoses(a, b, r.launching);
      FillerStarted(a, b, r);
    }
  }

  lemma {:induction false} NobodyStarted(plan: Plan, was: map<JobId, Entry>, now: map<JobId, Entry>, blocked: set<JobId>)
    requires Done(plan.Dealt(), |plan.rs|, plan.attempts, was, now, blocked)
    requires |plan.rs| == 2 && plan.Dealt()[0].Holds? && !plan.Dealt()[1].Assigned?
    ensures now.Keys == was.Keys
  {
    hide Decisions, Decide, After;
    forall j | j in now
      ensures j in was
    {
      assert forall k :: 0 <= k < |plan.rs| ==> !StartedOn(plan.Dealt()[k], j, now[j], plan.attempts);
    }
    forall j | j in was
      ensures j in now
    {
    }
  }

  lemma {:induction false} FillerStarted(a: Uuid, b: Uuid, r: Round)
    requires a != b && Kept(r.reaped) && Kept(r.launched) && Now(r.reaped) == Uncovering(b)
    requires |r.launching.rs| == 2 && r.launching.Dealt()[0].Holds? && r.launching.Dealt()[1] == Assigned(2, [a], [0])
    requires Done(r.launching.Dealt(), |r.launching.rs|, r.launching.attempts, Now(r.reaped).running, Now(r.launched).running, r.blocks.Keys)
    requires forall j :: j in r.blocks && r.blocks[j].ClaimedSince? ==> GivenUpNow(Now(r.reaped), r.launching, j, r.blocks[j].card)
    ensures (2 in r.blocks && r.blocks[2].SpawnFailed?) || (2 in Now(r.launched).running && Now(r.launched).running[2].gpus == [a])
  {
    hide Decisions;
    CoveringIs(b);
    assert forall j, c :: !Claims(Uncovering(b).world, j, c);
    assert 2 in r.blocks || StartedOn(r.launching.Dealt()[1], 2, Now(r.launched).running[2], r.launching.attempts);
  }

  /** The state becomes unreadable as soon as the runner has been adopted. */
  function OnceAdopted(n: nat): seq<Event> {
    if n == 1 then [Garble(1)] else []
  }

  lemma {:induction false} GarbledByThen(b: Uuid)
    ensures Passed(Covering(b).world, OnceAdopted(0)) == Covering(b).world
    ensures Passing(Covering(b).world, OnceAdopted, 0, 2) == Uncovering(b).world
    ensures AloneScript(OnceAdopted) && EndsBy(OnceAdopted, 2)
  {
    var w := Covering(b).world;
    PassingTwo(w, OnceAdopted, 0);
    assert Passed(w, [Garble(1)]) == Happens(Passed(w, []), Garble(1));
  }

  /** With every entry's runner alive and nothing happening, nothing is reaped. */
  lemma {:induction false} NobodyReaped(log: Log, p: Readings, r: Round)
    requires RoundIs(p, r) && !p.draining && Lawful(true, log) && Kept(log) && r.after == log
    requires Eventless(log, |r.before.acts|, |log.acts|) && Specified(Now(r.before).world) && Kept(r.before)
    requires forall j :: j in Now(r.before).running ==> Now(r.before).running[j].pid in Now(r.before).world.live
    requires Extends(r.before, log) && forall p :: p in Now(r.before).world.live ==> p < Now(r.before).world.next
    ensures r.reaped == r.before && StillPass(log, p, r)
  {
    hide ServedThen, SeenAlive, OfReaping, Lawful;
    ReapedWithin(p, r);
    DroppedAtOnce(r.before, r.reaped, log);
    NoneToDrop(log, r.before);
    SameLog(r.before, r.reaped, log);
  }

  lemma {:induction false} DroppedAtOnce(past: Log, log: Log, last: Log)
    requires Extends(log, last) && Eventless(last, |past.acts|, |last.acts|)
    ensures DropsFirst(past, log) ==> |past.acts| < |last.acts| && last.acts[|past.acts|].Drop?
  {
    ActAt(log, last, |past.acts|);
  }

  lemma {:induction false} NoneToDrop(log: Log, before: Log)
    requires Lawful(true, log) && Kept(log) && Kept(before) && Extends(before, log)
    requires forall j :: j in Now(before).running ==> Now(before).running[j].pid in Now(before).world.live
    ensures |before.acts| < |log.acts| ==> !log.acts[|before.acts|].Drop?
  {
    var n := |before.acts|;
    assert log.states[n] == Now(before);
    if n < |log.acts| {
      LawfulStep(true, log, n);
    }
    hide Lawful, Apply;
  }

  lemma {:induction false} SameLog(past: Log, log: Log, last: Log)
    requires Extends(past, log) && Kept(past) && Kept(log) && Extends(log, last) && Eventless(last, |past.acts|, |last.acts|)
    ensures OnlyEvents(past, log) ==> log == past
  {
    ActAt(log, last, |past.acts|);
    assert log.acts == log.acts[..|log.acts|];
  }

  lemma {:induction false} ActAt(log: Log, last: Log, n: nat)
    requires Extends(log, last)
    ensures n < |log.acts| ==> log.acts[n] == last.acts[n]
  {
  }

  lemma {:induction false} ReapedWithin(p: Readings, r: Round)
    requires RoundIs(p, r) && !p.draining
    ensures Kept(r.reaped) && Extends(r.reaped, r.after) && OnlyReaps(r.before, r.reaped)
  {
    hide SeenAlive, Done, PlanIs, Decisions, GivenUpFor, PreemptPass, OnlyReaps;
  }

  /** Such a pass, made from the start: a dispatcher adopts the runner of the
      job asked to stop, its state becomes unreadable, and the next pass starts
      the filler on the card held for the waiting job. */
  method GarbledStopIsForgotten(a: Uuid, b: Uuid) returns (d: Dispatcher, ghost adopted: Log, ghost r: Round)
    requires a != b
    ensures fresh(d) && d.Valid() && d.alone && Kept(adopted) && Extends(adopted, d.log)
    ensures adopted.states[0] == Snapshot(Covering(b).world, map[], None) && Now(adopted) == Uncovering(b)
    ensures RoundIs(Owning([a, b]), r) && r.before == adopted && r.after == d.log && Kept(r.launched)
    ensures 2 in Now(r.launched).running && Now(r.launched).running[2].gpus == [a]
  {
    hide Good, EventsOf, Happened, OrderOf, InOrder, Lawful, RoundIs, Passing, Passed, Eventless, EndsBy, Names, Accounted, SeenGarbled;
    GarbledByThen(b);
    CoveringIs(b);
    d := new Dispatcher(true, OnceAdopted, _ => false, Covering(b).world);
    ghost var unread := d.AdoptOrphan(1);
    adopted := d.log;
    assert d.running == map[1 := Entry([b], 0, 1)] && d.turn == 2;
    r := d.RunOnce(Owning([a, b]));
    NothingHappens(adopted, d.log, OnceAdopted, 2, d.turn);
    GoodIs(true, d.strays, d.quietFrom, d.script, d.log);
    Forgotten(a, b, d.log, adopted, r);
  }

  lemma {:induction false} Forgotten(a: Uuid, b: Uuid, log: Log, adopted: Log, r: Round)
    requires a != b && RoundIs(Owning([a, b]), r) && r.before == adopted && r.after == log
    requires Lawful(true, log) && Kept(log) && Kept(adopted) && Extends(adopted, log) && Now(adopted) == Uncovering(b)
    requires Eventless(log, |adopted.acts|, |log.acts|) && !(2 in r.blocks && r.blocks[2].SpawnFailed?)
    ensures Kept(r.launched) && 2 in Now(r.launched).running && Now(r.launched).running[2].gpus == [a]
  {
    hide RoundIs, Lawful, Eventless;
    CoveringIs(b);
    NobodyReaped(log, Owning([a, b]), r);
    hide StillPass;
    StillIsKept(log, Owning([a, b]), r);
    GarbledStopLosesItsCard(a, b, log, r);
  }

  lemma {:induction false} StillIsKept(log: Log, p: Readings, r: Round)
    requires StillPass(log, p, r)
    ensures Kept(r.reaped) && Kept(r.launched)
  {
    PassOrder(log, p, r);
  }
}
