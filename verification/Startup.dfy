/** A dispatcher from its start on: the scan for the runners of an earlier one,
    then any number of passes. */
module Startup {
  import opened Lists
  import opened Preempt
  import opened Machine
  import opened Ledger
  import opened Quiet
  import opened Bookkeeping
  import opened Passes
  import opened Service
  import opened Dispatching

  /** Every runner still alive that has written its last state is counted. */
  ghost predicate NoneMissed(s: Snapshot) {
    forall p :: p in s.world.live && s.world.live[p].phase == Ended ==> Counted(s, p)
  }

  /** A machine to start on: its runners hold what their jobs' states say, and
      share nothing. */
  ghost predicate Startable(w: World) {
    Names(w) && NoneShared(Snapshot(w, map[], None), {}) && forall p :: p in w.live ==> w.live[p].phase != Spawned
  }

  lemma {:induction false} FitStarts(w: World)
    requires Startable(w)
    ensures forall p :: p in w.live ==> p < w.next && w.live[p].phase != Spawned
  {
  }

  lemma {:induction false} OnlyExits(log: Log, i: nat, k: nat)
    requires Lawful(true, log) && i <= k < |log.states| && forall t :: i <= t < k ==> !log.acts[t].Spawn?
    ensures RunnersGoOn(log.states[i].world, log.states[k].world)
    decreases k
  {
    if i < k {
      OnlyExits(log, i, k - 1);
      LawfulStep(true, log, k - 1);
      hide Lawful, RunnersGoOn, Allowed, Apply;
      StepRunners(log.states[k - 1], log.acts[k - 1]);
      RunnersTwice(log.states[i].world, log.states[k - 1].world, log.states[k].world);
    }
  }

  lemma {:induction false} StepRunners(s: Snapshot, a: Act)
    requires Allowed(true, s, a) && !a.Spawn?
    ensures RunnersGoOn(s.world, Apply(s, a).world)
  {
    if a.Env? {
      EventRunners(s.world, a.event);
    }
    hide Happens, SomebodyAhead;
  }

  /** Until the first launch, runners that shared nothing share nothing. */
  lemma {:induction false} SharedNothing(log: Log, scanned: Log, k: nat)
    requires Lawful(true, log) && Kept(scanned) && Extends(scanned, log) && |log.states| == |log.acts| + 1
    requires NoneShared(scanned.states[0], {}) && k <= |scanned.acts|
    requires forall t :: 0 <= t < |scanned.acts| ==> !scanned.acts[t].Spawn?
    ensures NoneShared(log.states[k], {})
  {
    assert forall t :: 0 <= t < |scanned.acts| ==> log.acts[t] == scanned.acts[t];
    assert log.states[0] == scanned.states[0];
    OnlyExits(log, 0, k);
    hide Lawful;
  }

  /** Safety from the start: what is not found is what had written its last
      state, or could not be read; and if there is no such runner, then at no
      moment of the run are a card or a job under two live runners. */
  method Run(script: nat -> seq<Event>, spawnFails: nat -> bool, world: World, passes: seq<Readings>)
    returns (d: Dispatcher, ghost scanned: Log, ghost unread: set<JobId>, ghost rounds: seq<Round>)
    requires AloneScript(script) && Startable(world) && forall p :: p in passes ==> Resolved(p)
    ensures fresh(d) && d.Valid() && d.alone && d.script == script && d.spawnFails == spawnFails
    ensures Kept(scanned) && Extends(scanned, d.log) && scanned.states[0] == Snapshot(world, map[], None)
    ensures d.strays == Uncounted(Now(scanned)) && forall j :: j in unread ==> SeenGarbled(scanned.states, 0, j)
    ensures forall p :: p in d.strays ==> Now(scanned).world.live[p].phase == Ended || Now(scanned).world.live[p].job in unread
    ensures forall k :: |scanned.acts| <= k < |d.log.states| ==> Sound(d.log.states[k], d.strays)
    ensures unread == {} && NoneMissed(Now(scanned)) ==>
      d.strays == {} && forall k :: 0 <= k < |d.log.states| ==> NoneShared(d.log.states[k], {})
    ensures |rounds| == |passes| && Chained(rounds, scanned, d.log)
    ensures forall k :: 0 <= k < |passes| ==> RoundIs(passes[k], rounds[k])
  {
    hide Good, EventsOf, Happened, OrderOf, InOrder, Lawful, QuietLog, Whole, RoundIs, Chained, NoneShared, Names, Counted, SeenGarbled, AloneScript, Resolved;
    FitStarts(world);
    d := new Dispatcher(true, script, spawnFails, world);
    unread := d.AdoptOrphans();
    scanned := d.log;
    rounds := d.Serve(passes);
    GoodIs(true, d.strays, d.quietFrom, d.script, d.log);
    if unread == {} && NoneMissed(Now(scanned)) {
      NoStrays(Now(scanned), d.strays, unread);
      forall k: nat | k < |d.log.states|
        ensures NoneShared(d.log.states[k], {})
      {
        if k <= |scanned.acts| {
          SharedNothing(d.log, scanned, k);
        } else {
          assert Sound(d.log.states[k], d.strays);
        }
      }
    }
  }

  lemma {:induction false} NoStrays(s: Snapshot, strays: set<Pid>, unread: set<JobId>)
    requires strays == Uncounted(s) && unread == {} && NoneMissed(s)
    requires forall p :: p in strays ==> s.world.live[p].phase == Ended || s.world.live[p].job in unread
    ensures strays == {}
  {
    forall p | p in s.world.live
      ensures Counted(s, p)
    {
      assert !Counted(s, p) ==> p in strays;
    }
  }

  // A quiet host.

  /** No runner, no claim, and every state readable. */
  ghost predicate Bare(w: World) {
    w.live == map[] && w.garbled == {} && NobodyRuns(w)
  }

  lemma {:induction false} EventKeepsBare(w: World, e: Event)
    requires Bare(w) && Undisturbed(e)
    ensures Bare(Happens(w, e))
  {
    hide SomebodyAhead;
    var v := Happens(w, e);
    assert v.live == map[];
    forall j
      ensures !Reads(v, j, Running)
    {
      assert !Reads(w, j, Running);
    }
  }

  lemma {:induction false} PassedKeepsBare(w: World, events: seq<Event>)
    requires Bare(w) && forall i :: 0 <= i < |events| ==> Undisturbed(events[i])
    ensures Bare(Passed(w, events))
  {
    if events != [] {
      PassedKeepsBare(w, events[..|events| - 1]);
      EventKeepsBare(Passed(w, events[..|events| - 1]), events[|events| - 1]);
    }
  }

  lemma {:induction false} PassingKeepsBare(w: World, script: nat -> seq<Event>, from: nat, n: nat)
    requires Bare(w) && QuietScript(script)
    ensures Bare(Passing(w, script, from, n))
    decreases n
  {
    hide Bare;
    if from < n {
      PassingKeepsBare(w, script, from, n - 1);
      PassedKeepsBare(Passing(w, script, from, n - 1), script(n - 1));
    }
  }

  lemma {:induction false} BareIsWhole(w: World)
    requires Bare(w)
    ensures Whole(Snapshot(w, map[], None)) && Startable(w)
  {
    forall j | j in w.jobs
      ensures ClaimIsCounted(Snapshot(w, map[], None), j) && w.jobs[j].status != Running
    {
      assert !Reads(w, j, Running);
    }
  }

  /** Quiet runs are there to be had: on a host with nothing running, nobody
      else's runners and every state readable, the passes of a dispatcher are
      in service, as `ServedInOrder` and `CoveredInTheNextPass` ask for. */
  method RunQuietly(script: nat -> seq<Event>, spawnFails: nat -> bool, world: World, p: Readings, passes: nat)
    returns (d: Dispatcher, ghost scanned: Log, ghost rounds: seq<Round>)
    requires QuietScript(script) && Bare(world) && OwnOnly(p)
    ensures fresh(d) && d.Valid() && d.alone && d.script == script && d.spawnFails == spawnFails && d.strays == {}
    ensures Kept(scanned) && Extends(scanned, d.log) && scanned.states[0] == Snapshot(world, map[], None)
    ensures |rounds| == passes && Chained(rounds, scanned, d.log)
    ensures InService(d.log, |scanned.acts|, p, rounds)
  {
    hide Good, EventsOf, Happened, OrderOf, InOrder, Lawful, QuietLog, Whole, RoundIs, NoneShared, Names, Counted, SeenGarbled, Bare, NobodyRuns, Passing, Passed;
    BareIsWhole(world);
    FitStarts(world);
    QuietIsAloneScript(script);
    d := new Dispatcher(true, script, spawnFails, world);
    ghost var unread := d.AdoptOrphans();
    scanned := d.log;
    NobodyFoundOn(world, script, d.turn);
    BareIsWhole(d.world);
    BareHasNoStrays(d.world, d.running, d.settling);
    hide QuietScript;
    d.GoQuiet();
    var ps := seq(passes, _ => p);
    rounds := d.Serve(ps);
    GoodIs(true, d.strays, d.quietFrom, d.script, d.log);
    ServesQuietly(d.log, |scanned.acts|, scanned, p, ps, rounds);
  }

  lemma {:induction false} QuietIsAloneScript(script: nat -> seq<Event>)
    requires QuietScript(script)
    ensures AloneScript(script)
  {
  }

  lemma {:induction false} NobodyFoundOn(w: World, script: nat -> seq<Event>, to: nat)
    requires Bare(w) && QuietScript(script)
    ensures FindsNobody(w, script, 0, to) && Bare(Passing(w, script, 0, to))
  {
    PassingKeepsBare(w, script, 0, to);
    forall n: nat | 2 <= n <= to
      ensures NobodyRuns(Passing(w, script, 0, n))
    {
      PassingKeepsBare(w, script, 0, n);
    }
  }

  lemma {:induction false} BareHasNoStrays(w: World, running: map<JobId, Entry>, settling: Option<Dropped>)
    requires Bare(w)
    ensures Uncounted(Snapshot(w, running, settling)) == {}
  {
  }

  lemma {:induction false} ServesQuietly(log: Log, from: nat, scanned: Log, p: Readings, ps: seq<Readings>, rounds: seq<Round>)
    requires Lawful(true, log) && Kept(log) && QuietLog(log, from) && OwnOnly(p) && Kept(scanned) && from == |scanned.acts|
    requires Chained(rounds, scanned, log) && |rounds| == |ps|
    requires forall k :: 0 <= k < |ps| ==> ps[k] == p && RoundIs(ps[k], rounds[k])
    ensures InService(log, from, p, rounds)
  {
    hide Lawful, QuietLog, RoundIs, OwnOnly;
    forall k: nat | k < |rounds|
      ensures Serving(log, from, p, rounds[k])
    {
      StartsAfter(scanned, log, p, rounds, k);
    }
    hide Serving;
    forall l: nat | 0 < l < |rounds|
      ensures rounds[l].before == rounds[l - 1].after
    {
      assert Follows(rounds, l, scanned);
    }
  }

  lemma {:induction false} StartsAfter(scanned: Log, log: Log, p: Readings, rounds: seq<Round>, k: nat)
    requires Kept(scanned) && Chained(rounds, scanned, log) && k < |rounds|
    requires forall i :: 0 <= i < |rounds| ==> RoundIs(p, rounds[i])
    ensures Kept(rounds[k].before) && |scanned.acts| <= |rounds[k].before.acts| && Extends(rounds[k].after, log)
  {
    hide RoundIs;
    assert Follows(rounds, k, scanned);
    RoundGrows(p, rounds[k]);
    if k > 0 {
      StartsAfter(scanned, log, p, rounds, k - 1);
      RoundGrows(p, rounds[k - 1]);
    }
  }

  lemma {:induction false} RoundGrows(p: Readings, r: Round)
    requires RoundIs(p, r)
    ensures Kept(r.before) && |r.before.acts| <= |r.after.acts|
  {
    hide LaunchPass, PreemptPass, TookReading, SeenAlive;
  }
}
