/** `Dispatcher` of gpuc/host/dispatcher.py: its passes over one machine, with
    anything that may happen on the machine happening between any two of its
    reads and writes. */
module Dispatching {
  import opened Lists
  import opened Preempt
  import opened Rule
  import opened Pass
  import opened Machine
  import opened Ledger
  import opened Quiet
  import opened Bookkeeping
  import opened Passes

  class Dispatcher {
    /** No other dispatcher starts runners here while this one runs. */
    ghost const alone: bool
    /** What happens before each read or write of the dispatcher. */
    const script: nat -> seq<Event>
    /** The spawns that fail. */
    const spawnFails: nat -> bool

    var world: World
    var running: map<JobId, Entry>
    var order: seq<JobId>
    var claimed: Option<set<Uuid>>
    var borrowable: Option<Reading>
    var queued: Option<seq<QueueEntry>>
    var turn: nat
    ghost var log: Log
    ghost var strays: set<Pid>
    /** The job whose dead runner has been dropped and is being settled. */
    ghost var settling: Option<Dropped>

    /** Where in the log the pass began. */
    ghost var began: nat
    /** From where on in the log the run has been quiet, if it has. */
    ghost var quietFrom: Option<nat>

    ghost predicate Valid()
      reads this
    {
      Core() && EventsOf(log.acts) == Happened(script, turn)
    }

    ghost predicate Core()
      reads this
    {
      && Good(alone, strays, quietFrom, script, log)
      && |log.states| == |log.acts| + 1 && Now(log) == Snapshot(world, running, settling)
      && OrderOf(order, running)
      && (queued.Some? ==> InOrder(queued.value))
    }

    /** What this pass remembers is what it read since it began. */
    ghost predicate Known()
      reads this
    {
      Knows(log, began, claimed, queued)
    }

    /** One step, recorded. */
    ghost method Record(a: Act)
      requires Good(alone, strays, quietFrom, script, log) && |log.states| == |log.acts| + 1 && Allowed(alone, Now(log), a)
      requires a.Spawn? ==> Rechecked(log.states, log.acts + [a], |log.acts|)
      requires quietFrom.Some? ==> QuietAct(Now(log), a)
      modifies this`log
      ensures Good(alone, strays, quietFrom, script, log) && |log.states| == |log.acts| + 1
      ensures log == Grown(old(log), a) && Now(log) == Apply(Now(old(log)), a) && Extends(old(log), log)
      ensures EventsOf(log.acts) == EventsOf(old(log).acts) + if a.Env? then [a.event] else []
    {
      hide Good, Allowed, Apply, Rechecked, QuietAct, EventsOf;
      StaysGood(alone, strays, quietFrom, script, log, a);
      OneMoreEvent(log.acts, a);
      log := Grown(log, a);
    }

    /** Whatever happens on the machine meanwhile. */
    method Others()
      requires Valid()
      modifies this`world, this`turn, this`log
      ensures Valid() && OnlyEvents(old(log), log)
      ensures turn == old(turn) + 1 && world == Passed(old(world), script(old(turn)))
      ensures alone ==> Calm(old(world), world)
      ensures Names(old(world)) ==> Names(world)
    {
      hide Good, Calm, Names, Happens, OrderOf, EventsOf, Happened, InOrder;
      var events := script(turn);
      CalmHere(world);
      ghost var before := EventsOf(log.acts);
      for i := 0 to |events|
        invariant Core() && OnlyEvents(old(log), log) && turn == old(turn)
        invariant EventsOf(log.acts) == before + events[..i] && world == Passed(old(world), events[..i])
        invariant alone ==> Calm(old(world), world)
        invariant Names(old(world)) ==> Names(world)
      {
        ScriptIsGood(alone, strays, quietFrom, script, log, turn, i);
        if alone {
          EventIsCalm(world, events[i]);
          CalmTwice(old(world), world, Happens(world, events[i]));
        }
        if Names(world) {
          EventKeepsNames(world, events[i]);
        }
        Record(Env(events[i]));
        world := Happens(world, events[i]);
        assert events[..i + 1] == events[..i] + [events[i]];
        assert events[..i + 1][..i] == events[..i];
      }
      assert events[..|events|] == events;
      OneMoreTurn(script, turn);
      turn := turn + 1;
    }

    method ReadState(job: JobId) returns (state: Option<Job>)
      requires Valid()
      modifies this`world, this`turn, this`log
      ensures Valid() && OnlyEvents(old(log), log)
      ensures alone ==> Calm(old(world), world)
      ensures Names(old(world)) ==> Names(world)
      ensures state == Read(world, job) && turn == old(turn) + 1 && world == Passed(old(world), script(old(turn)))
    {
      Others();
      state := Read(world, job);
    }

    // Startup and reaping.

    /** A dictionary entry put there or taken out. */
    method Put(job: JobId, entry: Entry)
      requires OrderOf(order, running) && job !in running
      modifies this`running, this`order
      ensures OrderOf(order, running) && running == old(running)[job := entry]
    {
      running := running[job := entry];
      order := order + [job];
    }

    method Pop(job: JobId)
      requires OrderOf(order, running) && job in running
      modifies this`running, this`order
      ensures OrderOf(order, running) && running == old(running) - {job}
    {
      running := running - {job};
      WithoutNoDup(order, {job});
      order := Without(order, {job});
    }

    /** `jobs.finish` for a dead runner: nothing is written unless the job still
        has the status the verdict was reached on. */
    method FinishDied(job: JobId, ghost attempt: nat, was: Status) returns (written: bool)
      requires Valid() && was != Finished
      requires alone ==> Judged(world, job, attempt, was)
      requires quietFrom.Some? ==> settling.Some? && settling.value.job == job
      modifies this`world, this`turn, this`log
      ensures Valid() && Extends(old(log), log) && turn >= old(turn)
      ensures forall t :: |old(log).acts| <= t < |log.acts| ==> log.acts[t].Env? || log.acts[t] == Died(job, attempt, was)
      ensures !written ==> OnlyEvents(old(log), log)
      ensures written ==> log.acts != [] && log.acts[|log.acts| - 1] == Died(job, attempt, was)
      ensures !Reads(world, job, was) && (alone ==> !Reads(world, job, Running))
      ensures Names(old(world)) && alone ==> Names(world)
      ensures alone ==> RunnersGoOn(old(world), world) && Judged(world, job, attempt, was)
    {
      hide Good, EventsOf, Happened, Calm, Names, OrderOf, Finishing, Judged;
      ghost var v := world;
      Others();
      if alone {
        JudgedStays(v, world, job, attempt, was);
        JudgedQueuedIsNot(world, job, attempt, was);
        CalmRunners(v, world);
      }
      written := Reads(world, job, was);
      if written {
        JudgedAllows(alone, Now(log), job, attempt, was);
        Record(Died(job, attempt, was));
        if alone && Names(world) {
          FinishingKeepsNames(world, job, was);
        }
        FinishingRunners(world, job, was);
        FinishedReads(world, job, was);
        if alone {
          FinishedIsJudged(world, job, attempt, was);
        }
        world := Finishing(world, job, was);
      }
    }

    /** `_mark_runner_died`: a job whose state cannot be read is left alone. */
    method MarkRunnerDied(job: JobId, ghost attempt: nat, was: Status) returns (written: bool)
      requires Valid() && was != Finished
      requires alone ==> Judged(world, job, attempt, was)
      requires quietFrom.Some? ==> settling.Some? && settling.value.job == job
      modifies this`world, this`turn, this`log
      ensures Valid() && Extends(old(log), log) && turn >= old(turn)
      ensures forall t :: |old(log).acts| <= t < |log.acts| ==> log.acts[t].Env? || log.acts[t] == Died(job, attempt, was)
      ensures !written ==> OnlyEvents(old(log), log)
      ensures written ==> log.acts != [] && log.acts[|log.acts| - 1] == Died(job, attempt, was)
      ensures !Reads(world, job, was) && (alone ==> !Reads(world, job, Running))
      ensures Names(old(world)) && alone ==> Names(world)
      ensures alone ==> RunnersGoOn(old(world), world) && Judged(world, job, attempt, was)
    {
      hide Good, EventsOf, Happened, Calm, Names, OrderOf, Judged, RunnersGoOn;
      ghost var u, past := world, log;
      var state := ReadState(job);
      ghost var v, mid := world, log;
      if alone {
        CalmRunners(u, v);
        JudgedStays(u, v, job, attempt, was);
      }
      if state.None? {
        return false;
      }
      written := FinishDied(job, attempt, was);
      ExtendsTwice(past, mid, log);
      if alone {
        RunnersTwice(u, v, world);
      }
    }

    method AdoptRunner(job: JobId, state: Job)
      requires Valid() && job !in running && quietFrom.None?
      modifies this`log, this`running, this`order
      ensures Valid() && Extends(old(log), log)
      ensures log.acts == old(log).acts + [Adopt(job, Adopted(state))] && running == old(running)[job := Adopted(state)]
    {
      hide Good, EventsOf, Happened, OrderOf;
      Record(Adopt(job, Adopted(state)));
      Put(job, Adopted(state));
    }

    /** `_settle` of a job that is still claimed: another runner that is alive is
        adopted, and otherwise the job does not read as running any more. */
    method SettleClaim(job: JobId, entry: Entry, state: Job)
      requires Valid() && job !in running && Read(world, job) == Some(state) && state.status == Running
      requires alone ==> Unclaimable(world, job) && entry.pid !in world.live
      requires quietFrom.Some? ==> state.pid !in world.live && settling == Some(Dropped(job, entry))
      modifies this`world, this`turn, this`log, this`running, this`order
      ensures Valid() && Settled(old(log), log, job, entry, Some(state)) && turn >= old(turn)
      ensures running == old(running)
        || (running == old(running)[job := Adopted(state)] && SeenAlive(log.states, |old(log).acts|, state.pid))
      ensures state.pid != entry.pid ==> job in running || SeenDead(log.states, |old(log).acts|, state.pid)
      ensures job in running || !Reads(world, job, Running)
      ensures quietFrom.Some? ==> !Unsettled(world, job, entry)
    {
      hide Good, EventsOf, Happened, Calm, Names, Judged, OrderOf, SeenAlive, SeenDead, Unclaimable, RunnersGoOn, Settled, InOrder;
      ghost var v, past := world, log;
      CalmHere(v);
      if quietFrom.Some? {
        SettlesHere(job, entry);
      }
      var alive := false;
      if state.pid != entry.pid {
        Others();
        alive := state.pid in world.live;
        if quietFrom.Some? {
          QuietIsAlone();
          StillNotLive(v, world, state.pid);
        }
      }
      SettledByEvents(past, log, job, entry, Some(state));
      ghost var mid := log;
      if alive {
        NowAlive(past, log, state.pid);
        AdoptRunner(job, state);
        AliveLater(mid.states, log.states, |past.acts|, state.pid);
      } else {
        if alone {
          JudgedRunning(v, world, job);
        }
        if state.pid != entry.pid {
          NowDead(past, log, state.pid);
        }
        var _ := MarkRunnerDied(job, state.attempt, Running);
        if quietFrom.Some? {
          SettlesHere(job, entry);
          JudgedIsSettled(world, job, state.attempt, Running, entry);
        }
        if state.pid != entry.pid {
          DeadLater(mid.states, log.states, |past.acts|, state.pid);
        }
      }
      SettledThen(past, mid, log, job, entry, Some(state));
    }

    lemma {:induction false} SettlesHere(job: JobId, entry: Entry)
      requires Core() && quietFrom.Some? && settling == Some(Dropped(job, entry))
      ensures alone && world.garbled == {} && CameTo(world, job, entry.attempt)
    {
      hide Lawful, Sound, QuietLog, Whole, OrderOf, InOrder;
      GoodIs(alone, strays, quietFrom, script, log);
      SettlingHere(Now(log), job, entry);
    }

    lemma {:induction false} QuietIsAlone()
      requires Good(alone, strays, quietFrom, script, log) && quietFrom.Some?
      ensures alone
    {
    }

    /** `_settle`: what became of a job whose runner is gone. */
    method Settle(job: JobId, entry: Entry) returns (ghost seen: Option<Job>)
      requires Valid() && job !in running && entry.pid !in world.live && (quietFrom.Some? ==> settling == Some(Dropped(job, entry)))
      modifies this`world, this`turn, this`log, this`running, this`order
      ensures Valid() && Settled(old(log), log, job, entry, seen) && turn >= old(turn)
      ensures running == old(running)
        || (seen.Some? && running == old(running)[job := Adopted(seen.value)]
            && SeenAlive(log.states, |old(log).acts|, seen.value.pid))
      ensures seen.Some? && seen.value.status == Running && seen.value.pid != entry.pid ==>
        job in running || SeenDead(log.states, |old(log).acts|, seen.value.pid)
      ensures seen.Some? && seen.value.status == Queued && seen.value.attempt <= entry.attempt ==> !Reads(world, job, Queued)
      ensures quietFrom.Some? ==> !Unsettled(world, job, entry)
      ensures alone || (seen.Some? && seen.value.status == Running) ==> job in running || !Reads(world, job, Running)
    {
      hide Good, EventsOf, Happened, Calm, Names, Judged, OrderOf, SeenAlive, SeenDead, Unclaimable, RunnersGoOn, Settled, InOrder;
      ghost var u, past := world, log;
      if alone {
        GoodIs(alone, strays, quietFrom, script, log);
        NobodyClaims(Now(log), strays, job);
      }
      var state := ReadState(job);
      seen := state;
      SettledByEvents(past, log, job, entry, seen);
      if quietFrom.Some? {
        SettlesHere(job, entry);
      }
      if state.None? || state.value.status == Finished {
        return;
      }
      ghost var mid := log;
      if alone {
        StillDead(u, world, job, entry.pid);
      }
      if state.value.status == Running {
        GoodIs(alone, strays, quietFrom, script, log);
        if quietFrom.Some? {
          UncountedIsDead(Now(log), job);
        }
        SettleClaim(job, entry, state.value);
        SettledTwice(past, mid, log, job, entry, seen);
        SeenSince(log.states, |past.acts|, |mid.acts|, seen.value.pid);
      } else if state.value.attempt <= entry.attempt {
        if alone {
          JudgedQueued(world, job);
        }
        ghost var v := world;
        var _ := MarkRunnerDied(job, state.value.attempt, Queued);
        if quietFrom.Some? {
          SettlesHere(job, entry);
          JudgedIsSettled(world, job, state.value.attempt, Queued, entry);
        }
        SettledThen(past, mid, log, job, entry, seen);
      }
    }

    /** One turn of `adopt_orphans`. */
    method AdoptOrphan(job: JobId) returns (ghost unread: bool)
      requires Valid() && quietFrom.None?
      modifies this`world, this`turn, this`log, this`running, this`order
      ensures Valid() && NoSpawns(old(log), log)
      ensures running == old(running) || (job in running && running - {job} == old(running))
      ensures turn > old(turn)
      ensures !Reads(Passed(old(world), script(old(turn))), job, Running) ==>
        running == old(running) && turn == old(turn) + 1 && world == Passed(old(world), script(old(turn)))
      ensures unread ==> SeenGarbled(log.states, |old(log).acts|, job) && job in Passed(old(world), script(old(turn))).garbled
      ensures var v, w := Passed(old(world), script(old(turn))), Passing(old(world), script, old(turn), old(turn) + 2);
              job !in old(running) && Reads(v, job, Running) && v.jobs[job].pid in w.live ==>
                running == old(running)[job := Adopted(v.jobs[job])] && turn == old(turn) + 2 && world == w
      ensures job in running || !Reads(world, job, Running)
      ensures alone ==> RunnersGoOn(old(world), world)
      ensures alone && Names(old(world)) ==> Names(world)
      ensures alone && Names(old(world)) && job !in old(running) && !unread ==> Accounted(Snapshot(world, running, settling), job)
    {
      hide Good, EventsOf, Happened, Calm, Names, Judged, OrderOf, SeenGarbled, Unclaimable, RunnersGoOn, Accounted, Passed;
      ghost var past, u := log, world;
      var state := ReadState(job);
      ghost var v := world;
      if alone {
        CalmRunners(u, v);
      }
      unread := job in world.garbled;
      if unread {
        NowGarbled(past, log, job);
      }
      if state.None? || state.value.status != Running || job in running {
        if alone && Names(v) && !unread && job !in running {
          GoodIs(alone, strays, quietFrom, script, log);
          NotHeld(Now(log), strays, job);
        }
        return;
      }
      if alone {
        GoodIs(alone, strays, quietFrom, script, log);
        NobodyClaims(Now(log), strays, job);
      }
      ghost var mid := log;
      Others();
      NoSpawnsTwice(past, mid, log);
      ghost var w := world;
      PassingTwo(u, script, old(turn));
      if alone {
        CalmRunners(v, w);
        RunnersTwice(u, v, w);
      }
      if state.value.pid in world.live {
        mid := log;
        AdoptRunner(job, state.value);
        NoSpawnsTwice(past, mid, log);
        if alone && Names(v) {
          AdoptedIsCounted(Snapshot(v, old(running), settling), Snapshot(w, running, settling), job);
        }
      } else {
        if alone {
          JudgedRunning(v, w, job);
        }
        mid := log;
        var _ := MarkRunnerDied(job, state.value.attempt, Running);
        NoSpawnsTwice(past, mid, log);
        if alone {
          RunnersTwice(u, w, world);
          if Names(v) {
            HolderIsDead(v, w, Snapshot(world, running, settling), job);
          }
        }
      }
    }

    /** How far the startup scan that began at `past` has come: with `rest`
        still to look at, and on a fresh start, only runners of those or of the
        unreadable jobs may be uncounted. */
    ghost predicate Looking(past: Log, u: World, rest: set<JobId>, unread: set<JobId>, startup: bool)
      reads this
    {
      && Valid() && quietFrom.None? && NoSpawns(past, log)
      && (forall j :: j in unread ==> SeenGarbled(log.states, |past.acts|, j))
      && (alone ==> RunnersGoOn(u, world))
      && (startup ==> alone && Names(world) && rest !! running.Keys && Unfound(Snapshot(world, running, settling), rest + unread))
    }

    /** A scan that began at `first` and has found nobody running has left
        everything alone. */
    ghost predicate LeftAlone(u: World, were: map<JobId, Entry>, first: nat)
      reads this
    {
      first < turn && (FindsNobody(u, script, first, turn) ==> running == were && world == Passing(u, script, first, turn))
    }

    method AdoptNext(job: JobId, ghost past: Log, ghost u: World, ghost rest: set<JobId>, ghost unread: set<JobId>, ghost startup: bool, ghost were: map<JobId, Entry>, ghost first: nat)
      returns (ghost failed: bool)
      requires Looking(past, u, rest + {job}, unread, startup) && job !in rest && LeftAlone(u, were, first)
      modifies this`world, this`turn, this`log, this`running, this`order
      ensures Looking(past, u, rest, unread + (if failed then {job} else {}), startup) && LeftAlone(u, were, first) && turn > old(turn)
    {
      hide Good, EventsOf, Happened, Calm, Names, OrderOf, SeenGarbled, RunnersGoOn, Accounted, Unfound;
      ghost var mid, s := log, Snapshot(world, running, settling);
      failed := AdoptOrphan(job);
      if FindsNobody(u, script, first, turn) {
        assert NobodyRuns(Passing(u, script, first, old(turn) + 1));
        assert Passing(u, script, first, old(turn) + 1) == Passed(old(world), script(old(turn)));
      }
      NoSpawnsTwice(past, mid, log);
      forall j | j in unread
        ensures SeenGarbled(log.states, |past.acts|, j)
      {
        GarbledLater(mid.states, log.states, |past.acts|, j);
      }
      if failed {
        GarbledSince(log.states, |past.acts|, |mid.acts|, job);
      }
      if alone {
        RunnersTwice(u, s.world, world);
      }
      if startup {
        assert rest + {job} + unread == (rest + unread) + {job};
        FindsOne(s, Snapshot(world, running, settling), rest + unread, job, failed);
        assert (rest + unread) + (if failed then {job} else {}) == rest + (unread + if failed then {job} else {});
      }
    }

    method LookForOrphans(ghost startup: bool) returns (ghost unread: set<JobId>)
      requires Valid() && quietFrom.None? && (startup ==> alone && running == map[] && Names(world))
      modifies this`world, this`turn, this`log, this`running, this`order
      ensures Looking(old(log), old(world), {}, unread, startup) && LeftAlone(old(world), old(running), old(turn))
      ensures turn >= ReadAllBy(old(world), script, old(turn))
    {
      hide Good, EventsOf, Happened, Calm, Names, OrderOf, SeenGarbled, RunnersGoOn, Unfound;
      ghost var past, u := log, world;
      Others();
      if alone {
        CalmRunners(u, world);
      }
      unread := {};
      var rest := world.jobs.Keys;
      if startup {
        GoodIs(alone, strays, quietFrom, script, log);
        AllToBeFound(Now(log), strays, rest, unread);
      }
      assert Looking(past, u, rest, unread, startup);
      ghost var were, first := running, old(turn);
      assert Passing(u, script, first, first) == u;
      assert LeftAlone(u, were, first);
      hide Looking, Valid, LeftAlone;
      ghost var jobs := rest;
      while |rest| > 0
        invariant Looking(past, u, rest, unread, startup) && LeftAlone(u, were, first)
        invariant turn + |rest| >= first + 1 + |jobs|
        decreases |rest|
      {
        var job := OneOf(rest);
        assert rest == (rest - {job}) + {job};
        rest := rest - {job};
        ghost var failed := AdoptNext(job, past, u, rest, unread, startup, were, first);
        unread := unread + if failed then {job} else {};
      }
      assert rest == {};
    }

    /** `adopt_orphans`: on a machine of its own whose claimed runners share
        nothing, the runners it does not find are those that wrote their last
        state, or whose state was unreadable, while it looked. */
    method AdoptOrphans() returns (ghost unread: set<JobId>)
      requires Valid() && quietFrom.None?
      modifies this`world, this`turn, this`log, this`running, this`order, this`strays
      ensures Valid() && NoSpawns(old(log), log)
      ensures forall j :: j in unread ==> SeenGarbled(log.states, |old(log).acts|, j)
      ensures alone && old(running) == map[] && Names(old(world)) && NoneShared(Snapshot(old(world), old(running), None), {}) ==>
        && strays == Uncounted(Snapshot(world, running, settling))
        && forall p :: p in strays ==> world.live[p].phase == Ended || world.live[p].job in unread
      ensures turn >= ReadAllBy(old(world), script, old(turn))
      ensures FindsNobody(old(world), script, old(turn), turn) ==>
        running == old(running) && world == Passing(old(world), script, old(turn), turn)
    {
      hide Good, EventsOf, Happened, Calm, Names, OrderOf, SeenGarbled, RunnersGoOn, NoneShared, Unfound;
      ghost var u := world;
      ghost var startup := alone && running == map[] && Names(world) && NoneShared(Snapshot(world, running, None), {});
      unread := LookForOrphans(startup);
      if startup {
        GoodIs(alone, strays, quietFrom, script, log);
        NewStrays(u, Now(log), strays, Uncounted(Now(log)));
        NewGood(alone, strays, Uncounted(Now(log)), script, log);
        StraysUnfound(Now(log), unread);
        strays := Uncounted(Snapshot(world, running, settling));
      }
    }

    method SettleDropped(job: JobId, entry: Entry)
      requires Valid() && job !in running && entry.pid !in world.live && settling == Some(Dropped(job, entry))
      modifies this`world, this`turn, this`log, this`running, this`order, this`settling
      ensures Valid() && settling.None? && OnlySettles(old(log), log) && turn >= old(turn)
      ensures running - {job} == old(running)
      ensures job in running ==> SeenAlive(log.states, |old(log).acts|, running[job].pid)
    {
      hide Good, EventsOf, Happened, OrderOf, SeenAlive, Settled, InOrder, Whole, Sound, Lawful, QuietLog;
      ghost var past := log;
      ghost var seen := Settle(job, entry);
      SettledExtends(past, log, job, entry, seen);
      GoodIs(alone, strays, quietFrom, script, log);
      if quietFrom.Some? {
        MayMoveOn(Now(log), job, entry);
      }
      hide QuietAct;
      ghost var mid := log;
      Record(MoveOn);
      settling := None;
      if job in running {
        AliveLater(mid.states, log.states, |past.acts|, running[job].pid);
      }
    }

    method ReapOne(job: JobId)
      requires Valid() && job in running && settling.None?
      modifies this`world, this`turn, this`log, this`running, this`order, this`settling
      ensures Valid() && settling.None? && OnlyReaps(old(log), log) && turn >= old(turn)
      ensures running - {job} == old(running) - {job}
      ensures job in running ==> SeenAlive(log.states, |old(log).acts|, running[job].pid)
    {
      hide Good, EventsOf, Happened, Calm, Names, OrderOf, SeenAlive, InOrder;
      ghost var past := log;
      var entry := running[job];
      Others();
      if entry.pid in world.live {
        NowAlive(past, log, entry.pid);
        return;
      }
      ghost var before := log;
      Record(Drop(job));
      settling := Some(Dropped(job, entry));
      Pop(job);
      ghost var mid := log;
      SettleDropped(job, entry);
      DropsThenSettles(past, before, mid, log, job);
      if job in running {
        AliveSince(log.states, |past.acts|, |mid.acts|, running[job].pid);
      }
    }

    /** `reap`: every entry left over was found alive. */
    method Reap()
      requires Valid() && settling.None?
      modifies this`world, this`turn, this`log, this`running, this`order, this`settling
      ensures Valid() && settling.None? && OnlyReaps(old(log), log) && turn >= old(turn)
      ensures forall j :: j in running ==> SeenAlive(log.states, |old(log).acts|, running[j].pid)
      ensures old(running) == map[] ==> log == old(log)
    {
      hide Good, EventsOf, Happened, SeenAlive, InOrder;
      var items := order;
      NothingInOrder(order, running);
      ghost var past := log;
      for i := 0 to |items|
        invariant Valid() && settling.None? && OnlyReaps(past, log) && turn >= old(turn)
        invariant forall k :: i <= k < |items| ==> items[k] in running
        invariant i == 0 ==> log == past
        invariant forall j :: j in running ==> j in items[i..] || SeenAlive(log.states, |past.acts|, running[j].pid)
      {
        ghost var mid, were := log, running;
        ReapOne(items[i]);
        ReapsTwice(past, mid, log);
        forall j | j in running
          ensures j in items[i + 1..] || SeenAlive(log.states, |past.acts|, running[j].pid)
        {
          if j == items[i] {
            AliveSince(log.states, |past.acts|, |mid.acts|, running[j].pid);
          } else {
            assert j in running - {items[i]} && (running - {items[i]})[j] == running[j];
            assert j in were && were[j] == running[j];
            if j !in items[i..] {
              AliveLater(mid.states, log.states, |past.acts|, running[j].pid);
            }
          }
        }
        forall k | i + 1 <= k < |items|
          ensures items[k] in running
        {
          assert items[k] in were - {items[i]};
        }
      }
    }

    // The cards of a pass.

    ghost predicate Scanning(past: Log, cards: set<Uuid>, rest: set<JobId>)
      reads this
    {
      Valid() && OnlyEvents(past, log) && ScanIs(log.states, |past.acts|, |log.acts|, cards, rest)
    }

    method ReadClaim(job: JobId, ghost past: Log, ghost cards: set<Uuid>, ghost rest: set<JobId>) returns (more: set<Uuid>)
      requires Scanning(past, cards, rest + {job})
      modifies this`world, this`turn, this`log
      ensures Scanning(past, cards + more, rest)
      ensures turn == old(turn) + 1 && world == Passed(old(world), script(old(turn)))
    {
      hide Good, EventsOf, Happened, Calm, Names, OrderOf, ScanIs, InOrder;
      ghost var mid := log;
      var state := ReadState(job);
      more := {};
      if state.Some? && state.value.status == Running {
        more := set c | c in state.value.gpus;
      }
      ExtendsTwice(past, mid, log);
      ScanGoesOn(mid, log, |past.acts|, cards, more, job, rest);
    }

    /** `_claimed_gpus`: the cards every `running` state names, read one state
        after the other. Read once and kept until it is forgotten: then it has
        every card of a claim that stood all the while, and none that no claim
        named at some moment. */
    method ClaimedGpus() returns (cards: set<Uuid>)
      requires Valid()
      modifies this`world, this`turn, this`log, this`claimed
      ensures Valid() && OnlyEvents(old(log), log) && claimed == Some(cards) && turn >= old(turn)
      ensures old(claimed).Some? ==> claimed == old(claimed)
      ensures old(claimed).None? ==> ScanIs(log.states, |old(log).acts|, |log.acts|, cards, {})
      ensures old(claimed).None? ==> turn == ReadAllBy(old(world), script, old(turn)) && world == Passing(old(world), script, old(turn), turn)
    {
      if claimed.Some? {
        return claimed.value;
      }
      hide Good, EventsOf, Happened, OrderOf, InOrder;
      cards := ReadClaims();
      claimed := Some(cards);
    }

    method ReadClaims() returns (cards: set<Uuid>)
      requires Valid()
      modifies this`world, this`turn, this`log
      ensures Scanning(old(log), cards, {})
      ensures turn == ReadAllBy(old(world), script, old(turn)) && world == Passing(old(world), script, old(turn), turn)
    {
      hide Good, EventsOf, Happened, Calm, Names, OrderOf, ScanIs, InOrder;
      cards := {};
      ghost var past := log;
      Others();
      var rest := world.jobs.Keys;
      ScanBegins(past, log, cards, rest);
      assert Scanning(past, cards, rest);
      ghost var first, jobs := old(turn), rest;
      assert Passing(old(world), script, first, first) == old(world);
      hide Scanning, Valid, OnlyEvents;
      while |rest| > 0
        invariant Scanning(past, cards, rest) && first < turn && turn + |rest| == first + 1 + |jobs|
        invariant world == Passing(old(world), script, first, turn)
        decreases |rest|
      {
        var job := OneOf(rest);
        assert rest == (rest - {job}) + {job};
        rest := rest - {job};
        var more := ReadClaim(job, past, cards, rest);
        cards := cards + more;
      }
      assert rest == {};
    }

    /** `_busy_gpus` */
    method BusyGpus() returns (busy: set<Uuid>)
      requires Valid() && Known()
      modifies this`world, this`turn, this`log, this`claimed
      ensures Valid() && Known() && OnlyEvents(old(log), log) && claimed.Some? && turn >= old(turn)
      ensures busy == CardsOf(running) + claimed.value
    {
      hide Good, EventsOf, Happened, OrderOf, InOrder, ScanIs, QueueIs, CardsOf;
      ghost var past := log;
      var cards := ClaimedGpus();
      KnowsLater(past, log, began, old(claimed), queued);
      if old(claimed).None? {
        ScanLater(log, log, began, |past.acts|, cards);
      }
      busy := CardsOf(running) + cards;
    }

    /** `_fail_queued`: end a queued job without a runner; the listing forgets it. */
    method FailQueued(job: JobId) returns (ended: bool)
      requires Valid() && Known()
      modifies this`world, this`turn, this`log, this`queued
      ensures Valid() && Known() && OnlyDismisses(old(log), log, job) && turn > old(turn)
      ensures !Reads(world, job, Queued)
      ensures !ended ==> OnlyEvents(old(log), log) && queued == old(queued)
      ensures ended ==> log.acts != [] && log.acts[|log.acts| - 1] == Dismiss(job)
      ensures ended ==> queued == if old(queued).Some? then Some(Leaving(old(queued).value, job)) else None
    {
      hide Good, EventsOf, Happened, Calm, Names, OrderOf, InOrder, ScanIs, QueueIs, Finishing;
      ghost var past := log;
      Others();
      KnowsLater(past, log, began, claimed, queued);
      ended := Reads(world, job, Queued);
      if ended {
        ghost var mid := log;
        DismissNow(job);
      }
    }

    method DismissNow(job: JobId)
      requires Valid() && Known() && Reads(world, job, Queued)
      modifies this`world, this`log, this`queued
      ensures Valid() && Known() && OnlyDismisses(old(log), log, job) && !Reads(world, job, Queued)
      ensures log.acts == old(log).acts + [Dismiss(job)]
      ensures queued == if old(queued).Some? then Some(Leaving(old(queued).value, job)) else None
    {
      hide Good, EventsOf, Happened, OrderOf, InOrder, ScanIs, QueueIs, Finishing;
      ghost var past := log;
      Record(Dismiss(job));
      FinishedReads(world, job, Queued);
      world := Finishing(world, job, Queued);
      KnowsLater(past, log, began, claimed, queued);
      if queued.Some? {
        QueueForgets(log, began, queued.value, job);
        LeavingInOrder(queued.value, job);
        queued := Some(Leaving(queued.value, job));
      }
    }

    /** `_launch`: the claims are read again, and a runner is started only if
        none of the cards is in them. */
    method Launch(job: JobId, gpus: seq<Uuid>, attempt: nat) returns (block: Option<Block>)
      requires Valid() && Known() && Clear(running, job, gpus) && NoDup(gpus) && settling.None? && CameTo(world, job, attempt)
      modifies this`world, this`turn, this`log, this`claimed, this`running, this`order, this`queued
      ensures Valid() && Known() && OnlyLaunches(old(log), log)
      ensures block.None? ==>
        job in running && running - {job} == old(running) && running[job].gpus == gpus && running[job].attempt == attempt
      ensures block.Some? ==> running == old(running)
      ensures block.Some? && block.value.ClaimedSince? ==>
        block.value.card in gpus && SeenClaimed(log.states, |old(log).acts|, |log.acts|, block.value.card)
      ensures block == Some(SpawnFailed) ==> exists n :: old(turn) <= n < turn && spawnFails(n)
      ensures turn >= old(turn) && FailsOne(old(log), log, job, block == Some(SpawnFailed))
      ensures block == Some(SpawnFailed) ==> !Reads(world, job, Queued)
      ensures block.Some? && block.value.ClaimedSince? ==> turn == ReadAllBy(old(world), script, old(turn))
      ensures block.None? ==> turn == ReadAllBy(old(world), script, old(turn)) + 1
      ensures block.None? ==> Launched(log, job, gpus, attempt, Passing(old(world), script, old(turn), turn))
    {
      hide Good, EventsOf, Happened, Calm, Names, OrderOf, ScanIs, QueueIs, Within, Standing, SeenClaimed, NoDup, Clear, InOrder, Rechecked, Launched, Passed;
      ghost var past := log;
      var cards;
      ghost var start, mid;
      cards, start, mid := ReadAgain();
      var taken := Within(gpus, cards);
      if taken != [] {
        assert taken[0] in taken;
        ScanSees(log.states, |start.acts|, |past.acts|, |log.acts|, cards, taken[0]);
        return Some(ClaimedSince(taken[0]));
      }
      NoneTaken(gpus, cards);
      GoodIs(alone, strays, quietFrom, script, log);
      CameToLater(alone, log, |past.acts|, job, attempt);
      hide Lawful, Sound, QuietLog, Whole;
      var ok := TrySpawn(job, gpus, attempt, past, start, cards);
      LaunchesTwice(past, mid, log);
      block := if ok then None else Some(SpawnFailed);
    }

    /** With none of the cards claimed: the spawn, or failing the job if it fails. */
    method TrySpawn(job: JobId, gpus: seq<Uuid>, attempt: nat, ghost past: Log, ghost start: Log, ghost cards: set<Uuid>) returns (ok: bool)
      requires Valid() && Known() && Clear(running, job, gpus) && NoDup(gpus) && settling.None? && CameTo(world, job, attempt)
      requires Kept(past) && Kept(start) && start.acts == past.acts + [Recheck] && OnlyEvents(start, log)
      requires ScanIs(log.states, |start.acts|, |log.acts|, cards, {}) && forall c :: c in gpus ==> c !in cards
      modifies this`world, this`turn, this`log, this`running, this`order, this`queued
      ensures Valid() && Known() && OnlyLaunches(old(log), log) && turn > old(turn)
      ensures ok ==> job in running && running - {job} == old(running) && running[job].gpus == gpus && running[job].attempt == attempt
      ensures ok ==> turn == old(turn) + 1 && Launched(log, job, gpus, attempt, Passed(old(world), script(old(turn))))
      ensures FailsOne(old(log), log, job, !ok) && (!ok ==> !Reads(world, job, Queued))
      ensures !ok ==> running == old(running) && exists n :: old(turn) <= n < turn && spawnFails(n)
    {
      hide Good, EventsOf, Happened, Calm, Names, OrderOf, ScanIs, QueueIs, Standing, NoDup, Clear, InOrder, Rechecked, Launched, Passed;
      ghost var mid := log;
      Others();
      ExtendsTwice(start, mid, log);
      KnowsLater(mid, log, began, claimed, queued);
      ghost var ready := log;
      if spawnFails(turn) {
        var _ := FailQueued(job);
        LaunchesTwice(mid, ready, log);
        return false;
      }
      RecheckHolds(past, start, mid, log, cards, job, gpus, attempt);
      GoodIs(alone, strays, quietFrom, script, log);
      CameToLater(alone, log, |mid.acts|, job, attempt);
      hide Lawful, Sound, QuietLog, Whole;
      StartRunner(job, gpus, attempt, |past.acts|);
      LaunchesTwice(mid, ready, log);
      ok := true;
    }

    /** The claims, forgotten and read again. */
    method ReadAgain() returns (cards: set<Uuid>, ghost start: Log, ghost mid: Log)
      requires Valid() && Known()
      modifies this`world, this`turn, this`log, this`claimed
      ensures Valid() && Known() && mid == log && OnlyLaunches(old(log), log) && OnlyEvents(start, log) && turn >= old(turn)
      ensures claimed == Some(cards)
      ensures start.acts == old(log).acts + [Recheck] && |start.states| == |start.acts| + 1
      ensures FailsOne(old(log), log, 0, false)
      ensures ScanIs(log.states, |start.acts|, |log.acts|, cards, {})
      ensures turn == ReadAllBy(old(world), script, old(turn)) && world == Passing(old(world), script, old(turn), turn)
    {
      hide Good, EventsOf, Happened, OrderOf, ScanIs, QueueIs, InOrder;
      ghost var past := log;
      claimed := None;
      Record(Recheck);
      start := log;
      cards := ClaimedGpus();
      mid := log;
      LaunchesTwice(past, start, log);
      KnowsLater(past, log, began, None, queued);
      ScanLater(log, log, began, |start.acts|, cards);
    }

    method StartRunner(job: JobId, gpus: seq<Uuid>, attempt: nat, ghost since: nat)
      requires Valid() && Known() && Clear(running, job, gpus) && NoDup(gpus) && settling.None? && CameTo(world, job, attempt)
      requires Rechecked(log.states, log.acts + [Spawn(job, gpus, attempt, since)], |log.acts|)
      modifies this`world, this`log, this`running, this`order
      ensures Valid() && Known() && OnlyLaunches(old(log), log)
      ensures job in running && running - {job} == old(running) && running[job].gpus == gpus && running[job].attempt == attempt
      ensures Launched(log, job, gpus, attempt, old(world)) && FailsOne(old(log), log, job, false)
    {
      hide Good, EventsOf, Happened, OrderOf, NoDup, Apart, InOrder, Rechecked, ScanIs, QueueIs;
      ghost var past := log;
      Record(Spawn(job, gpus, attempt, since));
      var entry := Entry(gpus, attempt, world.next);
      world := Spawning(world, job, gpus, attempt);
      Put(job, entry);
      KnowsLater(past, log, began, claimed, queued);
    }

    // The queue of a pass.

    ghost predicate Listing(past: Log, q: seq<QueueEntry>, rest: set<JobId>)
      reads this
    {
      Valid() && OnlyEvents(past, log) && QueueIs(log.states, |past.acts|, |log.acts|, q, rest)
    }

    method ListOne(job: JobId, ghost past: Log, q: seq<QueueEntry>, ghost rest: set<JobId>) returns (more: seq<QueueEntry>)
      requires Listing(past, q, rest + {job}) && job !in rest
      modifies this`world, this`turn, this`log
      ensures Listing(past, more, rest) && turn >= old(turn)
    {
      hide Good, EventsOf, Happened, Calm, Names, OrderOf, InOrder, QueueIs, Inserted;
      ghost var mid := log;
      var state := ReadState(job);
      more := q;
      if state.Some? && state.value.status == Queued {
        more := Inserted(q, QueueEntry(state.value.priority, job, state.value.attempt));
      }
      ExtendsTwice(past, mid, log);
      QueueGoesOn(mid, log, |past.acts|, q, more, job, rest);
    }

    /** `queue.list_queued`, once a pass: in dispatch order, every job that was
        queued all the while, and none that was not at some moment. */
    method ListQueued() returns (q: seq<QueueEntry>)
      requires Valid()
      modifies this`world, this`turn, this`log, this`queued
      ensures Valid() && OnlyEvents(old(log), log) && queued == Some(q) && InOrder(q) && turn >= old(turn)
      ensures forall i, j :: 0 <= i < j < |q| ==>
        q[i].priority < q[j].priority || (q[i].priority == q[j].priority && q[i].jobId < q[j].jobId)
      ensures old(queued).Some? ==> queued == old(queued)
      ensures old(queued).None? ==> QueueIs(log.states, |old(log).acts|, |log.acts|, q, {})
    {
      if queued.Some? {
        return queued.value;
      }
      hide Good, EventsOf, Happened, OrderOf, InOrder;
      ghost var past := log;
      q := ReadQueue();
      QueueInOrder(log.states, |past.acts|, |log.acts|, q, {});
      queued := Some(q);
    }

    method ReadQueue() returns (q: seq<QueueEntry>)
      requires Valid()
      modifies this`world, this`turn, this`log
      ensures Listing(old(log), q, {}) && turn >= old(turn)
    {
      hide Good, EventsOf, Happened, Calm, Names, OrderOf, InOrder, QueueIs;
      q := [];
      ghost var past := log;
      Others();
      var rest := world.jobs.Keys;
      QueueBegins(past, log, rest);
      assert Listing(past, q, rest);
      hide Listing, Valid, OnlyEvents;
      while |rest| > 0
        invariant Listing(past, q, rest) && turn >= old(turn)
        decreases |rest|
      {
        var job := OneOf(rest);
        assert rest == (rest - {job}) + {job};
        rest := rest - {job};
        q := ListOne(job, past, q, rest);
      }
      assert rest == {};
    }

    /** One turn of `_requests`: a job whose spec cannot be read is failed here. */
    method RequestFor(entry: QueueEntry) returns (request: Option<Request>)
      requires Valid() && Known() && entry.jobId in world.jobs
      modifies this`world, this`turn, this`log, this`queued
      ensures Valid() && Known() && Plain(old(log), log) && turn >= old(turn)
      ensures request.Some? <==> entry.jobId !in running && SpecOf(world, entry.jobId).Some?
      ensures request.Some? ==> Makes(entry, request.value, world)
      ensures entry.jobId !in running && SpecOf(world, entry.jobId).None? ==> !Reads(world, entry.jobId, Queued)
      ensures queued.Some? <==> old(queued).Some?
    {
      hide Good, EventsOf, Happened, Calm, Names, OrderOf, InOrder, ScanIs, QueueIs;
      if entry.jobId in running {
        return None;
      }
      ghost var past := log;
      Others();
      PlainEvents(past, log);
      KnowsLater(past, log, began, claimed, queued);
      var spec := SpecOf(world, entry.jobId);
      if spec.None? {
        ghost var mid := log;
        GrewTo(past);
        var _ := FailQueued(entry.jobId);
        GrewTo(mid);
        FailedPlainly(mid, entry.jobId);
        PlainTwice(past, mid, log);
        return None;
      }
      request := Some(RequestOf(entry, spec.value));
    }

    lemma {:induction false} FailedPlainly(past: Log, job: JobId)
      requires Valid() && Kept(past) && OnlyDismisses(past, log, job)
      requires job in Now(past).world.jobs && SpecOf(Now(past).world, job).None?
      ensures Plain(past, log)
    {
      hide Lawful, Sound, QuietLog, Whole, EventsOf, Happened;
      GoodIs(alone, strays, quietFrom, script, log);
      DismissesPlainly(alone, past, log, job);
    }

    /** Jobs and their specs stay. */
    lemma {:induction false} GrewTo(past: Log)
      requires Valid() && Kept(past) && Extends(past, log)
      ensures Grows(Now(past).world, world)
    {
      hide Lawful, Sound, QuietLog, Whole, EventsOf, Happened;
      GoodIs(alone, strays, quietFrom, script, log);
      LogGrows(alone, log, |past.acts|, |log.acts|);
    }

    /** `_requests`: the queue as the rule sees it. */
    method Requests() returns (rs: seq<Request>, attempts: map<JobId, nat>)
      requires Valid() && Known()
      modifies this`world, this`turn, this`log, this`queued
      ensures Valid() && Known() && Plain(old(log), log) && queued.Some? && turn >= old(turn)
      ensures RequestsAre(rs, attempts, running, log, began)
    {
      hide Good, EventsOf, Happened, OrderOf, ScanIs, QueueIs, RequestsOf, InOrder, RequestsAre, Grows, SpeclessFailed;
      ghost var past := log;
      var q := ListQueued();
      PlainEvents(past, log);
      KnowsLater(past, log, began, claimed, old(queued));
      if old(queued).None? {
        QueueLater(log, log, began, |past.acts|, q);
      }
      GoodIs(alone, strays, quietFrom, script, log);
      QueuedAreThere(alone, log, began, q);
      hide Lawful, Sound, QuietLog, Whole;
      ghost var listed := log;
      rs, attempts := [], map[];
      NoRequestsYet(running, world, q);
      NobodyFailed(q, running, log, began);
      for i := 0 to |q|
        invariant Valid() && Known() && Plain(past, log) && Extends(listed, log) && queued.Some? && turn >= old(turn)
        invariant RequestsOf(rs, attempts, running, world, q, i) && SpeclessFailed(q, i, running, log, began)
      {
        QueuedIsThere(rs, attempts, running, world, q, i);
        ghost var mid := log;
        var request := RequestFor(q[i]);
        PlainTwice(past, mid, log);
        ExtendsTwice(listed, mid, log);
        GrewTo(mid);
        RequestsGrow(rs, attempts, running, Now(mid).world, world, q, i);
        SpeclessNext(q, i, running, mid, log, began);
        RequestsNext(rs, attempts, running, world, q, i, request);
        if request.Some? {
          rs := rs + [request.value];
          attempts := attempts[q[i].jobId := q[i].attempt];
        }
      }
      RequestsDone(rs, attempts, running, listed, log, began, q);
    }

    // One walk of the rule.

    /** The cards on their way back: those of entries whose attempt is over bar
        the runner exiting. */
    method Coming(visible: set<Uuid>) returns (coming: seq<Uuid>, ghost leavers: seq<JobId>)
      requires Valid()
      modifies this`world, this`turn, this`log
      ensures Valid() && OnlyEvents(old(log), log) && turn >= old(turn)
      ensures LeaversAre(coming, leavers, running, visible, log, |old(log).acts|)
    {
      hide Good, EventsOf, Happened, InOrder, LeaversTo, LeaversAre, IsLeaving, Within, NoDup;
      ghost var past := log;
      coming, leavers := [], [];
      NobodyLeaves(order, running, visible, log, |past.acts|);
      for i := 0 to |order|
        invariant Valid() && OnlyEvents(past, log) && turn >= old(turn)
        invariant LeaversTo(coming, leavers, order, i, running, visible, log, |past.acts|)
      {
        ghost var mid := log;
        assert order[i] in Elems(order);
        var entry := running[order[i]];
        var state := ReadState(order[i]);
        ExtendsTwice(past, mid, log);
        LeaversNext(coming, leavers, order, i, running, visible, mid, log, |past.acts|);
        if IsLeaving(state, entry) {
          coming, leavers := coming + Within(entry.gpus, visible), leavers + [order[i]];
        }
      }
      LeaversDone(coming, leavers, order, running, visible, log, |past.acts|);
    }

    /** `auto_preemptable`: the running jobs that may be stopped for better work. */
    method AutoPreemptable(p: Readings) returns (found: seq<Preemptable>)
      requires Valid()
      modifies this`world, this`turn, this`log
      ensures Valid() && OnlyEvents(old(log), log) && turn >= old(turn)
      ensures CandidatesAre(found, running, p, log, |old(log).acts|)
    {
      hide Good, EventsOf, Happened, InOrder, CandidatesTo, CandidatesAre, Within, NoDup;
      ghost var past := log;
      found := [];
      NobodyFound(order, running, p, log, |past.acts|);
      for i := 0 to |order|
        invariant Valid() && OnlyEvents(past, log) && turn >= old(turn)
        invariant CandidatesTo(found, order, i, running, p, log, |past.acts|)
      {
        ghost var mid := log;
        assert order[i] in Elems(order);
        var job, cards := order[i], running[order[i]].gpus;
        var state := ReadState(job);
        ExtendsTwice(past, mid, log);
        CandidatesNext(found, order, i, running, p, mid, log, |past.acts|);
        if Stoppable(world, job) {
          found := found + [Candidate(job, state.value, cards, p)];
        }
      }
      CandidatesDone(found, order, running, p, log, |past.acts|);
    }

    /** `_pool`: every owned card in no entry and no claim, the shared cards on
        offer, the cards on their way back and the jobs that may be stopped. */
    method MakePool(p: Readings) returns (pool: Pool, ghost leavers: seq<JobId>, ghost left: Log)
      requires Valid() && Known() && Resolved(p) && ReadingOf(p, borrowable)
      modifies this`world, this`turn, this`log, this`claimed
      ensures Valid() && Known() && OnlyEvents(old(log), log) && fresh(pool) && pool.samples == 0 && claimed.Some? && turn >= old(turn)
      ensures HostFor(pool.host, p, running, log, |old(log).acts|, leavers, left)
      ensures Offers(pool.At(map[], {}, false), pool.sample, p, running)
      ensures Eager(pool.At(map[], {}, false), pool.sample) == StateFor(p, borrowable, CardsOf(running) + claimed.value)
      ensures pool.sample == Some(Offered(p, borrowable, CardsOf(running) + claimed.value))
    {
      hide Good, EventsOf, Happened, InOrder, OrderOf, LeaversAre, CandidatesAre, ScanIs, QueueIs, Offers, Offered, CardsOf, Within, NoDup;
      ghost var past := log;
      var busy := BusyGpus();
      ghost var known := log;
      var coming;
      coming, leavers := Coming(Elems(p.owned) + Elems(p.shared));
      left := log;
      ExtendsTwice(past, known, left);
      var found := AutoPreemptable(p);
      ExtendsTwice(past, left, log);
      ExtendsTwice(known, left, log);
      LeaversLater(coming, leavers, running, Elems(p.owned) + Elems(p.shared), left, left, |past.acts|, |known.acts|);
      KnowsLater(known, log, began, claimed, queued);
      var host := Host(|p.owned|, |p.shared|, p.ownedAbsent, p.sharedAbsent, Elems(p.shared), coming, found);
      OfferIsFree(p, borrowable, running, busy);
      pool := new Pool(host, Some(Offered(p, borrowable, busy)), Without(p.owned, busy), None, 0);
    }

    /** `plan` over the pool: the decisions of the rule; and the one reading of
        the shared cards, if it was taken, is kept for the pass. */
    method Decided(pool: Pool, rs: seq<Request>, p: Readings) returns (ds: seq<Decision>)
      requires Offers(pool.At(map[], {}, false), pool.sample, p, running) && ReadingOf(p, borrowable) && pool.samples == 0
      modifies pool, this`borrowable
      ensures ReadingOf(p, borrowable)
      ensures ds == Decisions(pool.host, Eager(old(pool.At(map[], {}, false)), pool.sample), rs)
      ensures old(borrowable).Some? ==> borrowable == old(borrowable)
      ensures old(borrowable).None? ==> borrowable == if pool.samples > 0 then pool.sample else None
    {
      hide LazyDecide, LazyAfter, Decide, After, Without;
      ghost var start := pool.At(map[], {}, false);
      ds := pool.Plan(rs);
      forall k | 0 <= k < |rs|
        ensures ds[k] == DecisionAt(pool.host, Eager(start, pool.sample), rs, k)
      {
        LazyIsEager(pool.host, pool.sample, start, rs, k);
      }
      if borrowable.None? && pool.samples > 0 {
        borrowable := pool.sample;
      }
    }

    // A pass.

    method ActOn(d: Decision, attempt: nat, patient: bool) returns (block: Option<Block>)
      requires Valid() && Known() && settling.None?
      requires d.Assigned? ==> Clear(running, d.jobId, d.gpus) && NoDup(d.gpus) && CameTo(world, d.jobId, attempt)
      modifies this`world, this`turn, this`log, this`claimed, this`running, this`order, this`queued
      ensures Valid() && Known() && OnlyLaunches(old(log), log) && turn >= old(turn)
      ensures d.Assigned? && block.None? ==>
        d.jobId in running && running - {d.jobId} == old(running) && running[d.jobId].gpus == d.gpus && running[d.jobId].attempt == attempt
      ensures !d.Assigned? || block.Some? ==> running == old(running)
      ensures block.Some? ==> d.Assigned?
      ensures block.Some? && block.value.ClaimedSince? ==>
        block.value.card in d.gpus && SeenClaimed(log.states, |old(log).acts|, |log.acts|, block.value.card)
      ensures block == Some(SpawnFailed) ==> exists n :: old(turn) <= n < turn && spawnFails(n)
      ensures var gone := (d.Fails? && !patient) || block == Some(SpawnFailed);
              FailsOne(old(log), log, d.jobId, gone) && (gone ==> !Reads(world, d.jobId, Queued))
    {
      hide Good, EventsOf, Happened, OrderOf, InOrder, Knows, Clear, NoDup, SeenClaimed;
      block := None;
      if d.Fails? {
        if !patient {
          var _ := FailQueued(d.jobId);
        }
      } else if d.Assigned? {
        block := Launch(d.jobId, d.gpus, attempt);
      }
    }

    /** Every spawn given up was one that failed since. */
    ghost predicate SpawnsFailed(blocks: map<JobId, Block>, from: nat, to: nat) {
      forall j :: j in blocks && blocks[j].SpawnFailed? ==> exists n :: from <= n < to && spawnFails(n)
    }

    /** How far the decisions of a plan have been acted on. */
    ghost predicate Acting(planned: Log, ds: seq<Decision>, i: nat, attempts: map<JobId, nat>, first: map<JobId, Entry>, blocks: map<JobId, Block>, from: nat, patient: bool)
      reads this
    {
      && Valid() && Known() && settling.None? && OnlyLaunches(planned, log) && from <= turn
      && ToCome(ds, i, running) && Came(ds, attempts, world)
      && Done(ds, i, attempts, first, running, blocks.Keys)
      && BlocksAre(blocks, ds, log, |planned.acts|) && SpawnsFailed(blocks, from, turn)
      && DistinctIds(ds) && BlockedApart(ds, i, running, blocks.Keys) && FailedFor(ds, i, patient, blocks, log, |planned.acts|)
    }

    method ActOnNext(ds: seq<Decision>, i: nat, attempts: map<JobId, nat>, patient: bool, ghost planned: Log, ghost first: map<JobId, Entry>, ghost blocks: map<JobId, Block>, ghost from: nat)
      returns (ghost more: map<JobId, Block>)
      requires Kept(planned) && i < |ds| && Acting(planned, ds, i, attempts, first, blocks, from, patient)
      modifies this`world, this`turn, this`log, this`claimed, this`running, this`order, this`queued
      ensures Acting(planned, ds, i + 1, attempts, first, more, from, patient)
    {
      hide Good, EventsOf, Happened, OrderOf, InOrder, Knows, Clear, NoDup, SeenClaimed, ToCome, Done, BlocksAre, CameTo, Grows;
      ghost var mid, was, now := log, running, turn;
      FirstToCome(ds, i, running);
      var block := ActOn(ds[i], attempts[ds[i].jobId], patient);
      LaunchesTwice(planned, mid, log);
      GrewTo(mid);
      CameGrows(ds, attempts, Now(mid).world, world);
      more := if block.Some? then blocks[ds[i].jobId := block.value] else blocks;
      OneDone(ds, i, attempts, first, was, running, blocks.Keys, block.Some?);
      assert more.Keys == blocks.Keys + if block.Some? then {ds[i].jobId} else {};
      BlocksNext(blocks, more, ds, i, planned, mid, log, block);
      BlockedNext(ds, i, was, running, blocks.Keys, block.Some?);
      FailedNext(ds, i, patient, blocks, more, block, mid, log, |planned.acts|);
    }

    method ActOnAll(ds: seq<Decision>, attempts: map<JobId, nat>, patient: bool) returns (ghost blocks: map<JobId, Block>)
      requires Valid() && Known() && settling.None? && ToCome(ds, 0, running) && Came(ds, attempts, world) && DistinctIds(ds)
      modifies this`world, this`turn, this`log, this`claimed, this`running, this`order, this`queued
      ensures Acting(old(log), ds, |ds|, attempts, old(running), blocks, old(turn), patient)
    {
      hide Good, EventsOf, Happened, OrderOf, InOrder, Knows, ToCome, Done, Came;
      blocks := map[];
      ghost var planned, first, from := log, running, turn;
      NothingDone(planned, ds, attempts, first);
      NobodyGivenUpYet(ds, patient, log, running);
      assert blocks.Keys == {};
      for i := 0 to |ds|
        invariant Kept(planned) && Acting(planned, ds, i, attempts, first, blocks, from, patient)
      {
        blocks := ActOnNext(ds, i, attempts, patient, planned, first, blocks, from);
      }
    }

    /** The first half of `launch_ready`: the requests, then the pool, then the
        rule. */
    method PlanLaunches(p: Readings) returns (ds: seq<Decision>, attempts: map<JobId, nat>, ghost plan: Plan)
      requires Valid() && Known() && Resolved(p) && ReadingOf(p, borrowable)
      modifies this`world, this`turn, this`log, this`claimed, this`queued, this`borrowable
      ensures Valid() && Known() && ReadingOf(p, borrowable) && turn >= old(turn)
      ensures PlanIs(plan, p, old(borrowable), began, old(log)) && plan.at == log && plan.attempts == attempts && ds == plan.Dealt()
      ensures ToCome(ds, 0, running) && Came(ds, attempts, world) && DistinctIds(ds)
      ensures old(borrowable).None? ==> TookReading(p, borrowable, running, plan)
    {
      hide Good, EventsOf, Happened, OrderOf, InOrder, ScanIs, QueueIs, RequestsAre, HostFor, Offers, StateFor, CardsOf, Decisions, NoDup, Grows, ToCome, Came;
      ghost var past := log;
      var requests;
      requests, attempts := Requests();
      ghost var asked := log;
      var pool;
      ghost var leavers, left;
      pool, leavers, left := MakePool(p);
      PlainEvents(asked, log);
      PlainTwice(past, asked, log);
      GrewTo(asked);
      RequestsLater(requests, attempts, running, asked, log, began);
      HostLater(pool.host, p, running, log, log, |past.acts|, |asked.acts|, leavers, left);
      ghost var start := pool.At(map[], {}, false);
      ds := Decided(pool, requests, p);
      plan := Plan(pool.host, Eager(start, pool.sample), requests, attempts, claimed.value, leavers, left, log);
      RequestsWait(requests, attempts, running, log, began);
      AllClear(start, pool.sample, p, pool.host, requests, running);
      DealtDistinct(requests, running, ds);
      GoodIs(alone, strays, quietFrom, script, log);
      hide Lawful, Sound, QuietLog, Whole;
      RequestsCame(alone, log, began, requests, attempts, running, ds);
    }

    /** `launch_ready` */
    method LaunchReady(p: Readings) returns (ghost plan: Plan, ghost blocks: map<JobId, Block>)
      requires Valid() && Known() && settling.None? && Resolved(p) && ReadingOf(p, borrowable)
      modifies this`world, this`turn, this`log, this`claimed, this`running, this`order, this`queued, this`borrowable
      ensures Valid() && Known() && turn >= old(turn) && ReadingOf(p, borrowable) && Extends(old(log), log)
      ensures p.draining ==> log == old(log) && running == old(running)
      ensures SpawnsFailed(blocks, old(turn), turn)
      ensures !p.draining ==> LaunchPass(p, old(borrowable), began, old(log), log, plan, blocks)
      ensures !p.draining && old(borrowable).None? ==> TookReading(p, borrowable, old(running), plan)
    {
      hide Good, EventsOf, Happened, OrderOf, InOrder, Knows, PlanIs, ToCome, Came, Done, BlocksAre, Decisions;
      blocks := map[];
      if p.draining {
        plan := Plan(Host(0, 0, [], [], {}, [], []), Fresh([], [], 0), [], map[], {}, [], log, log);
        return;
      }
      ghost var past, first := log, turn;
      var ds, attempts;
      ds, attempts, plan := PlanLaunches(p);
      ghost var planned := turn;
      PlanExtends(plan, p, old(borrowable), began, past);
      blocks := ActOnAll(ds, attempts, p.patient);
      ExtendsTwice(past, plan.at, log);
      FailedLater(blocks, planned, first, turn, turn);
      BlocksGiveLaunchPass(p, old(borrowable), began, past, log, plan, blocks);
    }

    lemma {:induction false} FailedLater(blocks: map<JobId, Block>, from: nat, sooner: nat, to: nat, later: nat)
      requires SpawnsFailed(blocks, from, to) && sooner <= from && to <= later
      ensures SpawnsFailed(blocks, sooner, later)
    {
    }

    /** `_preempt_for` for one job after the other, until one is refused. */
    method AskAll(jobs: seq<JobId>) returns (ghost asked: seq<JobId>)
      requires Valid() && Known() && forall j :: j in jobs ==> j in running
      modifies this`world, this`turn, this`log
      ensures Valid() && Known() && turn >= old(turn) && asked <= jobs && Asks(old(log), log, asked)
      ensures |asked| < |jobs| ==> !MayStop(world, jobs[|asked|])
    {
      hide Good, EventsOf, Happened, Calm, Names, OrderOf, InOrder, MayStop, Knows, Asks;
      asked := [];
      ghost var past := log;
      NobodyAsked(past);
      for i := 0 to |jobs|
        invariant Valid() && Known() && turn >= old(turn) && asked == jobs[..i] && Asks(past, log, asked)
      {
        ghost var mid := log;
        var ok := AskOne(jobs[i]);
        AsksMore(past, mid, log, asked, jobs[i], ok);
        if !ok {
          return;
        }
        asked := asked + [jobs[i]];
      }
    }

    method AskOne(job: JobId) returns (ok: bool)
      requires Valid() && Known() && job in running
      modifies this`world, this`turn, this`log
      ensures Valid() && Known() && turn >= old(turn)
      ensures !ok ==> OnlyEvents(old(log), log) && !MayStop(world, job)
      ensures ok ==> Asks(old(log), log, [job])
    {
      hide Good, EventsOf, Happened, Calm, Names, OrderOf, InOrder, MayStop, ScanIs, QueueIs, Asks;
      ghost var past := log;
      Others();
      ok := MayStop(world, job);
      if ok {
        ghost var mid := log;
        Record(Ask(job));
        world := Stopping(world, job);
        AskedNow(past, mid, log, job);
      }
      OnlyEventsExtend(past, log);
      KnowsLater(past, log, began, claimed, queued);
    }

    /** The first half of `preempt_for_waiting`: the pool, and with candidates in
        it the requests, then the rule. */
    method PlanStops(p: Readings) returns (ds: seq<Decision>, any: bool, ghost plan: Plan)
      requires Valid() && Known() && Resolved(p) && ReadingOf(p, borrowable)
      modifies this`world, this`turn, this`log, this`claimed, this`queued, this`borrowable
      ensures Valid() && Known() && turn >= old(turn) && ReadingOf(p, borrowable) && Plain(old(log), log) && plan.at == log
      ensures any <==> plan.h.preemptable != []
      ensures !any ==> CandidatesAre([], running, p, log, |old(log).acts|)
      ensures any ==> PlanIs(plan, p, old(borrowable), began, old(log)) && ds == plan.Dealt()
      ensures any ==> forall j :: j in Wanted(ds) ==> j in running && StopsFor(plan.h, plan.s, plan.rs, j)
    {
      hide Good, EventsOf, Happened, OrderOf, InOrder, ScanIs, QueueIs, RequestsAre, LeaversAre, CandidatesAre, Offers, StateFor, CardsOf, Decisions, NoDup, Wanted, StopsFor;
      ghost var past := log;
      var pool;
      ghost var leavers, left;
      pool, leavers, left := MakePool(p);
      ghost var pooled, claims := log, claimed.value;
      PlainEvents(past, pooled);
      ghost var start := pool.At(map[], {}, false);
      any := |pool.host.preemptable| > 0;
      if !any {
        ds := [];
        plan := Plan(pool.host, Eager(start, pool.sample), [], map[], claims, leavers, left, log);
        CandidatesLater(pool.host.preemptable, running, p, log, log, |past.acts|, |left.acts|);
        return;
      }
      var requests, attempts := Requests();
      PlainTwice(past, pooled, log);
      HostLater(pool.host, p, running, pooled, log, |past.acts|, |past.acts|, leavers, left);
      ds := Decided(pool, requests, p);
      plan := Plan(pool.host, Eager(start, pool.sample), requests, attempts, claims, leavers, left, log);
      CandidatesWeighed(plan.h.preemptable, running, p, log, |left.acts|);
      WantedAreBehind(plan.h, plan.s, requests, running, p);
    }

    /** `preempt_for_waiting` */
    method PreemptForWaiting(p: Readings) returns (ghost plan: Plan, ghost asked: seq<JobId>)
      requires Valid() && Known() && Resolved(p) && ReadingOf(p, borrowable)
      modifies this`world, this`turn, this`log, this`claimed, this`queued, this`borrowable
      ensures Valid() && Known() && turn >= old(turn) && ReadingOf(p, borrowable) && NoSpawns(old(log), log)
      ensures p.draining ==> log == old(log)
      ensures !p.draining ==> PreemptPass(p, old(borrowable), began, old(log), log, plan, asked)
    {
      hide Good, EventsOf, Happened, OrderOf, InOrder, Knows, PlanIs, Decisions, Wanted, StopsFor, Asks, MayStop, CandidatesAre, PreemptPass;
      asked := [];
      if p.draining {
        plan := Plan(Host(0, 0, [], [], {}, [], []), Fresh([], [], 0), [], map[], {}, [], log, log);
        return;
      }
      ghost var past := log;
      var ds, any;
      ds, any, plan := PlanStops(p);
      PlainSpawnsNobody(past, log);
      if any {
        asked := AskAll(Wanted(ds));
        PreemptIs(p, old(borrowable), began, past, log, plan, asked);
      } else {
        NothingToStop(p, old(borrowable), began, past, log, plan);
      }
    }

    /** The launches and then the stops of a pass. */
    method LaunchThenStop(p: Readings, ghost past: Log) returns (ghost r: Round)
      requires Valid() && Known() && settling.None? && Resolved(p) && borrowable.None? && began == |log.acts|
      modifies this`world, this`turn, this`log, this`claimed, this`running, this`order, this`queued, this`borrowable
      ensures Valid() && Extends(old(log), log) && turn >= old(turn)
      ensures ServedThen(p, r) && r.before == past && r.reaped == old(log) && r.after == log && SpawnsFailed(r.blocks, old(turn), turn)
    {
      hide Good, EventsOf, Happened, OrderOf, InOrder, LaunchPass, PreemptPass, Knows, ReadingOf, SpawnsFailed, TookReading, Resolved;
      ghost var reaped := log;
      assert ReadingOf(p, borrowable) by { NoReading(p); }
      ghost var launching, blocks := LaunchReady(p);
      ghost var launched, memo, done := log, borrowable, turn;
      ghost var stopping, asked := PreemptForWaiting(p);
      ExtendsTwice(reaped, launched, log);
      FailedLater(blocks, old(turn), old(turn), done, turn);
      r := Round(past, reaped, launching, blocks, launched, memo, stopping, asked, log);
    }

    /** `run_once`, as far as runners and cards go: the dead are reaped, then the
        rule's launches are made, then its stops asked for. */
    method RunOnce(p: Readings) returns (ghost r: Round)
      requires Valid() && settling.None? && Resolved(p)
      modifies this`world, this`turn, this`log, this`claimed, this`running, this`order, this`queued, this`borrowable, this`settling, this`began
      ensures Valid() && settling.None? && Extends(old(log), log)
      ensures RoundIs(p, r) && r.before == old(log) && r.after == log
      ensures turn >= old(turn) && SpawnsFailed(r.blocks, old(turn), turn)
    {
      hide Good, EventsOf, Happened, OrderOf, InOrder, ServedThen, SeenAlive, ScanIs, QueueIs, SpawnsFailed, Resolved;
      ghost var past := log;
      borrowable, queued, claimed := None, None, None;
      Reap();
      ghost var reaped, first := log, turn;
      began := |log.acts|;
      r := LaunchThenStop(p, past);
      ExtendsTwice(past, reaped, log);
      FailedLater(r.blocks, first, old(turn), turn, turn);
      queued := None;
    }

    /** Any number of passes: alone on its machine, at no moment of the run are
        a card or a job under two live runners that are not strays; and alone
        or not, every launch keeps clear of entries and standing claims. */
    method Serve(passes: seq<Readings>) returns (ghost rounds: seq<Round>)
      requires Valid() && settling.None? && forall p :: p in passes ==> Resolved(p)
      modifies this`world, this`turn, this`log, this`claimed, this`running, this`order, this`queued, this`borrowable, this`settling, this`began
      ensures Valid() && settling.None? && Extends(old(log), log)
      ensures alone ==> forall k :: |old(log).acts| <= k < |log.states| ==> Sound(log.states[k], strays)
      ensures forall k :: 0 <= k < |log.acts| && log.acts[k].Spawn? ==>
        Clear(log.states[k].running, log.acts[k].job, log.acts[k].gpus) && Rechecked(log.states, log.acts, k)
      ensures |rounds| == |passes| && Chained(rounds, old(log), log)
      ensures forall k :: 0 <= k < |passes| ==> RoundIs(passes[k], rounds[k])
    {
      hide Good, EventsOf, Happened, OrderOf, InOrder, Sound, Rechecked, Resolved, RoundIs, Chained, Lawful, QuietLog, Whole;
      ghost var past := log;
      GoodIs(alone, strays, quietFrom, script, log);
      rounds := [];
      assert Chained(rounds, past, log) by { NoneChained(past); }
      for i := 0 to |passes|
        invariant Valid() && settling.None? && Extends(past, log)
        invariant |rounds| == i && Chained(rounds, past, log)
        invariant forall k :: 0 <= k < i ==> RoundIs(passes[k], rounds[k])
      {
        ghost var mid := log;
        ghost var r := RunOnce(passes[i]);
        ExtendsTwice(past, mid, log);
        ChainedMore(rounds, past, mid, r);
        rounds := rounds + [r];
      }
      GoodIs(alone, strays, quietFrom, script, log);
      WholeRun(past, log, alone, strays);
    }

    /** A dispatcher starting up: `strays` are all the runners it has not found yet. */
    constructor (ghost alone: bool, script: nat -> seq<Event>, spawnFails: nat -> bool, world: World)
      requires alone ==> AloneScript(script) && (forall p :: p in world.live ==> p < world.next && world.live[p].phase != Spawned)
      ensures Valid() && this.world == world && running == map[] && log.acts == [] && strays == world.live.Keys
      ensures settling.None? && quietFrom.None? && turn == 0 && Known()
      ensures this.alone == alone && this.script == script && this.spawnFails == spawnFails
    {
      this.alone := alone;
      this.script := script;
      this.spawnFails := spawnFails;
      this.world := world;
      running, order := map[], [];
      claimed, borrowable, queued := None, None, None;
      turn := 0;
      log := Log([Snapshot(world, map[], None)], []);
      strays := world.live.Keys;
      settling, quietFrom, began := None, None, 0;
    }

    /** With every runner counted and every state readable, and only a quiet
        future, the run is quiet from here on. */
    ghost method GoQuiet()
      requires Valid() && alone && Whole(Now(log)) && QuietScript(script)
      modifies this`quietFrom
      ensures Valid() && quietFrom == Some(|log.acts|)
    {
      quietFrom := Some(|log.acts|);
    }
  }
}
