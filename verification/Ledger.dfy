/** Runs of one dispatcher on its machine, as the steps taken so far, and what
    every run keeps: no card and no job is under two live runners. */
module Ledger {
  import opened Lists
  import opened Preempt
  import opened Machine

  /** A job whose cards the dispatcher counts as taken. */
  datatype Entry = Entry(gpus: seq<Uuid>, attempt: nat, pid: Pid)

  /** A job whose dead runner has been dropped, and what was counted for it. */
  datatype Dropped = Dropped(job: JobId, entry: Entry)

  /** The machine, what the dispatcher counts, and the job it has dropped and
      not settled yet. */
  datatype Snapshot = Snapshot(world: World, running: map<JobId, Entry>, settling: Option<Dropped>)

  /** One step: something happening on the machine, or the dispatcher starting
      to read the claims again, adopting a runner, dropping a dead one and being
      done with it, failing a job for a dead runner or without one, starting a
      runner (`since` is the step at which it began to read the claims for it),
      or asking one to stop. */
  datatype Act =
    | Env(event: Event)
    | Recheck
    | Adopt(job: JobId, entry: Entry)
    | Drop(job: JobId)
    | MoveOn
    | Died(job: JobId, attempt: nat, was: Status)
    | Dismiss(job: JobId)
    | Spawn(job: JobId, gpus: seq<Uuid>, attempt: nat, since: nat)
    | Ask(job: JobId)

  /** Nothing this dispatcher counts on is touched by giving the job these cards. */
  predicate Clear(running: map<JobId, Entry>, job: JobId, gpus: seq<Uuid>) {
    job !in running && forall j :: j in running ==> Apart(running[j].gpus, gpus)
  }

  /** When the dispatcher may take a step. `alone` says that no other dispatcher
      starts runners on this machine: then a verdict on a dead runner is written
      on the very attempt it was reached for, and never over a live runner. */
  predicate Allowed(alone: bool, s: Snapshot, a: Act) {
    match a
    case Env(e) => alone ==> !e.Foreign?
    case Recheck => true
    case Adopt(job, entry) => job !in s.running
    case Drop(job) => job in s.running && s.running[job].pid !in s.world.live
    case MoveOn => true
    case Died(job, attempt, was) =>
      && was != Finished && Reads(s.world, job, was)
      && (alone ==> s.world.jobs[job].attempt == attempt && (was == Running ==> s.world.jobs[job].pid !in s.world.live))
    case Dismiss(job) => Reads(s.world, job, Queued)
    case Spawn(job, gpus, attempt, _) => NoDup(gpus) && Clear(s.running, job, gpus)
    case Ask(job) => job in s.running && MayStop(s.world, job)
  }

  function Apply(s: Snapshot, a: Act): Snapshot {
    match a
    case Env(e) => s.(world := Happens(s.world, e))
    case Recheck => s
    case Adopt(job, entry) => s.(running := s.running[job := entry])
    case Drop(job) =>
      s.(running := s.running - {job}, settling := if job in s.running then Some(Dropped(job, s.running[job])) else None)
    case MoveOn => s.(settling := None)
    case Died(job, _, was) => s.(world := Finishing(s.world, job, was))
    case Dismiss(job) => s.(world := Finishing(s.world, job, Queued))
    case Spawn(job, gpus, attempt, _) =>
      s.(world := Spawning(s.world, job, gpus, attempt), running := s.running[job := Entry(gpus, attempt, s.world.next)])
    case Ask(job) => s.(world := Stopping(s.world, job))
  }

  datatype Log = Log(states: seq<Snapshot>, acts: seq<Act>)

  /** A claim on this card that stood on disk at every moment from `from` to `to`. */
  ghost predicate Standing(states: seq<Snapshot>, from: nat, to: nat, job: JobId, card: Uuid)
    requires to < |states|
  {
    forall t :: from <= t <= to ==> Claims(states[t].world, job, card)
  }

  /** A runner was started on cards no claim named that stood while the claims
      were read again, and nothing of the dispatcher's came in between. */
  ghost predicate Rechecked(states: seq<Snapshot>, acts: seq<Act>, k: nat)
    requires k < |acts| <= |states| && acts[k].Spawn?
  {
    var since := acts[k].since;
    && since < k && acts[since] == Recheck
    && (forall t :: since < t < k ==> acts[t].Env?)
    && (forall j, c :: Standing(states, since, k, j, c) ==> c !in acts[k].gpus)
  }

  ghost predicate Lawful(alone: bool, log: Log) {
    && |log.states| == |log.acts| + 1
    && (forall k :: 0 <= k < |log.acts| ==> Allowed(alone, log.states[k], log.acts[k]))
    && (forall k :: 0 <= k < |log.acts| ==> log.states[k + 1] == Apply(log.states[k], log.acts[k]))
    && (forall k :: 0 <= k < |log.acts| && log.acts[k].Spawn? ==> Rechecked(log.states, log.acts, k))
  }

  function Now(log: Log): Snapshot
    requires log.states != []
  {
    log.states[|log.states| - 1]
  }

  function Grown(log: Log, a: Act): Log
    requires log.states != []
  {
    Log(log.states + [Apply(Now(log), a)], log.acts + [a])
  }

  predicate Extends(past: Log, log: Log) {
    past.states <= log.states && past.acts <= log.acts
  }

  /** Everything since was somebody else's doing. */
  predicate OnlyEvents(past: Log, log: Log) {
    Extends(past, log) && forall t :: |past.acts| <= t < |log.acts| ==> log.acts[t].Env?
  }

  lemma {:induction false} RecheckedStays(states: seq<Snapshot>, acts: seq<Act>, k: nat, s: Snapshot, a: Act)
    requires k < |acts| <= |states| && acts[k].Spawn? && Rechecked(states, acts, k)
    ensures Rechecked(states + [s], acts + [a], k)
  {
    forall j, c | Standing(states + [s], acts[k].since, k, j, c)
      ensures c !in acts[k].gpus
    {
      assert forall t :: acts[k].since <= t <= k ==> (states + [s])[t] == states[t];
      assert Standing(states, acts[k].since, k, j, c);
    }
  }

  lemma {:induction false} GrowsLawfully(alone: bool, log: Log, a: Act)
    requires Lawful(alone, log) && Allowed(alone, Now(log), a)
    requires a.Spawn? ==> Rechecked(log.states, log.acts + [a], |log.acts|)
    ensures Lawful(alone, Grown(log, a)) && Now(Grown(log, a)) == Apply(Now(log), a) && Extends(log, Grown(log, a))
  {
    hide Allowed, Apply, Rechecked;
    var next := Grown(log, a);
    forall k | 0 <= k < |next.acts| && next.acts[k].Spawn?
      ensures Rechecked(next.states, next.acts, k)
    {
      if k < |log.acts| {
        RecheckedStays(log.states, log.acts, k, Apply(Now(log), a), a);
      } else {
        RecheckedLast(log, a);
      }
    }
  }

  lemma {:induction false} RecheckedLast(log: Log, a: Act)
    requires |log.states| == |log.acts| + 1 && a.Spawn? && Rechecked(log.states, log.acts + [a], |log.acts|)
    ensures Rechecked(Grown(log, a).states, Grown(log, a).acts, |log.acts|)
  {
    var next := Grown(log, a);
    forall j, c | Standing(next.states, a.since, |log.acts|, j, c)
      ensures c !in a.gpus
    {
      assert forall t :: a.since <= t <= |log.acts| ==> next.states[t] == log.states[t];
      assert Standing(log.states, a.since, |log.acts|, j, c);
    }
  }

  /** Every live runner is one the dispatcher counts, on its own cards, except
      for the strays: runners of before it that it did not find. Those have
      claimed their job or are past it. */
  ghost predicate Tracked(s: Snapshot, strays: set<Pid>) {
    && (forall p :: p in s.world.live ==> p < s.world.next)
    && (forall p :: p in s.world.live && p !in strays ==> Counted(s, p))
    && (forall p :: p in s.world.live && p in strays ==> s.world.live[p].phase != Spawned)
  }

  predicate Counted(s: Snapshot, p: Pid)
    requires p in s.world.live
  {
    var r := s.world.live[p];
    r.job in s.running && s.running[r.job] == Entry(r.gpus, r.attempt, p)
  }

  /** No two of them share a card or a job. */
  ghost predicate NoneShared(s: Snapshot, strays: set<Pid>) {
    forall p, q :: p in s.world.live && q in s.world.live && p != q && p !in strays && q !in strays ==>
      s.world.live[p].job != s.world.live[q].job && Apart(s.world.live[p].gpus, s.world.live[q].gpus)
  }

  ghost predicate Sound(s: Snapshot, strays: set<Pid>) {
    Tracked(s, strays) && NoneShared(s, strays)
  }

  lemma {:induction false} FewerRunners(s: Snapshot, t: Snapshot, strays: set<Pid>)
    requires Sound(s, strays) && RunnersGoOn(s.world, t.world) && s.world.next <= t.world.next
    requires forall p :: p in t.world.live && p !in strays ==>
      t.world.live[p].job in t.running && t.running[t.world.live[p].job] == s.running[s.world.live[p].job]
    ensures Sound(t, strays)
  {
    forall p | p in t.world.live
      ensures p < t.world.next && (p in strays ==> t.world.live[p].phase != Spawned)
      ensures p !in strays ==> Counted(t, p)
    {
      assert p in s.world.live;
      assert p !in strays ==> Counted(s, p);
    }
    assert NoneShared(t, strays);
  }

  lemma {:induction false} NewRunner(s: Snapshot, a: Act, strays: set<Pid>)
    requires a.Spawn? && Sound(s, strays) && Allowed(true, s, a)
    requires forall p :: p in strays ==> p < s.world.next
    ensures Sound(Apply(s, a), strays)
  {
    var t := Apply(s, a);
    forall p | p in s.world.live && p !in strays
      ensures s.world.live[p].job != a.job && Apart(s.world.live[p].gpus, a.gpus) && Apart(a.gpus, s.world.live[p].gpus)
    {
      assert Counted(s, p);
    }
    assert forall p :: p in t.world.live && p != s.world.next ==> p in s.world.live && t.world.live[p] == s.world.live[p];
    forall p | p in t.world.live && p !in strays
      ensures Counted(t, p)
    {
      if p != s.world.next {
        assert Counted(s, p);
      }
    }
  }

  lemma {:induction false} EventsDoNotSpawn(w: World, e: Event)
    requires !e.Foreign?
    ensures Happens(w, e).next == w.next
  {
    hide SomebodyAhead;
  }

  /** Each step keeps it. */
  lemma {:induction false} StepKeeps(s: Snapshot, a: Act, strays: set<Pid>)
    requires Sound(s, strays) && Allowed(true, s, a)
    requires forall p :: p in strays ==> p < s.world.next
    ensures Sound(Apply(s, a), strays) && s.world.next <= Apply(s, a).world.next
  {
    var t := Apply(s, a);
    if a.Spawn? {
      NewRunner(s, a, strays);
    } else {
      assert RunnersGoOn(s.world, t.world) && t.world.next == s.world.next by {
        if a.Env? {
          EventRunners(s.world, a.event);
          EventsDoNotSpawn(s.world, a.event);
        }
      }
      forall p | p in t.world.live && p !in strays
        ensures t.world.live[p].job in t.running && t.running[t.world.live[p].job] == s.running[s.world.live[p].job]
      {
        assert p in s.world.live && Counted(s, p);
      }
      hide Happens, Sound;
      FewerRunners(s, t, strays);
    }
  }

  lemma {:induction false} LawfulStep(alone: bool, log: Log, k: nat)
    requires Lawful(alone, log) && k + 1 < |log.states|
    ensures k < |log.acts| && Allowed(alone, log.states[k], log.acts[k]) && log.states[k + 1] == Apply(log.states[k], log.acts[k])
  {
    hide Allowed, Apply, Rechecked;
  }

  /** Safety over whole runs: on a machine with one dispatcher, from a moment at
      which every live runner but the strays is counted, no card and no job is
      ever under two live runners that are not strays, at any moment of any run
      of passes interleaved with claims, re-queues, ends and deaths. */
  lemma {:induction false} NoCardTwice(log: Log, strays: set<Pid>, i: nat, k: nat)
    requires Lawful(true, log) && i <= k < |log.states|
    requires Sound(log.states[i], strays) && forall p :: p in strays ==> p < log.states[i].world.next
    ensures Sound(log.states[k], strays) && log.states[i].world.next <= log.states[k].world.next
    decreases k
  {
    hide Sound, Lawful, Allowed, Apply;
    if i < k {
      NoCardTwice(log, strays, i, k - 1);
      LawfulStep(true, log, k - 1);
      StepKeeps(log.states[k - 1], log.acts[k - 1], strays);
    }
  }

  // Claims seen while the states are read one after the other.

  /** This card was named by a claim at some moment between the two. */
  ghost predicate SeenClaimed(states: seq<Snapshot>, from: nat, to: nat, card: Uuid)
    requires to < |states|
  {
    exists t: nat, j :: from <= t <= to && Claims(states[t].world, j, card)
  }

  /** This runner was alive at some moment since. */
  ghost predicate SeenAlive(states: seq<Snapshot>, from: nat, pid: Pid) {
    exists t: nat :: from <= t < |states| && pid in states[t].world.live
  }

  lemma {:induction false} StandingBefore(past: seq<Snapshot>, states: seq<Snapshot>, from: nat, start: nat, mid: nat, to: nat, job: JobId, card: Uuid)
    requires past <= states && from <= start && mid <= to < |states| && mid < |past|
    requires Standing(states, from, to, job, card)
    ensures Standing(past, start, mid, job, card)
  {
    forall t | start <= t <= mid
      ensures Claims(past[t].world, job, card)
    {
      assert past[t] == states[t];
    }
  }

  lemma {:induction false} SeenLater(past: seq<Snapshot>, states: seq<Snapshot>, from: nat, mid: nat, to: nat, card: Uuid)
    requires past <= states && mid <= to < |states| && mid < |past|
    requires SeenClaimed(past, from, mid, card)
    ensures SeenClaimed(states, from, to, card)
  {
    var t: nat, j :| from <= t <= mid && Claims(past[t].world, j, card);
    assert past[t] == states[t];
  }

  lemma {:induction false} AliveLater(past: seq<Snapshot>, states: seq<Snapshot>, from: nat, pid: Pid)
    requires past <= states && SeenAlive(past, from, pid)
    ensures SeenAlive(states, from, pid)
  {
    var t: nat :| from <= t < |past| && pid in past[t].world.live;
    assert states[t] == past[t];
  }

  lemma {:induction false} ExtendsTwice(a: Log, b: Log, c: Log)
    requires Extends(a, b) && Extends(b, c)
    ensures Extends(a, c)
    ensures OnlyEvents(a, b) && OnlyEvents(b, c) ==> OnlyEvents(a, c)
  {
  }

  // Verdicts on dead runners.

  /** Nobody can claim the job, and if it still has the status the verdict was
      reached on, then on the same attempt, and under a dead runner. */
  predicate Judged(w: World, job: JobId, attempt: nat, was: Status) {
    && was != Finished && job in w.jobs && Unclaimable(w, job)
    && (w.jobs[job].status == was ==> w.jobs[job].attempt == attempt && (was == Running ==> w.jobs[job].pid !in w.live))
    && (was == Queued ==> w.jobs[job].status != Running)
    && (was == Running && w.jobs[job].status == Queued ==> attempt < w.jobs[job].attempt)
  }

  lemma {:induction false} JudgedStays(v: World, w: World, job: JobId, attempt: nat, was: Status)
    requires Calm(v, w) && Judged(v, job, attempt, was)
    ensures Judged(w, job, attempt, was)
  {
  }

  /** A job nobody counts on has no runner left that could claim it. */
  lemma {:induction false} NobodyClaims(s: Snapshot, strays: set<Pid>, job: JobId)
    requires Sound(s, strays) && job !in s.running
    ensures Unclaimable(s.world, job)
  {
    forall p | p in s.world.live && s.world.live[p].job == job
      ensures s.world.live[p].phase != Spawned
    {
      assert p in strays || Counted(s, p);
    }
  }

  lemma {:induction false} ActGrows(s: Snapshot, a: Act)
    ensures Grows(s.world, Apply(s, a).world)
  {
    if a.Env? {
      EventGrows(s.world, a.event);
    }
    hide Happens, SomebodyAhead;
  }

  lemma {:induction false} LogGrows(alone: bool, log: Log, i: nat, k: nat)
    requires Lawful(alone, log) && i <= k < |log.states|
    ensures Grows(log.states[i].world, log.states[k].world)
    decreases k
  {
    hide Lawful, Allowed, Apply;
    if i < k {
      LogGrows(alone, log, i, k - 1);
      LawfulStep(alone, log, k - 1);
      ActGrows(log.states[k - 1], log.acts[k - 1]);
    }
  }
}
