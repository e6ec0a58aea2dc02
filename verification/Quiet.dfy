/** Runs of a dispatcher that has its machine to itself, with every runner
    counted and every state readable: what it counts is what is there, and a
    job on its way out stays so until its runner is reaped. */
module Quiet {
  import opened Lists
  import opened Preempt
  import opened Machine
  import opened Ledger

  /** `_leaving`: the attempt of this entry is over, bar its runner exiting. */
  predicate IsLeaving(state: Option<Job>, entry: Entry) {
    state.Some?
    && if state.value.status == Running then state.value.intent != NoIntent
       else !(state.value.status == Queued && state.value.attempt == entry.attempt)
  }

  predicate Leaves(s: Snapshot, job: JobId) {
    job in s.running && IsLeaving(Read(s.world, job), s.running[job])
  }

  ghost predicate EntriesApart(running: map<JobId, Entry>) {
    && (forall j :: j in running ==> NoDup(running[j].gpus))
    && (forall i, j :: i in running && j in running && i != j ==> Apart(running[i].gpus, running[j].gpus))
  }

  /** The job has come no less far than the entry, and a claim on it is the
      entry's own. */
  predicate Fits(w: World, job: JobId, e: Entry) {
    && job in w.jobs && e.pid < w.next && e.attempt <= w.jobs[job].attempt
    && (w.jobs[job].status == Running ==>
         w.jobs[job].attempt == e.attempt && w.jobs[job].pid == e.pid && w.jobs[job].gpus == e.gpus)
  }

  predicate IsSettling(s: Snapshot, job: JobId) {
    s.settling.Some? && s.settling.value.job == job
  }

  /** A dropped job is still claimed, or queued for the attempt its dead runner
      was started for. */
  predicate Unsettled(w: World, job: JobId, e: Entry) {
    job in w.jobs && (w.jobs[job].status == Running || (w.jobs[job].status == Queued && w.jobs[job].attempt <= e.attempt))
  }

  /** A claim is that of an entry, or of the dead runner being settled. */
  predicate ClaimIsCounted(s: Snapshot, job: JobId)
    requires job in s.world.jobs
  {
    s.world.jobs[job].status == Running ==>
      job in s.running || (IsSettling(s, job) && s.world.jobs[job].pid !in s.world.live)
  }

  /** The job has come to this attempt. */
  predicate CameTo(w: World, job: JobId, attempt: nat) {
    job in w.jobs && attempt <= w.jobs[job].attempt
  }

  ghost predicate Whole(s: Snapshot) {
    && Sound(s, {}) && Names(s.world) && s.world.garbled == {}
    && EntriesApart(s.running)
    && (forall j :: j in s.running ==> Fits(s.world, j, s.running[j]))
    && (forall j :: j in s.world.jobs ==> ClaimIsCounted(s, j))
    && (s.settling.Some? ==> s.settling.value.job !in s.running && CameTo(s.world, s.settling.value.job, s.settling.value.entry.attempt))
  }

  predicate Undisturbed(e: Event) {
    !e.Foreign? && !e.Garble? && !e.Mend?
  }

  /** The steps of such a run: nothing is adopted, one dropped job is settled at
      a time, and a job is started at an attempt it has come to. */
  predicate QuietAct(s: Snapshot, a: Act) {
    match a
    case Env(e) => Undisturbed(e)
    case Adopt(_, _) => false
    case Drop(_) => s.settling.None?
    case MoveOn => s.settling.Some? ==> !Unsettled(s.world, s.settling.value.job, s.settling.value.entry)
    case Died(job, _, _) => IsSettling(s, job)
    case Spawn(job, _, attempt, _) => s.settling.None? && job in s.world.jobs && attempt <= s.world.jobs[job].attempt
    case _ => true
  }

  lemma {:induction false} EventFits(s: Snapshot, e: Event, job: JobId)
    requires Whole(s) && Undisturbed(e) && job in s.running
    ensures Fits(Happens(s.world, e), job, s.running[job])
  {
    ClaimerCounted(s, e);
    assert Fits(s.world, job, s.running[job]);
    hide SomebodyAhead, EntriesApart, NoneShared, Sound, ClaimIsCounted;
  }

  lemma {:induction false} EventCounts(s: Snapshot, e: Event, job: JobId)
    requires Whole(s) && Undisturbed(e) && job in Happens(s.world, e).jobs
    ensures ClaimIsCounted(s.(world := Happens(s.world, e)), job)
  {
    ClaimerCounted(s, e);
    hide SomebodyAhead, EntriesApart, NoneShared, Sound, Fits;
    if job in s.world.jobs {
      assert ClaimIsCounted(s, job);
    }
  }

  /** Who claims a job is counted for it. */
  lemma {:induction false} ClaimerCounted(s: Snapshot, e: Event)
    requires Whole(s)
    ensures e.Claim? && e.pid in s.world.live ==> Counted(s, e.pid)
  {
    hide Names, EntriesApart, NoneShared, Fits, ClaimIsCounted;
  }

  lemma {:induction false} EventWhole(s: Snapshot, e: Event)
    requires Whole(s) && Undisturbed(e)
    ensures Whole(s.(world := Happens(s.world, e)))
  {
    hide Happens, Sound, Names, EntriesApart, Fits, ClaimIsCounted;
    var t := s.(world := Happens(s.world, e));
    assert Apply(s, Env(e)) == t;
    StepKeeps(s, Env(e), {});
    EventKeepsNames(s.world, e);
    EventReadable(s.world, e);
    EventGrows(s.world, e);
    forall j | j in t.running
      ensures Fits(t.world, j, t.running[j])
    {
      EventFits(s, e, j);
    }
    forall j | j in t.world.jobs
      ensures ClaimIsCounted(t, j)
    {
      EventCounts(s, e, j);
    }
  }

  lemma {:induction false} EventReadable(w: World, e: Event)
    requires !e.Garble? && !e.Mend?
    ensures Happens(w, e).garbled == w.garbled
  {
    hide SomebodyAhead;
  }

  /** Writing a job's end, or an intent, touches nothing counted. */
  lemma {:induction false} EndWhole(s: Snapshot, job: JobId, was: Status)
    requires Whole(s) && Reads(s.world, job, was) && was != Finished && (was == Running ==> s.world.jobs[job].pid !in s.world.live)
    requires Sound(s.(world := Finishing(s.world, job, was)), {})
    ensures Whole(s.(world := Finishing(s.world, job, was)))
  {
    hide Sound, EntriesApart;
  }

  lemma {:induction false} AskWhole(s: Snapshot, job: JobId)
    requires Whole(s) && Sound(s.(world := Stopping(s.world, job)), {})
    ensures Whole(s.(world := Stopping(s.world, job)))
  {
    hide Sound, EntriesApart, SomebodyAhead;
  }

  lemma {:induction false} DropWhole(s: Snapshot, job: JobId)
    requires Whole(s) && Allowed(true, s, Drop(job)) && s.settling.None? && Sound(Apply(s, Drop(job)), {})
    ensures Whole(Apply(s, Drop(job)))
  {
    var t := Apply(s, Drop(job));
    assert t.running == s.running - {job} && t.world == s.world && t.settling == Some(Dropped(job, s.running[job]));
    hide Sound, Names;
    assert Fits(s.world, job, s.running[job]);
    forall j | j in t.world.jobs
      ensures ClaimIsCounted(t, j)
    {
      assert ClaimIsCounted(s, j);
    }
  }

  lemma {:induction false} SpawnWhole(s: Snapshot, a: Act)
    requires a.Spawn? && Whole(s) && Allowed(true, s, a) && QuietAct(s, a) && Sound(Apply(s, a), {})
    ensures Whole(Apply(s, a))
  {
    var t := Apply(s, a);
    assert Clear(s.running, a.job, a.gpus);
    assert ClaimIsCounted(s, a.job);
    SpawnApart(s.running, a.job, Entry(a.gpus, a.attempt, s.world.next));
    SpawnNames(s.world, a.job, a.gpus, a.attempt);
    hide Sound, Names, EntriesApart, Clear;
  }

  lemma {:induction false} SpawnApart(running: map<JobId, Entry>, job: JobId, e: Entry)
    requires EntriesApart(running) && NoDup(e.gpus) && Clear(running, job, e.gpus)
    ensures EntriesApart(running[job := e])
  {
    hide NoDup;
    forall j | j in running
      ensures Apart(e.gpus, running[j].gpus)
    {
      ApartBoth(e.gpus, running[j].gpus);
    }
    hide Apart;
  }

  lemma {:induction false} SpawnNames(w: World, job: JobId, gpus: seq<Uuid>, attempt: nat)
    requires Names(w)
    ensures Names(Spawning(w, job, gpus, attempt))
  {
  }

  /** Every step of a quiet run keeps it whole. */
  lemma {:induction false} QuietStep(s: Snapshot, a: Act)
    requires Whole(s) && Allowed(true, s, a) && QuietAct(s, a)
    ensures Whole(Apply(s, a))
  {
    assert Sound(s, {});
    StepKeeps(s, a, {});
    hide Sound, Names, EntriesApart, Fits, Happens, Clear, MayStop;
    match a {
      case Env(e) => EventWhole(s, e);
      case Recheck =>
      case Adopt(_, _) =>
      case Drop(job) => DropWhole(s, job);
      case MoveOn => SettledWhole(s);
      case Died(job, attempt, was) => EndWhole(s, job, was);
      case Dismiss(job) => EndWhole(s, job, Queued);
      case Spawn(_, _, _, _) => SpawnWhole(s, a);
      case Ask(job) => AskWhole(s, job);
    }
  }

  lemma {:induction false} SettledWhole(s: Snapshot)
    requires Whole(s) && QuietAct(s, MoveOn) && Sound(Apply(s, MoveOn), {})
    ensures Whole(Apply(s, MoveOn))
  {
    var t := Apply(s, MoveOn);
    hide Sound, Names, EntriesApart;
    forall j | j in t.world.jobs
      ensures ClaimIsCounted(t, j)
    {
      assert ClaimIsCounted(s, j);
    }
  }

  // Quiet stretches of a log.

  ghost predicate QuietLog(log: Log, from: nat) {
    && from < |log.states| && |log.states| == |log.acts| + 1
    && (forall k :: from <= k < |log.states| ==> Whole(log.states[k]))
    && (forall k :: from <= k < |log.acts| ==> QuietAct(log.states[k], log.acts[k]))
  }

  lemma {:induction false} GrowsQuietly(log: Log, from: nat, a: Act)
    requires QuietLog(log, from) && Allowed(true, Now(log), a) && QuietAct(Now(log), a)
    ensures QuietLog(Grown(log, a), from)
  {
    assert log.states[|log.states| - 1] == Now(log);
    QuietStep(Now(log), a);
    hide Whole, QuietAct, Apply, Allowed;
  }

  // Leaving lasts.

  /** Whatever happens next, a job on its way out is found so afterwards, exactly
      unless its state has become unreadable. */
  lemma {:induction false} LeavingUnlessGarbled(s: Snapshot, e: Event, job: JobId)
    requires Whole(s) && Leaves(s, job)
    ensures IsLeaving(Read(Happens(s.world, e), job), s.running[job]) <==> e != Garble(job)
  {
    assert Fits(s.world, job, s.running[job]);
    if e.Claim? && e.pid in s.world.live {
      assert Counted(s, e.pid);
    }
    hide SomebodyAhead, EntriesApart, NoneShared;
  }

  lemma {:induction false} LeavingStep(s: Snapshot, a: Act, job: JobId)
    requires Whole(s) && Allowed(true, s, a) && QuietAct(s, a) && Leaves(s, job) && a != Drop(job)
    ensures Leaves(Apply(s, a), job) && Apply(s, a).running[job] == s.running[job]
  {
    if a.Env? {
      LeavingUnlessGarbled(s, a.event, job);
    }
    hide Whole, Happens, SomebodyAhead;
  }

  /** Once asked to stop, a job is on its way out. */
  lemma {:induction false} AskedLeaves(s: Snapshot, job: JobId)
    requires Allowed(true, s, Ask(job))
    ensures Leaves(Apply(s, Ask(job)), job)
  {
    hide SomebodyAhead;
  }

  predicate HasEntry(s: Snapshot, job: JobId, e: Entry) {
    job in s.running && s.running[job] == e
  }

  lemma {:induction false} StepHad(log: Log, from: nat, i: nat, k: nat, job: JobId, e: Entry)
    requires Lawful(true, log) && QuietLog(log, from) && from <= i < k < |log.states|
    requires HasEntry(log.states[i], job, e) && HasEntry(log.states[k], job, e)
    ensures HasEntry(log.states[k - 1], job, e)
  {
    hide *;
    LawfulStep(true, log, k - 1);
    QuietAt(log, from, i);
    QuietAt(log, from, k - 1);
    PidsGoUp(log, i, k - 1);
    EntryIsOld(log.states[i], job, e);
    ThereBefore(log.states[k - 1], log.acts[k - 1], job, e);
  }

  lemma {:induction false} EntryIsOld(s: Snapshot, job: JobId, e: Entry)
    requires Whole(s) && HasEntry(s, job, e)
    ensures e.pid < s.world.next
  {
    assert Fits(s.world, job, s.running[job]);
  }

  lemma {:induction false} ThereAt(log: Log, from: nat, i: nat, t: nat, k: nat, job: JobId, e: Entry)
    requires Lawful(true, log) && QuietLog(log, from) && from <= i <= t <= k < |log.states|
    requires HasEntry(log.states[i], job, e) && HasEntry(log.states[k], job, e)
    ensures HasEntry(log.states[t], job, e)
    decreases k
  {
    hide *;
    if t < k {
      StepHad(log, from, i, k, job, e);
      ThereAt(log, from, i, t, k - 1, job, e);
    }
  }

  /** An entry found unchanged later has been there all the while. */
  lemma {:induction false} StillThere(log: Log, from: nat, i: nat, k: nat, job: JobId)
    requires Lawful(true, log) && QuietLog(log, from) && from <= i <= k < |log.states|
    requires job in log.states[i].running && HasEntry(log.states[k], job, log.states[i].running[job])
    ensures forall t :: i <= t <= k ==> HasEntry(log.states[t], job, log.states[i].running[job])
  {
    hide Lawful, QuietLog;
    var e := log.states[i].running[job];
    assert HasEntry(log.states[i], job, e);
    hide HasEntry;
    forall t: nat | i <= t <= k
      ensures HasEntry(log.states[t], job, e)
    {
      ThereAt(log, from, i, t, k, job, e);
    }
  }

  lemma {:induction false} QuietAt(log: Log, from: nat, k: nat)
    requires QuietLog(log, from) && from <= k < |log.states|
    ensures Whole(log.states[k]) && (k < |log.acts| ==> QuietAct(log.states[k], log.acts[k]))
  {
  }

  lemma {:induction false} ThereBefore(s: Snapshot, a: Act, job: JobId, e: Entry)
    requires QuietAct(s, a) && e.pid < s.world.next && HasEntry(Apply(s, a), job, e)
    ensures HasEntry(s, job, e)
  {
    hide Happens, SomebodyAhead;
  }

  lemma {:induction false} PidsGoUp(log: Log, i: nat, k: nat)
    requires Lawful(true, log) && i <= k < |log.states|
    ensures log.states[i].world.next <= log.states[k].world.next
    decreases k
  {
    if i < k {
      PidsGoUp(log, i, k - 1);
      LawfulStep(true, log, k - 1);
      hide Lawful;
      if log.acts[k - 1].Env? {
        EventsDoNotSpawn(log.states[k - 1].world, log.acts[k - 1].event);
      }
      hide Happens, SomebodyAhead;
    }
  }

  lemma {:induction false} LeavingNext(log: Log, from: nat, k: nat, job: JobId, e: Entry)
    requires Lawful(true, log) && QuietLog(log, from) && from <= k && k + 1 < |log.states|
    requires Leaves(log.states[k], job) && HasEntry(log.states[k], job, e) && HasEntry(log.states[k + 1], job, e)
    ensures Leaves(log.states[k + 1], job)
  {
    hide *;
    LawfulStep(true, log, k);
    QuietAt(log, from, k);
    var s, a := log.states[k], log.acts[k];
    DroppedIsGone(s, job);
    HasIt(Apply(s, a), job, e);
    if a != Drop(job) {
      LeavingStep(s, a, job);
    }
  }

  lemma {:induction false} DroppedIsGone(s: Snapshot, job: JobId)
    ensures job !in Apply(s, Drop(job)).running
  {
  }

  lemma {:induction false} HasIt(s: Snapshot, job: JobId, e: Entry)
    requires HasEntry(s, job, e)
    ensures job in s.running && s.running[job] == e
  {
  }

  lemma {:induction false} LeavesAtLast(log: Log, from: nat, i: nat, k: nat, job: JobId, e: Entry)
    requires Lawful(true, log) && QuietLog(log, from) && from <= i <= k < |log.states|
    requires Leaves(log.states[i], job) && HasEntry(log.states[i], job, e) && HasEntry(log.states[k], job, e)
    ensures Leaves(log.states[k], job)
    decreases k
  {
    hide *;
    if i < k {
      StepHad(log, from, i, k, job, e);
      LeavesAtLast(log, from, i, k - 1, job, e);
      LeavingNext(log, from, k - 1, job, e);
    }
  }

  /** From the moment it is, a job on its way out is found so at every moment
      until its entry is dropped. */
  lemma {:induction false} LeavingLasts(log: Log, from: nat, i: nat, k: nat, job: JobId)
    requires Lawful(true, log) && QuietLog(log, from) && from <= i <= k < |log.states|
    requires Leaves(log.states[i], job) && HasEntry(log.states[k], job, log.states[i].running[job])
    ensures forall t :: i <= t <= k ==> Leaves(log.states[t], job) && HasEntry(log.states[t], job, log.states[i].running[job])
  {
    var e := log.states[i].running[job];
    assert HasEntry(log.states[i], job, e);
    hide *;
    StillThere(log, from, i, k, job);
    forall t: nat | i <= t <= k
      ensures Leaves(log.states[t], job) && HasEntry(log.states[t], job, e)
    {
      LeavesAtLast(log, from, i, t, job, e);
    }
  }
}
