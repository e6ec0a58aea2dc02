/** What the dispatcher shares a machine with: the job states on disk, the
    runner processes that are alive, and everything that may happen to either
    between two of its own steps. */
module Machine {
  import opened Lists
  import opened Preempt

  /** A process identity (pid, boot and start time), never used twice. */
  type Pid = nat

  datatype Status = Queued | Running | Finished

  datatype Intent = NoIntent | ToPreempt | ToCancel

  datatype Spec = Spec(gpus: nat, mayBorrow: bool, autoPreempt: bool)

  /** `state.json` of one job, and its spec if that can be read. `gpus` and
      `pid` are those of the runner that claimed it. */
  datatype Job = Job(
    status: Status, attempt: nat, gpus: seq<Uuid>, pid: Pid, intent: Intent,
    priority: int, started: real, spec: Option<Spec>)

  /** A runner that has not claimed its job yet, holds it, or has written its
      last state and is still uploading. */
  datatype Phase = Spawned | Claimed | Ended

  datatype Runner = Runner(job: JobId, gpus: seq<Uuid>, attempt: nat, phase: Phase)

  /** `garbled` are the jobs whose state cannot be read just now. */
  datatype World = World(jobs: map<JobId, Job>, live: map<Pid, Runner>, next: Pid, garbled: set<JobId>)

  datatype Event =
    | Submit(job: JobId, priority: int, spec: Option<Spec>)
    | Claim(pid: Pid, at: real)
    | Requeue(pid: Pid)
    | Finish(pid: Pid)
    | Exit(pid: Pid)
    | Cancel(job: JobId)
    | Stop(job: JobId, to: Option<int>)
    | Prioritise(job: JobId, priority: int)
    | Garble(job: JobId)
    | Mend(job: JobId)
    | Foreign(job: JobId, gpus: seq<Uuid>, attempt: nat)

  /** `jobs.read_state` */
  function Read(w: World, job: JobId): Option<Job> {
    if job in w.jobs && job !in w.garbled then Some(w.jobs[job]) else None
  }

  predicate Reads(w: World, job: JobId, status: Status) {
    Read(w, job).Some? && w.jobs[job].status == status
  }

  /** A state on disk that names this card. */
  predicate Claims(w: World, job: JobId, card: Uuid) {
    Reads(w, job, Running) && card in w.jobs[job].gpus
  }

  function Write(w: World, job: JobId, state: Job): World {
    w.(jobs := w.jobs[job := state])
  }

  function AtItsEnd(w: World, pid: Pid): World
    requires pid in w.live
  {
    w.(live := w.live[pid := w.live[pid].(phase := Ended)])
  }

  function Spawning(w: World, job: JobId, gpus: seq<Uuid>, attempt: nat): World {
    w.(live := w.live[w.next := Runner(job, gpus, attempt, Spawned)], next := w.next + 1)
  }

  /** `queue.claim`: a compare-and-set on `(queued, attempt)`. */
  function Claiming(w: World, pid: Pid, at: real): World
    requires pid in w.live
  {
    var r := w.live[pid];
    if r.phase == Spawned && Reads(w, r.job, Queued) && w.jobs[r.job].attempt == r.attempt then
      Write(w, r.job, w.jobs[r.job].(status := Running, gpus := r.gpus, pid := pid, started := at))
        .(live := w.live[pid := r.(phase := Claimed)])
    else w
  }

  /** `queue.next_attempt`: the runner's last word for a preempted attempt. */
  function Requeueing(w: World, pid: Pid): World
    requires pid in w.live
  {
    var r := w.live[pid];
    if r.phase == Claimed && Reads(w, r.job, Running) && w.jobs[r.job].intent == ToPreempt then
      var s := w.jobs[r.job];
      AtItsEnd(Write(w, r.job, s.(status := Queued, attempt := s.attempt + 1, gpus := [], intent := NoIntent)), pid)
    else w
  }

  /** `jobs.finish`, a compare-and-set on the status. */
  function Finishing(w: World, job: JobId, from: Status): World {
    if Reads(w, job, from) then Write(w, job, w.jobs[job].(status := Finished, intent := NoIntent)) else w
  }

  function Cancelling(w: World, job: JobId): World {
    if Reads(w, job, Queued) then Finishing(w, job, Queued)
    else if Reads(w, job, Running) then Write(w, job, w.jobs[job].(intent := ToCancel))
    else w
  }

  predicate WantsCards(s: Job) {
    s.spec.None? || s.spec.value.gpus > 0
  }

  /** Somebody wanting cards is queued ahead of where this job would come back. */
  predicate SomebodyAhead(w: World, job: JobId, priority: int) {
    exists j :: j in w.jobs && Reads(w, j, Queued) && j != job && WantsCards(w.jobs[j])
      && Before(Key(w.jobs[j].priority, j), Key(priority, job))
  }

  function ComesBackAt(w: World, job: JobId, to: Option<int>): int
    requires job in w.jobs
  {
    if to.Some? then to.value else w.jobs[job].priority
  }

  /** `queue.preempt` accepts, to queue the job again at this priority if one is
      given. */
  predicate MayStopTo(w: World, job: JobId, to: Option<int>) {
    Reads(w, job, Running) && w.jobs[job].intent != ToCancel && WantsCards(w.jobs[job]) && SomebodyAhead(w, job, ComesBackAt(w, job, to))
  }

  predicate MayStop(w: World, job: JobId) {
    MayStopTo(w, job, None)
  }

  function StoppingTo(w: World, job: JobId, to: Option<int>): World {
    if MayStopTo(w, job, to) then Write(w, job, w.jobs[job].(intent := ToPreempt, priority := ComesBackAt(w, job, to))) else w
  }

  function Stopping(w: World, job: JobId): World {
    StoppingTo(w, job, None)
  }

  /** `gpuc set --priority`, for a job still queued. */
  function Prioritising(w: World, job: JobId, priority: int): World {
    if Reads(w, job, Queued) then Write(w, job, w.jobs[job].(priority := priority)) else w
  }

  /** One thing happening that is not the dispatcher's doing. */
  function Happens(w: World, e: Event): World {
    match e
    case Submit(job, priority, spec) =>
      if job in w.jobs then w else Write(w, job, Job(Queued, 1, [], 0, NoIntent, priority, 0.0, spec))
    case Claim(pid, at) => if pid in w.live then Claiming(w, pid, at) else w
    case Requeue(pid) => if pid in w.live then Requeueing(w, pid) else w
    case Finish(pid) =>
      if pid in w.live && w.live[pid].phase == Claimed && Read(w, w.live[pid].job).Some?
      then AtItsEnd(Finishing(w, w.live[pid].job, Running), pid) else w
    case Exit(pid) => w.(live := w.live - {pid})
    case Cancel(job) => Cancelling(w, job)
    case Stop(job, to) => StoppingTo(w, job, to)
    case Prioritise(job, priority) => Prioritising(w, job, priority)
    case Garble(job) => w.(garbled := w.garbled + {job})
    case Mend(job) => w.(garbled := w.garbled - {job})
    case Foreign(job, gpus, attempt) => Spawning(w, job, gpus, attempt)
  }

  /** One thing after the other. */
  function Passed(w: World, events: seq<Event>): World {
    if events == [] then w else Happens(Passed(w, events[..|events| - 1]), events[|events| - 1])
  }

  // Runners and the states they write.

  /** No runner is left that could still claim this job. */
  predicate Unclaimable(w: World, job: JobId) {
    forall p :: p in w.live && w.live[p].job == job ==> w.live[p].phase != Spawned
  }

  /** A job nobody can claim keeps its attempt: it may be ended, or queued
      again by the runner that holds it, and nothing else. */
  predicate Steady(v: World, w: World, job: JobId) {
    && (job in w.jobs && w.jobs[job].status == Running ==>
         job in v.jobs && v.jobs[job].status == Running
         && w.jobs[job].attempt == v.jobs[job].attempt && w.jobs[job].pid == v.jobs[job].pid)
    && (job in w.jobs && job in v.jobs && w.jobs[job].status == Queued ==>
         (v.jobs[job].status == Running && v.jobs[job].attempt < w.jobs[job].attempt)
         || (v.jobs[job].status == Queued && w.jobs[job].attempt == v.jobs[job].attempt))
    && (job in v.jobs ==> job in w.jobs)
  }

  predicate Older(a: Phase, b: Phase) {
    match a
    case Spawned => true
    case Claimed => b != Spawned
    case Ended => b == Ended
  }

  /** Runners only go on and exit. */
  predicate RunnersGoOn(v: World, w: World) {
    forall p :: p in w.live ==>
      && p in v.live
      && w.live[p] == v.live[p].(phase := w.live[p].phase)
      && Older(v.live[p].phase, w.live[p].phase)
  }

  /** What can have changed on a machine with one dispatcher, between two of
      its steps. */
  ghost predicate Calm(v: World, w: World) {
    RunnersGoOn(v, w) && forall job :: Unclaimable(v, job) ==> Unclaimable(w, job) && Steady(v, w, job)
  }

  lemma {:induction false} EventRunners(w: World, e: Event)
    requires !e.Foreign?
    ensures RunnersGoOn(w, Happens(w, e))
  {
  }

  lemma {:induction false} EventSteady(w: World, e: Event, job: JobId)
    requires !e.Foreign? && Unclaimable(w, job)
    ensures Unclaimable(Happens(w, e), job) && Steady(w, Happens(w, e), job)
  {
    EventRunners(w, e);
    hide SomebodyAhead;
  }

  lemma {:induction false} EventIsCalm(w: World, e: Event)
    requires !e.Foreign?
    ensures Calm(w, Happens(w, e))
  {
    hide Happens, Steady, Unclaimable;
    EventRunners(w, e);
    forall job | Unclaimable(w, job)
      ensures Unclaimable(Happens(w, e), job) && Steady(w, Happens(w, e), job)
    {
      EventSteady(w, e, job);
    }
  }

  lemma {:induction false} CalmTwice(u: World, v: World, w: World)
    requires Calm(u, v) && Calm(v, w)
    ensures Calm(u, w)
  {
    hide Unclaimable;
  }

  lemma {:induction false} CalmHere(w: World)
    ensures Calm(w, w)
  {
  }

  /** A runner that holds a job is the one its state names, and the other way
      round. */
  ghost predicate Names(w: World) {
    && (forall p :: p in w.live ==> p < w.next)
    && (forall j :: j in w.jobs && w.jobs[j].status == Running ==> Named(w, j))
    && (forall p :: p in w.live && w.live[p].phase == Claimed ==>
         w.live[p].job in w.jobs && w.jobs[w.live[p].job].status == Running && w.jobs[w.live[p].job].pid == p)
  }

  predicate Named(w: World, j: JobId)
    requires j in w.jobs
  {
    var p := w.jobs[j].pid;
    && p < w.next
    && (p in w.live ==>
         w.live[p] == Runner(j, w.jobs[j].gpus, w.jobs[j].attempt, Claimed))
  }

  /** Nothing that happens on the machine mixes them up. */
  lemma {:induction false} EventKeepsNames(w: World, e: Event)
    requires Names(w)
    ensures Names(Happens(w, e))
  {
    hide SomebodyAhead;
  }

  /** Jobs stay, with their specs; attempts only go up, and an end is final. */
  ghost predicate Grows(v: World, w: World) {
    forall j :: j in v.jobs ==>
      && j in w.jobs && w.jobs[j].spec == v.jobs[j].spec
      && v.jobs[j].attempt <= w.jobs[j].attempt
      && (v.jobs[j].status == Finished ==> w.jobs[j].status == Finished)
  }

  lemma {:induction false} EventGrows(w: World, e: Event)
    ensures Grows(w, Happens(w, e))
  {
    hide SomebodyAhead;
  }
}
