/** When a launch is clear of every claim that is on disk as it is made, and not
    only of those that stood while the claims were read again. */
module Clearance {
  import opened Lists
  import opened Preempt
  import opened Machine
  import opened Ledger
  import opened Bookkeeping

  /** No claim on disk names one of these cards. */
  ghost predicate ClearOfClaims(w: World, gpus: seq<Uuid>) {
    forall j, c :: Claims(w, j, c) ==> c !in gpus
  }

  /** A runner of this job claims it on this card. */
  predicate ClaimsIt(w: World, e: Event, job: JobId, card: Uuid) {
    && e.Claim? && e.pid in w.live && w.live[e.pid].phase == Spawned
    && w.live[e.pid].job == job && card in w.live[e.pid].gpus
  }

  /** Claims come on disk by a runner claiming its job, or by a state becoming
      readable. */
  lemma {:induction false} ClaimArises(w: World, e: Event, job: JobId, card: Uuid)
    requires !Claims(w, job, card) && Claims(Happens(w, e), job, card)
    ensures ClaimsIt(w, e, job, card) || e == Mend(job)
  {
    hide SomebodyAhead;
  }

  /** The claim came on disk by this step, and has stood since. */
  ghost predicate CameAt(log: Log, t: nat, k: nat, job: JobId, card: Uuid)
    requires k < |log.states| && k <= |log.acts|
  {
    && t < k && log.acts[t].Env?
    && (ClaimsIt(log.states[t].world, log.acts[t].event, job, card) || log.acts[t].event == Mend(job))
    && !Claims(log.states[t].world, job, card)
    && (forall u :: t < u <= k ==> Claims(log.states[u].world, job, card))
  }

  ghost predicate CameLate(log: Log, k: nat, job: JobId, card: Uuid)
    requires k < |log.states| && k < |log.acts| && log.acts[k].Spawn?
  {
    exists t: nat :: log.acts[k].since < t && CameAt(log, t, k, job, card)
  }

  lemma {:induction false} CameHere(alone: bool, log: Log, i: nat, k: nat, job: JobId, card: Uuid)
    requires Lawful(alone, log) && i < k < |log.acts| && k < |log.states| && log.acts[i].Env?
    requires Standing(log.states, i + 1, k, job, card) && !Claims(log.states[i].world, job, card)
    ensures CameAt(log, i, k, job, card)
  {
    LawfulStep(alone, log, i);
    hide Lawful, Happens, Claims, ClaimsIt;
    assert Claims(log.states[i + 1].world, job, card);
    ClaimArises(log.states[i].world, log.acts[i].event, job, card);
  }

  lemma {:induction false} StandsToo(states: seq<Snapshot>, i: nat, k: nat, job: JobId, card: Uuid)
    requires i < k < |states| && Standing(states, i + 1, k, job, card) && Claims(states[i].world, job, card)
    ensures Standing(states, i, k, job, card)
  {
    hide Claims;
  }

  lemma {:induction false} StandsHere(states: seq<Snapshot>, k: nat, job: JobId, card: Uuid)
    requires k < |states| && Claims(states[k].world, job, card)
    ensures Standing(states, k, k, job, card)
  {
    hide Claims;
  }

  lemma {:induction false} LawfulBounds(alone: bool, log: Log)
    requires Lawful(alone, log)
    ensures |log.states| == |log.acts| + 1
  {
    hide Allowed, Apply, Rechecked;
  }

  /** A claim there at the end of a stretch of events was there all the while, or
      came in it. */
  lemma {:induction false} StoodOrCame(alone: bool, log: Log, i: nat, k: nat, job: JobId, card: Uuid)
    requires Lawful(alone, log) && i <= k < |log.acts| && Claims(log.states[k].world, job, card)
    requires forall t :: i <= t < k ==> log.acts[t].Env?
    ensures Standing(log.states, i, k, job, card) || exists t: nat :: i <= t && CameAt(log, t, k, job, card)
    decreases k - i
  {
    hide *;
    LawfulBounds(alone, log);
    if i == k {
      StandsHere(log.states, k, job, card);
    } else {
      StoodOrCame(alone, log, i + 1, k, job, card);
      if Standing(log.states, i + 1, k, job, card) {
        if Claims(log.states[i].world, job, card) {
          StandsToo(log.states, i, k, job, card);
        } else {
          CameHere(alone, log, i, k, job, card);
        }
      }
    }
  }

  lemma {:induction false} IsRechecked(alone: bool, log: Log, k: nat)
    requires Lawful(alone, log) && k < |log.acts| && log.acts[k].Spawn?
    ensures Rechecked(log.states, log.acts, k) && Clear(log.states[k].running, log.acts[k].job, log.acts[k].gpus)
    ensures |log.states| == |log.acts| + 1
  {
    assert Allowed(alone, log.states[k], log.acts[k]);
    hide Rechecked;
  }

  /** A launch is on a card some claim names exactly when that claim came on disk
      after the claims began to be read again for it. */
  lemma {:induction false} ClearUnlessLate(alone: bool, log: Log, k: nat)
    requires Lawful(alone, log) && k < |log.acts| && log.acts[k].Spawn?
    ensures k < |log.states|
    ensures ClearOfClaims(log.states[k].world, log.acts[k].gpus) <==> forall j, c :: c in log.acts[k].gpus ==> !CameLate(log, k, j, c)
  {
    IsRechecked(alone, log, k);
    var since, gpus := log.acts[k].since, log.acts[k].gpus;
    forall j, c | c in gpus
      ensures Claims(log.states[k].world, j, c) <==> CameLate(log, k, j, c)
    {
      if Claims(log.states[k].world, j, c) {
        StoodSinceOrLate(alone, log, k, j, c);
      }
      hide Claims, ClaimsIt, Lawful;
    }
    hide Lawful, CameLate, Claims, Clear;
  }

  lemma {:induction false} StoodSinceOrLate(alone: bool, log: Log, k: nat, job: JobId, card: Uuid)
    requires Lawful(alone, log) && k < |log.acts| < |log.states| && log.acts[k].Spawn? && Rechecked(log.states, log.acts, k)
    requires Claims(log.states[k].world, job, card) && card in log.acts[k].gpus
    ensures CameLate(log, k, job, card)
  {
    var since := log.acts[k].since;
    StoodOrCame(alone, log, since + 1, k, job, card);
    LawfulStep(alone, log, since);
    StoodBefore(log.states, since, k, job, card);
    hide Lawful, Claims, Standing;
  }

  lemma {:induction false} StoodBefore(states: seq<Snapshot>, since: nat, k: nat, job: JobId, card: Uuid)
    requires since < k < |states| && states[since + 1] == states[since]
    ensures Standing(states, since + 1, k, job, card) ==> Standing(states, since, k, job, card)
  {
    hide Claims;
    assert Standing(states, since + 1, k, job, card) ==> Claims(states[since + 1].world, job, card);
  }

  /** No card of an entry is launched on. */
  lemma {:induction false} NotCounted(running: map<JobId, Entry>, job: JobId, gpus: seq<Uuid>, card: Uuid)
    requires Clear(running, job, gpus) && card in gpus
    ensures forall j :: j in running ==> card !in running[j].gpus
  {
    forall j | j in running
      ensures card !in running[j].gpus
    {
      assert Apart(running[j].gpus, gpus);
    }
  }

  /** Alone on the machine, the claim of a runner that is to be launched beside
      is one of an entry: only a state that becomes readable again can come late. */
  lemma {:induction false} AloneOnlyMends(log: Log, k: nat, strays: set<Pid>, job: JobId, card: Uuid)
    requires Lawful(true, log) && k < |log.acts| && log.acts[k].Spawn? && card in log.acts[k].gpus
    requires log.acts[k].since < |log.states| && Sound(log.states[log.acts[k].since], strays)
    requires forall p :: p in strays ==> p < log.states[log.acts[k].since].world.next
    ensures k < |log.states|
    ensures CameLate(log, k, job, card) ==> exists t :: log.acts[k].since < t < k && log.acts[t] == Env(Mend(job))
  {
    IsRechecked(true, log, k);
    if CameLate(log, k, job, card) {
      var t: nat :| log.acts[k].since < t && CameAt(log, t, k, job, card);
      NoCardTwice(log, strays, log.acts[k].since, t);
      SameEntries(true, log, t, k);
      hide Lawful;
      ClaimerIsCounted(log.states[t], log.acts[t].event, strays, job, card);
      NotCounted(log.states[k].running, log.acts[k].job, log.acts[k].gpus, card);
      hide Claims, ClaimsIt, Clear, Sound, Rechecked;
    }
  }

  lemma {:induction false} ClaimerIsCounted(s: Snapshot, e: Event, strays: set<Pid>, job: JobId, card: Uuid)
    requires Sound(s, strays)
    ensures ClaimsIt(s.world, e, job, card) ==> job in s.running && card in s.running[job].gpus
  {
    if ClaimsIt(s.world, e, job, card) {
      assert e.pid !in strays;
      assert Counted(s, e.pid);
    }
  }

  lemma {:induction false} SameEntries(alone: bool, log: Log, i: nat, k: nat)
    requires Lawful(alone, log) && i <= k < |log.states| && forall t :: i <= t < k ==> log.acts[t].Env?
    ensures log.states[k].running == log.states[i].running
    decreases k
  {
    if i < k {
      SameEntries(alone, log, i, k - 1);
      LawfulStep(alone, log, k - 1);
      hide Lawful, Happens;
    }
  }

  /** And then its runner is dead, if the dispatcher counts every live one. */
  lemma {:induction false} AloneClaimsAreDead(log: Log, k: nat, job: JobId, card: Uuid)
    requires Lawful(true, log) && k < |log.acts| && log.acts[k].Spawn? && card in log.acts[k].gpus
    requires k < |log.states| && Sound(log.states[k], {}) && Names(log.states[k].world) && Claims(log.states[k].world, job, card)
    ensures log.states[k].world.jobs[job].pid !in log.states[k].world.live
  {
    IsRechecked(true, log, k);
    hide Lawful, Rechecked;
    NotCounted(log.states[k].running, log.acts[k].job, log.acts[k].gpus, card);
    LiveIsCounted(log.states[k], job);
    hide Clear, Sound, Names;
  }

  lemma {:induction false} LiveIsCounted(s: Snapshot, job: JobId)
    requires Sound(s, {}) && Names(s.world) && Reads(s.world, job, Running)
    ensures s.world.jobs[job].pid in s.world.live ==> job in s.running && s.running[job].gpus == s.world.jobs[job].gpus
  {
    assert Named(s.world, job);
    if s.world.jobs[job].pid in s.world.live {
      assert Counted(s, s.world.jobs[job].pid);
    }
  }
}
