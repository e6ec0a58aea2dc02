/** What one turn of `project` has before it, and what starting and stopping a
    job comes to, card by card and job by job. */
module Turning {
  import opened Lists
  import opened Preempt
  import opened Rule
  import opened Simulation
  import opened Rounds
  import opened Owing
  import opened Replay

  predicate FreeNow(v: Sim, c: Uuid) {
    c in v.releases ==> v.releases[c].Some? && v.releases[c].value <= v.clock
  }

  /** A job that has not ended by the clock, or whose end nothing can tell. */
  predicate StillOn(v: Sim, job: JobId) {
    job in v.ends && (v.ends[job].Some? ==> v.ends[job].value > v.clock)
  }

  predicate MayBeStopped(v: Sim, p: Preemptable) {
    exists e :: e in v.stoppable && e.job == p && StillOn(v, p.jobId)
  }

  /** The rule has before it the cards whose holder is through, of each kind, and
      every stoppable job that has not ended; everything on this host is counted,
      the shared cards in other hands too; nothing is on its way. */
  lemma {:induction false} RoundSees(x: Setup, v: Sim)
    requires Ending(v) && SetupOk(x)
    ensures var h, t := PassHost(x, Prune(v).stoppable), PassState(x, Prune(v));
            && (forall c :: c in t.ownedFree <==> c in x.owned && FreeNow(v, c))
            && (forall c :: c in t.sharedFree <==> c in x.shared && FreeNow(v, c))
            && NoDup(t.ownedFree) && NoDup(t.sharedFree)
            && (forall p :: p in h.preemptable <==> MayBeStopped(v, p))
            && t.theirs == x.theirs && t.held == map[] && t.covered == {} && !t.stuck
            && h.ownedPresent == |x.owned| && h.sharedVisible == |x.shared| + x.theirs && h.coming == []
            && (forall c :: c in h.shared <==> c in x.shared)
            && h.ownedAbsent == x.ownedMissing && h.sharedAbsent == x.sharedMissing
    ensures Prune(v).pending == v.pending && Prune(v).releases == v.releases && Prune(v).clock == v.clock && Prune(v).starts == v.starts
  {
    LiveOnlyIs(v, v.stoppable);
    WithoutNoDup(x.owned, Busy(v));
    WithoutNoDup(x.shared, Busy(v));
    var s := Prune(v);
    assert Busy(s) == Busy(v);
    hide LiveOnly;
    var h := PassHost(x, s.stoppable);
    forall p
      ensures p in h.preemptable <==> MayBeStopped(v, p)
    {
      if p in h.preemptable {
        var i :| 0 <= i < |h.preemptable| && h.preemptable[i] == p;
        assert s.stoppable[i] in s.stoppable;
      }
      if e :| e in v.stoppable && e.job == p && StillOn(v, p.jobId) {
        assert e in s.stoppable;
        var i :| 0 <= i < |s.stoppable| && s.stoppable[i] == e;
        assert h.preemptable[i] == p;
      }
    }
  }

  predicate EndsAt(at: Option<real>, clock: real, estimate: Option<real>) {
    if estimate.Some? then at == Some(clock + estimate.value) else at == None
  }

  /** A job that is started: its first start is kept; its cards are free again
      after its estimate, or nothing can say when; and if it fills it may be
      stopped from now on, for those cards and since this moment, to come back
      as the same request. */
  lemma {:induction false} StartedIs(sim: Sim, shared: set<Uuid>, r: Request, cards: seq<Uuid>)
    requires Distinct(sim.pending) && r in sim.pending && r.jobId !in EntryIds(sim.stoppable)
    ensures var t := Start(sim, shared, r, cards);
            && t.clock == sim.clock
            && t.starts.Keys == sim.starts.Keys + {r.jobId} && (r.jobId !in sim.starts ==> t.starts[r.jobId] == sim.clock)
            && (forall id :: id in sim.starts ==> t.starts[id] == sim.starts[id])
            && t.releases.Keys == sim.releases.Keys + Elems(cards)
            && (forall c :: c in cards ==> EndsAt(t.releases[c], sim.clock, r.estimate))
            && (forall c :: c in sim.releases && c !in cards ==> t.releases[c] == sim.releases[c])
            && (forall q :: q in t.pending <==> q in sim.pending && q.jobId != r.jobId)
            && (!r.fills || cards == [] ==> t.stoppable == sim.stoppable && t.ends == sim.ends)
            && (r.fills && cards != [] ==>
                 && |t.stoppable| == |sim.stoppable| + 1 && t.stoppable[..|sim.stoppable|] == sim.stoppable
                 && var e := t.stoppable[|sim.stoppable|];
                    && e.again == r && e.job.jobId == r.jobId && e.job.priority == r.priority
                    && e.job.gpus == cards && e.job.started == sim.clock
                    && e.job.borrowed == |Within(cards, shared)| && e.job.owned + e.job.borrowed == |cards|
                    && t.ends.Keys == sim.ends.Keys + {r.jobId} && EndsAt(t.ends[r.jobId], sim.clock, r.estimate)
                    && forall id :: id in sim.ends && id != r.jobId ==> t.ends[id] == sim.ends[id])
  {
    RemoveIs(sim.pending, r);
    PutNew(sim.stoppable, Started(sim, shared, r, cards));
    hide Remove, Put, EntryIds, Within, Distinct;
  }

  /** A job that is stopped: its cards are free at once, it is stoppable no more,
      and its request is in the queue again. */
  lemma {:induction false} StoppedIs(sim: Sim, e: Entry)
    requires DistinctEntries(sim.stoppable) && e in sim.stoppable
    ensures var t := Stop(sim, e);
            && t.clock == sim.clock && t.starts == sim.starts && t.ends == sim.ends
            && t.releases.Keys == sim.releases.Keys + Elems(e.job.gpus)
            && (forall c :: c in e.job.gpus ==> t.releases[c] == Some(sim.clock))
            && (forall c :: c in sim.releases && c !in e.job.gpus ==> t.releases[c] == sim.releases[c])
            && t.pending == sim.pending + [e.again]
            && (forall f :: f in t.stoppable <==> f in sim.stoppable && f.job.jobId != e.job.jobId)
  {
    PopIs(sim.stoppable, e.job.jobId);
    hide Pop, DistinctEntries;
  }
}
