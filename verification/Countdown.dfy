/** Why `project` ends: the queue, read as a binary number with the most urgent
    job as its top bit, counts down. */
module Countdown {
  import opened Lists
  import opened Preempt
  import opened Rule
  import opened Simulation
  import opened Rounds
  import opened Owing

  function Pow2(n: nat): nat {
    if n == 0 then 1 else 2 * Pow2(n - 1)
  }

  /** The jobs of `ids` as a binary number, the first of `all` its top bit. */
  function Weight(all: seq<Request>, ids: set<JobId>): nat {
    if all == [] then 0
    else (if all[0].jobId in ids then Pow2(|all| - 1) else 0) + Weight(all[1..], ids)
  }

  lemma {:induction false} WeightBelow(all: seq<Request>, ids: set<JobId>)
    ensures Weight(all, ids) < Pow2(|all|)
  {
    if all != [] {
      WeightBelow(all[1..], ids);
    }
  }

  lemma {:induction false} WeightGrows(all: seq<Request>, a: set<JobId>, b: set<JobId>)
    requires a <= b
    ensures Weight(all, a) <= Weight(all, b)
  {
    if all != [] {
      WeightGrows(all[1..], a, b);
    }
  }

  /** Giving up one job for any number of jobs behind it is a smaller number. */
  lemma {:induction false} WeightDrops(all: seq<Request>, a: set<JobId>, b: set<JobId>, j: nat)
    requires j < |all| && all[j].jobId in b && all[j].jobId !in a
    requires forall i :: 0 <= i < j && all[i].jobId in a ==> all[i].jobId in b
    ensures Weight(all, a) < Weight(all, b)
  {
    if j == 0 {
      WeightBelow(all[1..], a);
    } else {
      forall i | 0 <= i < j - 1 && all[1..][i].jobId in a
        ensures all[1..][i].jobId in b
      {
        assert all[i + 1].jobId in a;
      }
      WeightDrops(all[1..], a, b, j - 1);
      assert all[0].jobId in a ==> all[0].jobId in b;
    }
  }

  lemma {:induction false} WeightLosesOne(all: seq<Request>, a: set<JobId>, b: set<JobId>, r: Request)
    requires a <= b && r in all && r.jobId in b && r.jobId !in a
    ensures Weight(all, a) < Weight(all, b)
  {
    var j :| 0 <= j < |all| && all[j] == r;
    WeightDrops(all, a, b, j);
  }

  /** The release times still to come. */
  function Later(sim: Sim): set<Uuid> {
    set c | c in sim.releases && sim.releases[c].Some? && sim.releases[c].value > sim.clock
  }

  function Outstanding(sim: Sim, owed: Option<Request>): set<JobId> {
    RequestIds(sim.pending) - if owed.Some? then {owed.value.jobId} else {}
  }

  /** Everything a round starts leaves the queue, the job it was owed included. */
  lemma {:induction false} StartsShrink(sim: Sim, t: Sim, rs: seq<Request>, ds: seq<Decision>, all: seq<Request>, owed: Option<Request>)
    requires |ds| == |rs| && sim.pending == rs && Distinct(rs) && (forall r :: r in rs ==> r in all)
    requires Underway(sim, t, rs, ds, |rs|)
    requires owed.Some? ==> exists m :: 0 <= m < |rs| && rs[m] == owed.value && ds[m].Assigned?
    ensures RequestIds(t.pending) <= Outstanding(sim, owed)
    ensures Weight(all, RequestIds(t.pending)) <= Weight(all, Outstanding(sim, owed))
    ensures owed.None? && (exists i :: 0 <= i < |ds| && ds[i].Assigned?) ==>
      Weight(all, RequestIds(t.pending)) < Weight(all, Outstanding(sim, owed))
  {
    hide Weight, Before;
    forall r | r in t.pending
      ensures r in rs && (owed.Some? ==> r.jobId != owed.value.jobId)
    {
      assert Unstarted(rs, ds, |rs|, r);
    }
    WeightGrows(all, RequestIds(t.pending), Outstanding(sim, owed));
    if owed.None? && exists i :: 0 <= i < |ds| && ds[i].Assigned? {
      var i :| 0 <= i < |ds| && ds[i].Assigned?;
      forall r | r in t.pending
        ensures r.jobId != rs[i].jobId
      {
        assert Unstarted(rs, ds, |rs|, r);
      }
      assert rs[i] in sim.pending;
      WeightLosesOne(all, RequestIds(t.pending), Outstanding(sim, owed), rs[i]);
    }
  }

  /** A stop makes the queue a smaller number once the job it is for counts as
      started: what comes back sorts behind that job. */
  lemma {:induction false} StopsShrink(t: Sim, u: Sim, es: seq<Entry>, all: seq<Request>, r: Request)
    requires Sorted(all) && Distinct(all) && r in all && r in t.pending
    requires Stopped(t, u, es)
    requires forall e :: e in es ==> e.again in all && Before(r.SortKey(), e.again.SortKey())
    ensures Weight(all, RequestIds(ByKey(u.pending)) - {r.jobId}) < Weight(all, RequestIds(t.pending))
  {
    hide Weight, ByKey, AllCards;
    var a, b := RequestIds(ByKey(u.pending)) - {r.jobId}, RequestIds(t.pending);
    ByKeyMembers(u.pending);
    var j :| 0 <= j < |all| && all[j] == r;
    forall i | 0 <= i < j && all[i].jobId in a
      ensures all[i].jobId in b
    {
      var q :| q in u.pending && q.jobId == all[i].jobId;
      assert q in t.pending || q in Again(es);
      AgainIs(es, q);
      NotAgain(es, all, i, j, q);
    }
    WeightDrops(all, a, b, j);
  }

  lemma {:induction false} NotAgain(es: seq<Entry>, all: seq<Request>, i: nat, j: nat, q: Request)
    requires i < j < |all| && Sorted(all) && Distinct(all) && q.jobId == all[i].jobId
    requires forall e :: e in es ==> e.again in all && Before(all[j].SortKey(), e.again.SortKey())
    ensures forall e :: e in es ==> e.again != q
  {
    assert Before(all[i].SortKey(), all[j].SortKey());
    forall e | e in es
      ensures e.again != q
    {
      SameId(all, e.again, all[i]);
    }
  }

  /** The next release after the clock. */
  function NextRelease(cards: seq<Uuid>, sim: Sim): (at: Option<real>)
    requires forall c :: c in cards ==> c in sim.releases
  {
    if cards == [] then None
    else
      var rest := NextRelease(cards[1..], sim);
      var mine := sim.releases[cards[0]];
      if mine.Some? && mine.value > sim.clock && (rest.None? || mine.value < rest.value) then mine else rest
  }

  lemma {:induction false} NextReleaseIs(cards: seq<Uuid>, sim: Sim)
    requires forall c :: c in cards ==> c in sim.releases
    ensures NextRelease(cards, sim).None? ==> forall c :: c in cards ==> c !in Later(sim)
    ensures NextRelease(cards, sim).Some? ==>
      && NextRelease(cards, sim).value > sim.clock
      && (exists c :: c in cards && sim.releases[c] == NextRelease(cards, sim))
      && forall c :: c in cards && c in Later(sim) ==> sim.releases[c].value >= NextRelease(cards, sim).value
  {
    if cards != [] {
      NextReleaseIs(cards[1..], sim);
      assert cards == [cards[0]] + cards[1..];
    }
  }

  /** Moving on to it leaves fewer to come. */
  lemma {:induction false} LaterShrinks(cards: seq<Uuid>, sim: Sim)
    requires (forall c :: c in cards ==> c in sim.releases) && NextRelease(cards, sim).Some?
    ensures var t := sim.(clock := NextRelease(cards, sim).value);
            t.clock > sim.clock && |Later(t)| < |Later(sim)|
  {
    NextReleaseIs(cards, sim);
    var t := sim.(clock := NextRelease(cards, sim).value);
    hide NextRelease;
    var c :| c in cards && sim.releases[c] == Some(t.clock);
    assert c in Later(sim) && c !in Later(t);
    assert Later(t) <= Later(sim) - {c};
    SubsetCount(Later(t), Later(sim) - {c});
  }
}
