/** Which running `auto_preempt` jobs to stop for a waiting one
    (`enough_to_start` in gpuc/host/plan.py). */
module Preempt {
  import opened Lists

  // Cards are only ever compared for equality, and job ids only by their order,
  // so a job id stands for its rank among the id strings.
  type Uuid(==, !new)
  type JobId = int

  /** Dispatch order: `(priority, job_id)`, smallest first. */
  datatype Key = Key(priority: int, jobId: JobId)

  predicate Before(a: Key, b: Key) {
    a.priority < b.priority || (a.priority == b.priority && a.jobId < b.jobId)
  }

  /** A running job whose spec said it may be stopped. `owned` and `borrowed`
      count its cards of each kind; one that has dropped off nvidia-smi is in
      neither count. */
  datatype Preemptable = Preemptable(
    jobId: JobId, priority: int, gpus: seq<Uuid>, started: real, owned: nat, borrowed: nat)
  {
    function SortKey(): Key {
      Key(priority, jobId)
    }

    /** Cards this would hand to a waiting job that may (or may not) borrow. */
    function Frees(borrowing: bool): nat {
      if borrowing then owned + borrowed else owned
    }
  }

  /** `b` sorts strictly before `a` under the ascending key `(priority, started)`. */
  predicate Above(a: Preemptable, b: Preemptable) {
    a.priority > b.priority || (a.priority == b.priority && a.started > b.started)
  }

  /** `sorted(candidates, key=(priority, started), reverse=True)`: descending,
      and stable, as `reverse` keeps equal elements in their given order. */
  function Descending(s: seq<Preemptable>): (r: seq<Preemptable>) {
    if s == [] then [] else Insert(s[0], Descending(s[1..]))
  }

  function Insert(p: Preemptable, s: seq<Preemptable>): (r: seq<Preemptable>)
  {
    if s == [] || !Above(s[0], p) then [p] + s else [s[0]] + Insert(p, s[1..])
  }

  predicate IsDescending(s: seq<Preemptable>) {
    forall i, j :: 0 <= i < j < |s| ==> !Above(s[j], s[i])
  }

  lemma {:induction false} InsertSorts(p: Preemptable, s: seq<Preemptable>)
    requires IsDescending(s)
    ensures IsDescending(Insert(p, s)) && multiset(Insert(p, s)) == multiset{p} + multiset(s)
  {
    if s == [] || !Above(s[0], p) {
      assert forall j :: 0 < j < |s| ==> !Above(s[j], s[0]);
    } else {
      InsertSorts(p, s[1..]);
      assert s == [s[0]] + s[1..];
      forall q | q in Insert(p, s[1..])
        ensures !Above(q, s[0])
      {
        assert q in multiset(Insert(p, s[1..]));
      }
    }
  }

  /** The order stops are taken in is a rearrangement of the candidates with the
      least important first, and among equals the one running the shortest. */
  lemma {:induction false} DescendingSorts(s: seq<Preemptable>)
    ensures IsDescending(Descending(s)) && multiset(Descending(s)) == multiset(s)
    ensures forall i, j :: 0 <= i < j < |Descending(s)| ==>
      var a, b := Descending(s)[i], Descending(s)[j];
      a.priority > b.priority || (a.priority == b.priority && a.started >= b.started)
  {
    if s != [] {
      DescendingSorts(s[1..]);
      InsertSorts(s[0], Descending(s[1..]));
      assert s == [s[0]] + s[1..];
    }
  }

  /** Among candidates of one rank the given order stands: the sort is stable. */
  function OfRank(s: seq<Preemptable>, like: Preemptable): seq<Preemptable> {
    if s == [] then []
    else (if s[0].priority == like.priority && s[0].started == like.started then [s[0]] else []) + OfRank(s[1..], like)
  }

  lemma {:induction false} InsertStable(p: Preemptable, s: seq<Preemptable>, like: Preemptable)
    ensures OfRank(Insert(p, s), like) == OfRank([p], like) + OfRank(s, like)
  {
    if s != [] && Above(s[0], p) {
      InsertStable(p, s[1..], like);
      assert Insert(p, s)[1..] == Insert(p, s[1..]);
    } else {
      assert ([p] + s)[1..] == s;
    }
  }

  lemma {:induction false} DescendingStable(s: seq<Preemptable>, like: Preemptable)
    ensures OfRank(Descending(s), like) == OfRank(s, like)
  {
    if s != [] {
      DescendingStable(s[1..], like);
      InsertStable(s[0], Descending(s[1..]), like);
    }
  }

  /** A candidate worth stopping for the job queued at `key`: behind it in
      dispatch order, and on at least one card it could be given. */
  predicate Eligible(p: Preemptable, key: Key, borrowing: bool) {
    Before(key, p.SortKey()) && p.Frees(borrowing) > 0
  }

  function AllEligible(s: seq<Preemptable>, key: Key, borrowing: bool): seq<Preemptable> {
    if s == [] then []
    else if Eligible(s[0], key, borrowing) then [s[0]] + AllEligible(s[1..], key, borrowing)
    else AllEligible(s[1..], key, borrowing)
  }

  lemma {:induction false} AllEligibleIs(s: seq<Preemptable>, key: Key, borrowing: bool)
    ensures forall p :: p in AllEligible(s, key, borrowing) <==> p in s && Eligible(p, key, borrowing)
  {
    if s != [] {
      AllEligibleIs(s[1..], key, borrowing);
      assert s == [s[0]] + s[1..];
    }
  }

  /** The cards a list of candidates hands over in total. */
  function Freed(s: seq<Preemptable>, borrowing: bool): nat {
    if s == [] then 0 else Freed(s[..|s| - 1], borrowing) + s[|s| - 1].Frees(borrowing)
  }

  /** The candidates in the order they are considered. */
  function Ranked(candidates: seq<Preemptable>, key: Key, borrowing: bool): seq<Preemptable> {
    AllEligible(Descending(candidates), key, borrowing)
  }

  /** The shortest prefix of `s` that frees `gap`, or all of `s`. */
  function Enough(s: seq<Preemptable>, gap: int, borrowing: bool, taken: nat): (k: nat)
    requires taken <= |s|
    ensures taken <= k <= |s|
    ensures k < |s| ==> Freed(s[..k], borrowing) >= gap
    ensures forall j :: taken <= j < k ==> Freed(s[..j], borrowing) < gap
    decreases |s| - taken
  {
    if taken == |s| || Freed(s[..taken], borrowing) >= gap then taken else Enough(s, gap, borrowing, taken + 1)
  }

  /** The shortest prefix that frees `gap`: all of it or nothing. */
  function Shortest(s: seq<Preemptable>, gap: int, borrowing: bool): seq<Preemptable> {
    var chosen := s[..Enough(s, gap, borrowing, 0)];
    if Freed(chosen, borrowing) >= gap then chosen else []
  }

  /** The set to stop. */
  function Cover(candidates: seq<Preemptable>, key: Key, gap: int, borrowing: bool): seq<Preemptable> {
    Shortest(Ranked(candidates, key, borrowing), gap, borrowing)
  }

  lemma {:induction false} FreedGrows(s: seq<Preemptable>, borrowing: bool, k: nat)
    requires k <= |s|
    ensures Freed(s[..k], borrowing) <= Freed(s, borrowing)
    decreases |s|
  {
    if k < |s| {
      FreedGrows(s[..|s| - 1], borrowing, k);
      assert s[..|s| - 1][..k] == s[..k];
    } else {
      assert s[..k] == s;
    }
  }

  lemma {:induction false} ShortestIsExact(s: seq<Preemptable>, gap: int, borrowing: bool)
    ensures var chosen := Shortest(s, gap, borrowing);
            && (gap > 0 ==> (chosen != [] <==> Freed(s, borrowing) >= gap))
            && (gap <= 0 ==> chosen == [])
            && chosen <= s
            && (chosen != [] ==> Freed(chosen, borrowing) >= gap > Freed(chosen[..|chosen| - 1], borrowing))
  {
    var k := Enough(s, gap, borrowing, 0);
    assert s[..0] == [] && Freed([], borrowing) == 0;
    if k == |s| {
      assert s[..k] == s;
    } else {
      FreedGrows(s, borrowing, k);
    }
    if k > 0 {
      assert s[..k][..k - 1] == s[..k - 1];
    }
  }

  lemma {:induction false} RankedIs(candidates: seq<Preemptable>, key: Key, borrowing: bool)
    ensures IsDescending(Ranked(candidates, key, borrowing))
    ensures forall p :: p in Ranked(candidates, key, borrowing) <==> p in candidates && Eligible(p, key, borrowing)
  {
    DescendingSorts(candidates);
    SubsequenceDescends(Descending(candidates), key, borrowing);
    AllEligibleIs(Descending(candidates), key, borrowing);
    forall p
      ensures p in Descending(candidates) <==> p in candidates
    {
      assert p in Descending(candidates) <==> p in multiset(Descending(candidates));
    }
  }

  /** All or nothing, complete, least important first, minimal, and only jobs
      the waiting one is ahead of. */
  lemma {:induction false} CoverIsExact(candidates: seq<Preemptable>, key: Key, gap: int, borrowing: bool)
    ensures var ranked := Ranked(candidates, key, borrowing);
            var chosen := Cover(candidates, key, gap, borrowing);
            && (gap > 0 ==> (chosen != [] <==> Freed(ranked, borrowing) >= gap))
            && (gap <= 0 ==> chosen == [])
            && chosen <= ranked && IsDescending(ranked)
            && (chosen != [] ==> Freed(chosen, borrowing) >= gap > Freed(chosen[..|chosen| - 1], borrowing))
            && (forall p :: p in ranked <==> p in candidates && Eligible(p, key, borrowing))
            && (forall p :: p in chosen ==> p in candidates && Eligible(p, key, borrowing))
  {
    RankedIs(candidates, key, borrowing);
    ShortestIsExact(Ranked(candidates, key, borrowing), gap, borrowing);
    var ranked := Ranked(candidates, key, borrowing);
    var chosen := Cover(candidates, key, gap, borrowing);
    assert forall p :: p in chosen ==> p in ranked;
  }

  function Owned(s: seq<Preemptable>): nat {
    if s == [] then 0 else Owned(s[..|s| - 1]) + s[|s| - 1].owned
  }

  function Borrowed(s: seq<Preemptable>): nat {
    if s == [] then 0 else Borrowed(s[..|s| - 1]) + s[|s| - 1].borrowed
  }

  /** A stopped job's cards count by kind: the borrowed ones only for a job that
      may borrow. */
  lemma {:induction false} FreedIs(s: seq<Preemptable>)
    ensures Freed(s, false) == Owned(s) && Freed(s, true) == Owned(s) + Borrowed(s)
  {
    if s != [] {
      FreedIs(s[..|s| - 1]);
    }
  }

  /** A job behind in dispatch order, on a card that may be given. */
  predicate MayGiveWay(p: Preemptable, key: Key, borrowing: bool) {
    && (p.priority > key.priority || (p.priority == key.priority && p.jobId > key.jobId))
    && (p.owned > 0 || (borrowing && p.borrowed > 0))
  }

  /** In terms of what is known of each job: a set covers the gap or is empty; it
      is empty only if all the jobs behind the waiting one in dispatch order and
      on a card it may be given do not cover it; it is of those jobs only, and
      without its last it falls short. */
  lemma {:induction false} CoverIs(candidates: seq<Preemptable>, key: Key, gap: nat, borrowing: bool)
    requires gap > 0
    ensures var ranked, chosen := Ranked(candidates, key, borrowing), Cover(candidates, key, gap, borrowing);
            && (forall p :: p in ranked <==> p in candidates && MayGiveWay(p, key, borrowing))
            && (forall i, j :: 0 <= i < j < |ranked| ==>
                 ranked[i].priority > ranked[j].priority
                 || (ranked[i].priority == ranked[j].priority && ranked[i].started >= ranked[j].started))
            && chosen <= ranked
            && (chosen == [] <==> Owned(ranked) + (if borrowing then Borrowed(ranked) else 0) < gap)
            && (chosen != [] ==> Owned(chosen) + (if borrowing then Borrowed(chosen) else 0) >= gap)
            && (chosen != [] ==> var less := chosen[..|chosen| - 1]; Owned(less) + (if borrowing then Borrowed(less) else 0) < gap)
  {
    var ranked, chosen := Ranked(candidates, key, borrowing), Cover(candidates, key, gap, borrowing);
    CoverIsExact(candidates, key, gap, borrowing);
    FreedIs(ranked);
    FreedIs(chosen);
    if chosen != [] {
      FreedIs(chosen[..|chosen| - 1]);
    }
    hide Owned, Borrowed, Freed, Ranked, Cover;
  }

  /** Those that may be chosen are taken out in their order. */
  lemma {:induction false} EligibleInOrder(a: seq<Preemptable>, b: seq<Preemptable>, key: Key, borrowing: bool)
    ensures AllEligible(a + b, key, borrowing) == AllEligible(a, key, borrowing) + AllEligible(b, key, borrowing)
    ensures |AllEligible(a, key, borrowing)| <= |a|
  {
    if a == [] {
      assert a + b == b;
    } else {
      assert (a + b)[1..] == a[1..] + b;
      EligibleInOrder(a[1..], b, key, borrowing);
    }
  }

  lemma {:induction false} SubsequenceDescends(s: seq<Preemptable>, key: Key, borrowing: bool)
    requires IsDescending(s)
    ensures IsDescending(AllEligible(s, key, borrowing))
  {
    if s != [] {
      SubsequenceDescends(s[1..], key, borrowing);
      AllEligibleIs(s[1..], key, borrowing);
      assert forall p :: p in s[1..] ==> !Above(p, s[0]);
    }
  }

  /** Distinct candidates give a distinct choice. */
  lemma {:induction false} EligibleCounts(s: seq<Preemptable>, key: Key, borrowing: bool)
    ensures multiset(AllEligible(s, key, borrowing)) <= multiset(s)
  {
    if s != [] {
      EligibleCounts(s[1..], key, borrowing);
      assert s == [s[0]] + s[1..];
    }
  }

  lemma {:induction false} CoverNoDup(candidates: seq<Preemptable>, key: Key, gap: int, borrowing: bool)
    requires NoDup(candidates)
    ensures NoDup(Cover(candidates, key, gap, borrowing))
  {
    var ranked := Ranked(candidates, key, borrowing);
    DescendingSorts(candidates);
    EligibleCounts(Descending(candidates), key, borrowing);
    forall p
      ensures multiset(ranked)[p] <= 1
    {
      OnceInNoDup(candidates, p);
    }
    NoDupOnce(ranked);
    ShortestIsExact(ranked, gap, borrowing);
  }

  lemma {:induction false} NoDupOnce(s: seq<Preemptable>)
    requires forall p :: multiset(s)[p] <= 1
    ensures NoDup(s)
  {
    if s != [] {
      assert s == [s[0]] + s[1..];
      forall p
        ensures multiset(s[1..])[p] <= 1
      {
        assert multiset(s)[p] <= 1;
      }
      NoDupOnce(s[1..]);
      assert multiset(s)[s[0]] <= 1;
      assert s[0] !in multiset(s[1..]);
    }
  }

  lemma {:induction false} OnceInNoDup(s: seq<Preemptable>, p: Preemptable)
    requires NoDup(s)
    ensures multiset(s)[p] <= 1
  {
    if s != [] {
      OnceInNoDup(s[1..], p);
      assert s == [s[0]] + s[1..];
      assert s[0] !in s[1..];
    }
  }

  lemma {:induction false} FreedAppend(s: seq<Preemptable>, p: Preemptable, borrowing: bool)
    ensures Freed(s + [p], borrowing) == Freed(s, borrowing) + p.Frees(borrowing)
  {
    assert (s + [p])[..|s|] == s;
  }

  /** Every prefix of `s` shorter than `k` falls short of the gap. */
  ghost predicate FallShort(s: seq<Preemptable>, k: nat, gap: int, borrowing: bool)
    requires k <= |s|
  {
    forall j :: 0 <= j < k ==> Freed(s[..j], borrowing) < gap
  }

  lemma {:induction false} EligibleHead(chosen: seq<Preemptable>, rest: seq<Preemptable>, key: Key, borrowing: bool)
    requires rest != []
    ensures chosen + AllEligible(rest, key, borrowing)
         == (if Eligible(rest[0], key, borrowing) then chosen + [rest[0]] else chosen)
            + AllEligible(rest[1..], key, borrowing)
  {
  }

  lemma {:induction false} ShortestIs(s: seq<Preemptable>, chosen: seq<Preemptable>, gap: int, borrowing: bool)
    requires chosen <= s && FallShort(s, |chosen|, gap, borrowing)
    requires chosen == s || Freed(chosen, borrowing) >= gap
    ensures Shortest(s, gap, borrowing) == if Freed(chosen, borrowing) >= gap then chosen else []
  {
    assert s[..|chosen|] == chosen;
    EnoughIs(s, gap, borrowing, |chosen|);
  }

  method EnoughToStart(candidates: seq<Preemptable>, key: Key, gap: int, borrowing: bool)
    returns (chosen: seq<Preemptable>)
    ensures chosen == Cover(candidates, key, gap, borrowing)
  {
    hide Freed, AllEligible, Descending, Shortest;
    chosen := [];
    var freed := 0;
    var rest := Descending(candidates);
    ghost var ranked := Ranked(candidates, key, borrowing);
    assert Freed([], borrowing) == 0 by { NothingFreed(borrowing); }
    while rest != [] && freed < gap
      invariant freed == Freed(chosen, borrowing)
      invariant ranked == chosen + AllEligible(rest, key, borrowing)
      invariant FallShort(ranked, |chosen|, gap, borrowing)
      decreases |rest|
    {
      EligibleHead(chosen, rest, key, borrowing);
      assert ranked[..|chosen|] == chosen;
      if Eligible(rest[0], key, borrowing) {
        FreedAppend(chosen, rest[0], borrowing);
        freed := freed + rest[0].Frees(borrowing);
        chosen := chosen + [rest[0]];
      }
      rest := rest[1..];
    }
    if rest == [] {
      NoneEligible(key, borrowing);
    }
    ShortestIs(ranked, chosen, gap, borrowing);
    if freed < gap {
      chosen := [];
    }
  }

  lemma {:induction false} NothingFreed(borrowing: bool)
    ensures Freed([], borrowing) == 0
  {
  }

  lemma {:induction false} NoneEligible(key: Key, borrowing: bool)
    ensures AllEligible([], key, borrowing) == []
  {
  }

  /** `Enough` is the only index with its two properties. */
  lemma {:induction false} EnoughIs(s: seq<Preemptable>, gap: int, borrowing: bool, k: nat)
    requires k <= |s|
    requires forall j :: 0 <= j < k ==> Freed(s[..j], borrowing) < gap
    requires k < |s| ==> Freed(s[..k], borrowing) >= gap
    ensures Enough(s, gap, borrowing, 0) == k
  {
    assert Enough(s, gap, borrowing, 0) >= k;
  }
}
