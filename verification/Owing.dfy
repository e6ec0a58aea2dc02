/** Why a stop in `project` is never for nothing: the job it was made for starts
    in the next round, at the same moment. */
module Owing {
  import opened Lists
  import opened Preempt
  import opened Rule
  import opened RuleTheorems
  import opened Simulation
  import opened Rounds

  /** The cards of a projection, owned and shared, and what is beyond it: how
      many shared cards somebody else is on, and the entries with no card. */
  datatype Setup = Setup(
    owned: seq<Uuid>, shared: seq<Uuid>, theirs: nat, ownedMissing: seq<string>, sharedMissing: seq<string>)

  predicate SetupOk(x: Setup) {
    NoDup(x.owned) && NoDup(x.shared) && Apart(x.owned, x.shared)
  }

  function Busy(sim: Sim): set<Uuid> {
    set c | c in sim.releases && !Past(sim.releases[c], sim.clock)
  }

  function Jobs(es: seq<Entry>): (r: seq<Preemptable>)
    ensures |r| == |es|
    ensures forall i :: 0 <= i < |es| ==> r[i] == es[i].job
  {
    seq(|es|, i requires 0 <= i < |es| => es[i].job)
  }

  /** The pool each round plans over: nothing is ever on its way back, since a
      stop is taken to be instant. */
  function PassHost(x: Setup, es: seq<Entry>): Host {
    Host(|x.owned|, |x.shared| + x.theirs, x.ownedMissing, x.sharedMissing, Elems(x.shared), [], Jobs(es))
  }

  function PassState(x: Setup, sim: Sim): State {
    Fresh(Without(x.owned, Busy(sim)), Without(x.shared, Busy(sim)), x.theirs)
  }

  function Round(x: Setup, sim: Sim): (ds: seq<Decision>)
    ensures |ds| == |sim.pending|
  {
    Decisions(PassHost(x, sim.stoppable), PassState(x, sim), sim.pending)
  }

  ghost predicate Complete(x: Setup, sim: Sim) {
    forall c :: c in sim.releases <==> c in x.owned || c in x.shared
  }

  lemma {:induction false} PassSeparate(x: Setup, sim: Sim)
    requires SetupOk(x)
    ensures Separate(PassState(x, sim))
  {
    WithoutNoDup(x.owned, Busy(sim));
    WithoutNoDup(x.shared, Busy(sim));
  }

  lemma {:induction false} RoundIsSound(x: Setup, sim: Sim)
    requires SetupOk(x) && Complete(x, sim)
    ensures Sound(sim, sim.pending, Round(x, sim))
  {
    hide Decide, Next, After;
    var h, s, rs, ds := PassHost(x, sim.stoppable), PassState(x, sim), sim.pending, Round(x, sim);
    PassSeparate(x, sim);
    forall i | 0 <= i < |ds| && ds[i].Assigned?
      ensures NoDup(ds[i].gpus) && forall c :: c in ds[i].gpus ==> c in sim.releases && Past(sim.releases[c], sim.clock)
    {
      AssignedIsSafe(h, s, rs, i);
    }
    forall i, j | 0 <= i < j < |ds| && ds[i].Assigned? && ds[j].Assigned?
      ensures Apart(ds[i].gpus, ds[j].gpus)
    {
      AssignedAreDisjoint(h, s, rs, i, j);
    }
  }

  // The first job that waits.

  lemma {:induction false} WithoutNone(cards: seq<Uuid>)
    ensures Without(cards, {}) == cards
  {
    WithoutNothing(cards, {});
  }

  lemma {:induction false} NothingWaits(h: Host, s: State, r: Request)
    requires !Decide(h, s, r).Holds?
    ensures Next(h, s, r).held == s.held && Next(h, s, r).covered == s.covered && Next(h, s, r).stuck == s.stuck
  {
    hide Without, Within, Free, Back, Fillable, Cover;
  }

  lemma {:induction false} NothingHeld(h: Host, s: State, rs: seq<Request>, m: nat)
    requires m <= |rs| && forall i :: 0 <= i < m ==> !DecisionAt(h, s, rs, i).Holds?
    ensures var t := After(h, s, rs, m); t.held == s.held && t.covered == s.covered && t.stuck == s.stuck
  {
    hide Decide, Next;
    if m > 0 {
      NothingHeld(h, s, rs, m - 1);
      assert !DecisionAt(h, s, rs, m - 1).Holds?;
      NothingWaits(h, After(h, s, rs, m - 1), rs[m - 1]);
    }
  }

  /** With nothing on its way back, a waiting job keeps free cards only and is
      short of the rest. */
  lemma {:induction false} WaitsWithAGap(h: Host, s: State, r: Request)
    requires h.coming == [] && Decide(h, s, r).Holds?
    ensures Failure(h, r).None?
    ensures Keeps(h, s, r) == Free(s, r)
    ensures Decide(h, s, r).gap == r.gpus - |Free(s, r)| > 0
    ensures !s.stuck ==> Decide(h, s, r).preempts == Ids(Cover(h.preemptable, r.SortKey(), r.gpus - |Free(s, r)|, r.borrows))
  {
    hide Cover, Fillable;
    assert Returning(h, s, r) == [];
    assert Back(h, s, r) == [];
  }

  // A job no card of this host will ever be enough for.

  predicate Hopeless(x: Setup, r: Request) {
    r.gpus > |x.owned| + if r.borrows then |x.shared| else 0
  }

  lemma {:induction false} HopelessIsPassed(x: Setup, es: seq<Entry>, s: State, r: Request)
    requires Hopeless(x, r) && s.theirs == x.theirs
    requires |s.ownedFree| <= |x.owned| && |s.sharedFree| <= |x.shared|
    ensures Next(PassHost(x, es), s, r) == s
  {
    hide Fillable, Cover;
  }

  lemma {:induction false} PassedIsHopeless(x: Setup, es: seq<Entry>, s: State, r: Request)
    requires s.theirs == x.theirs
    requires Decide(PassHost(x, es), s, r).Fails? || Decide(PassHost(x, es), s, r).SteppedOver?
    ensures Hopeless(x, r)
  {
    hide Fillable, Cover, Free, Back;
  }

  // The debt, and its payment.

  /** The cards the job may use that are free now. */
  function Usable(x: Setup, sim: Sim, borrows: bool): set<Uuid> {
    (Elems(x.owned) + if borrows then Elems(x.shared) else {}) - Busy(sim)
  }

  predicate Owed(x: Setup, sim: Sim, r: Request) {
    && r in sim.pending
    && r.gpus <= |x.owned| + (if r.borrows then |x.shared| + x.theirs else 0)
    && |Usable(x, sim, r.borrows)| >= r.gpus
    && forall q :: q in sim.pending && Before(q.SortKey(), r.SortKey()) ==> Hopeless(x, q)
  }

  lemma {:induction false} HopelessPrefix(x: Setup, es: seq<Entry>, s: State, rs: seq<Request>, m: nat)
    requires m <= |rs| && forall i :: 0 <= i < m ==> Hopeless(x, rs[i])
    requires s.theirs == x.theirs && |s.ownedFree| <= |x.owned| && |s.sharedFree| <= |x.shared|
    ensures After(PassHost(x, es), s, rs, m) == s
  {
    hide Next, PassHost, Hopeless;
    if m > 0 {
      HopelessPrefix(x, es, s, rs, m - 1);
      HopelessIsPassed(x, es, s, rs[m - 1]);
    }
  }

  lemma {:induction false} UsableCount(x: Setup, sim: Sim, borrows: bool)
    requires SetupOk(x)
    ensures var s := PassState(x, sim);
            |Usable(x, sim, borrows)| == |s.ownedFree| + if borrows then |s.sharedFree| else 0
  {
    hide Busy, Without, NoDup;
    WithoutCount(x.owned, Busy(sim));
    WithoutCount(x.shared, Busy(sim));
    var o, b := Elems(x.owned) - Busy(sim), Elems(x.shared) - Busy(sim);
    if borrows {
      assert Usable(x, sim, borrows) == o + b;
      assert Elems(x.owned) !! Elems(x.shared);
      UnionCount(o, b);
    } else {
      assert Usable(x, sim, borrows) == o;
    }
  }

  lemma {:induction false} FitsFirst(x: Setup, es: seq<Entry>, s: State, r: Request)
    requires r.gpus <= |x.owned| + (if r.borrows then |x.shared| + x.theirs else 0)
    requires s.held == map[] && r.gpus <= |s.ownedFree| + if r.borrows then |s.sharedFree| else 0
    ensures Decide(PassHost(x, es), s, r).Assigned?
  {
    hide Fillable, Cover;
    assert s.held.Keys == {};
    WithoutNone(s.ownedFree);
    WithoutNone(s.sharedFree);
  }

  /** The job a stop was made for is started by the very next round. */
  lemma {:induction false} OwedIsPaid(x: Setup, sim: Sim, m: nat)
    requires SetupOk(x) && Sorted(sim.pending) && m < |sim.pending| && Owed(x, sim, sim.pending[m])
    ensures Round(x, sim)[m].Assigned?
  {
    hide Decide, Next, After;
    var s, rs := PassState(x, sim), sim.pending;
    UsableCount(x, sim, rs[m].borrows);
    forall i | 0 <= i < m
      ensures Hopeless(x, rs[i])
    {
      assert Before(rs[i].SortKey(), rs[m].SortKey());
    }
    HopelessPrefix(x, sim.stoppable, s, rs, m);
    FitsFirst(x, sim.stoppable, s, rs[m]);
  }

  // How the debt arises: the cards the stops free make up what was missing.

  /** The cards of these jobs that one that may (or may not) borrow could use. */
  function Handed(es: seq<Entry>, shared: set<Uuid>, borrows: bool): set<Uuid> {
    AllCards(es) - if borrows then {} else shared
  }

  predicate CardsApart(es: seq<Entry>) {
    forall i, j :: 0 <= i < j < |es| ==> Apart(es[i].job.gpus, es[j].job.gpus)
  }

  predicate Counted(e: Entry, shared: set<Uuid>) {
    && NoDup(e.job.gpus)
    && e.job.owned == |Without(e.job.gpus, shared)| && e.job.borrowed == |Within(e.job.gpus, shared)|
  }

  lemma {:induction false} FreesIs(e: Entry, shared: set<Uuid>, borrows: bool)
    requires Counted(e, shared)
    ensures e.job.Frees(borrows) == |Elems(e.job.gpus) - if borrows then {} else shared|
  {
    SplitCount(e.job.gpus, shared);
    NoDupCount(e.job.gpus);
    WithoutCount(e.job.gpus, shared);
    assert Elems(e.job.gpus) - {} == Elems(e.job.gpus);
  }

  lemma {:induction false} HandedStep(es: seq<Entry>, shared: set<Uuid>, borrows: bool)
    requires es != [] && DistinctEntries(es) && CardsApart(es) && Counted(es[|es| - 1], shared)
    ensures |Handed(es, shared, borrows)| == |Handed(es[..|es| - 1], shared, borrows)| + es[|es| - 1].job.Frees(borrows)
  {
    hide NoDup, Without, Within, DistinctEntries, CardsApart, Counted, AllCards, EntryIds, Apart;
    var rest, e, no := es[..|es| - 1], es[|es| - 1], if borrows then {} else shared;
    LastEntry(es);
    FreesIs(e, shared, borrows);
    ApartFromLast(es);
    hide Elems;
    var a, b := AllCards(rest), Elems(e.job.gpus);
    assert (a + b) - no == (a - no) + (b - no);
    UnionCount(a - no, b - no);
  }

  lemma {:induction false} FreedStep(es: seq<Entry>, borrows: bool)
    requires es != []
    ensures Freed(Jobs(es), borrows) == Freed(Jobs(es[..|es| - 1]), borrows) + es[|es| - 1].job.Frees(borrows)
  {
    assert Jobs(es)[..|es| - 1] == Jobs(es[..|es| - 1]);
  }

  lemma {:induction false} HandedCount(es: seq<Entry>, shared: set<Uuid>, borrows: bool)
    requires DistinctEntries(es) && CardsApart(es) && forall e :: e in es ==> Counted(e, shared)
    ensures |Handed(es, shared, borrows)| == Freed(Jobs(es), borrows)
    decreases |es|
  {
    if es == [] {
      assert Handed(es, shared, borrows) == {};
    } else {
      LastFine(es, shared);
      HandedCount(es[..|es| - 1], shared, borrows);
      HandedStep(es, shared, borrows);
      FreedStep(es, borrows);
    }
  }

  lemma {:induction false} LastFine(es: seq<Entry>, shared: set<Uuid>)
    requires es != [] && DistinctEntries(es) && CardsApart(es) && forall e :: e in es ==> Counted(e, shared)
    ensures var rest := es[..|es| - 1];
            DistinctEntries(rest) && CardsApart(rest) && (forall e :: e in rest ==> Counted(e, shared))
    ensures Counted(es[|es| - 1], shared)
  {
  }

  lemma {:induction false} ApartFromLast(es: seq<Entry>)
    requires es != [] && CardsApart(es)
    ensures AllCards(es[..|es| - 1]) !! Elems(es[|es| - 1].job.gpus)
  {
    var rest, e := es[..|es| - 1], es[|es| - 1];
    forall c | c in AllCards(rest)
      ensures c !in e.job.gpus
    {
      var f :| f in rest && c in f.job.gpus;
      var i :| 0 <= i < |rest| && rest[i] == f;
      assert es[i] == f;
    }
  }

  // The stoppable jobs a decision names.

  function EntryFor(es: seq<Entry>, id: JobId): (e: Entry)
    requires id in EntryIds(es)
    ensures e in es && e.job.jobId == id
  {
    if es[0].job.jobId == id then es[0]
    else
      assert id in EntryIds(es[1..]) by {
        var f :| f in es && f.job.jobId == id;
        assert f in es[1..];
      }
      EntryFor(es[1..], id)
  }

  function Chosen(es: seq<Entry>, ids: seq<JobId>): (r: seq<Entry>)
    requires forall id :: id in ids ==> id in EntryIds(es)
    ensures |r| == |ids|
    ensures forall i :: 0 <= i < |ids| ==> r[i] == EntryFor(es, ids[i])
  {
    seq(|ids|, i requires 0 <= i < |ids| => EntryFor(es, ids[i]))
  }

  lemma {:induction false} ChosenIs(es: seq<Entry>, ps: seq<Preemptable>)
    requires DistinctEntries(es) && NoDup(ps) && forall p :: p in ps ==> p in Jobs(es)
    ensures forall id :: id in Ids(ps) ==> id in EntryIds(es)
    ensures var r := Chosen(es, Ids(ps));
            Jobs(r) == ps && DistinctEntries(r) && forall e :: e in r ==> e in es
  {
    forall i | 0 <= i < |ps|
      ensures Ids(ps)[i] in EntryIds(es) && EntryFor(es, Ids(ps)[i]).job == ps[i]
    {
      assert ps[i] in Jobs(es);
      var j :| 0 <= j < |es| && Jobs(es)[j] == ps[i];
      assert es[j] in es;
      var e := EntryFor(es, ps[i].jobId);
      var k :| 0 <= k < |es| && es[k] == e;
      assert k == j;
    }
    var r := Chosen(es, Ids(ps));
    assert Jobs(r) == ps;
    forall i, j | 0 <= i < j < |r|
      ensures r[i].job.jobId != r[j].job.jobId
    {
      assert r[i].job == ps[i] && r[j].job == ps[j];
      SameEntry(es, r[i].job.jobId, r[j].job.jobId);
    }
  }

  lemma {:induction false} SameEntry(es: seq<Entry>, a: JobId, b: JobId)
    requires a in EntryIds(es) && b in EntryIds(es)
    ensures a == b ==> EntryFor(es, a) == EntryFor(es, b)
  {
  }

  predicate FirstStuck(ds: seq<Decision>, m: nat) {
    m < |ds| && ds[m].Holds? && forall i :: 0 <= i < m ==> !ds[i].Holds?
  }

  /** The cards the stuck job could take, in this round. */
  function Kept(x: Setup, sim: Sim, m: nat): seq<Uuid>
    requires m < |sim.pending|
  {
    Free(After(PassHost(x, sim.stoppable), PassState(x, sim), sim.pending, m), sim.pending[m])
  }

  /** The stuck job, its gap, and whom stopping for it would take. */
  lemma {:induction false} StuckFacts(x: Setup, sim: Sim, m: nat)
    requires FirstStuck(Round(x, sim), m)
    ensures var d, r := Round(x, sim)[m], sim.pending[m];
            && r.gpus <= |x.owned| + (if r.borrows then |x.shared| + x.theirs else 0)
            && d.gap == r.gpus - |Kept(x, sim, m)| > 0
            && d.preempts == Ids(Cover(Jobs(sim.stoppable), r.SortKey(), d.gap, r.borrows))
  {
    hide Decide, Next, After, Cover, Free;
    var h, s, rs := PassHost(x, sim.stoppable), PassState(x, sim), sim.pending;
    assert forall i :: 0 <= i < m ==> Round(x, sim)[i] == DecisionAt(h, s, rs, i);
    NothingHeld(h, s, rs, m);
    WaitsWithAGap(h, After(h, s, rs, m), rs[m]);
  }

  /** The cards it could take are free, and no other job is given them. */
  lemma {:induction false} KeptStayFree(x: Setup, sim: Sim, m: nat)
    requires SetupOk(x) && FirstStuck(Round(x, sim), m) && Round(x, sim)[m].preempts != []
    ensures NoDup(Kept(x, sim, m))
    ensures forall c :: c in Kept(x, sim, m) ==>
      && Untouched(Round(x, sim), |sim.pending|, c) && c !in Busy(sim)
      && (c in x.owned || (sim.pending[m].borrows && c in x.shared))
  {
    hide Decide, Next, After, Free;
    var h, s, rs, ds := PassHost(x, sim.stoppable), PassState(x, sim), sim.pending, Round(x, sim);
    var t := After(h, s, rs, m);
    PassSeparate(x, sim);
    StaysSeparate(h, s, rs, m);
    FreeNoDup(t, rs[m]);
    FreeIsUnheld(t, rs[m]);
    WaitsWithAGap(h, t, rs[m]);
    StillFree(h, s, rs, m);
    forall c, i | c in Kept(x, sim, m) && 0 <= i < |ds| && ds[i].Assigned?
      ensures c !in ds[i].gpus
    {
      KeptFromOthers(x, sim, m, i);
    }
    hide Separate, FirstStuck, NoDup;
  }

  lemma {:induction false} KeptFromOthers(x: Setup, sim: Sim, m: nat, i: nat)
    requires FirstStuck(Round(x, sim), m) && Round(x, sim)[m].preempts != []
    requires i < |sim.pending| && Round(x, sim)[i].Assigned?
    ensures forall c :: c in Kept(x, sim, m) ==> c !in Round(x, sim)[i].gpus
  {
    hide Decide, Next, After, Free;
    var h, s, rs := PassHost(x, sim.stoppable), PassState(x, sim), sim.pending;
    var t := After(h, s, rs, m);
    FreeIsUnheld(t, rs[m]);
    WaitsWithAGap(h, t, rs[m]);
    if i < m {
      TakenIsGone(h, s, rs, i, m);
    } else if i > m {
      CoveredKeepsItsCards(h, s, rs, m, i);
    }
  }

  /** Nobody left in front of it could ever run. */
  lemma {:induction false} OnlyHopelessAhead(x: Setup, sim: Sim, m: nat, q: Request)
    requires FirstStuck(Round(x, sim), m) && Sorted(sim.pending)
    requires Unstarted(sim.pending, Round(x, sim), |sim.pending|, q)
    requires Before(q.SortKey(), sim.pending[m].SortKey())
    ensures Hopeless(x, q)
  {
    hide Decide, Next;
    var h, s, rs, ds := PassHost(x, sim.stoppable), PassState(x, sim), sim.pending, Round(x, sim);
    var i :| 0 <= i < |rs| && rs[i] == q && (i >= |rs| || !ds[i].Assigned?);
    assert i > m ==> Before(rs[m].SortKey(), rs[i].SortKey());
    assert i < m;
    GoesOnward(h, s, rs, 0, i);
    PassedIsHopeless(x, sim.stoppable, After(h, s, rs, i), q);
  }

  lemma {:induction false} LiveIsBusy(sim: Sim, shared: set<Uuid>, e: Entry)
    requires EntriesOk(sim, shared) && e in sim.stoppable && e.job.jobId in sim.ends && Live(sim, e)
    ensures forall c :: c in e.job.gpus ==> c in Busy(sim)
    ensures Counted(e, shared)
  {
    assert EntryOk(sim, shared, e);
  }

  lemma {:induction false} AllBusy(sim: Sim, shared: set<Uuid>, es: seq<Entry>)
    requires EntriesOk(sim, shared) && AllStoppable(sim, es)
    ensures forall e :: e in es ==> Counted(e, shared)
    ensures AllCards(es) <= Busy(sim)
  {
    hide Busy, Counted, Live, EntriesOk;
    forall e | e in es
      ensures Counted(e, shared) && forall c :: c in e.job.gpus ==> c in Busy(sim)
    {
      LiveIsBusy(sim, shared, e);
    }
  }

  /** The moment after the starts and the stops of a round. */
  ghost predicate RoundEnds(x: Setup, sim: Sim, u: Sim, es: seq<Entry>) {
    && u.clock == sim.clock && u.releases.Keys == sim.releases.Keys
    && forall c :: c in sim.releases ==>
         && (c in AllCards(es) ==> u.releases[c] == Some(sim.clock))
         && (c !in AllCards(es) && Untouched(Round(x, sim), |sim.pending|, c) ==> u.releases[c] == sim.releases[c])
  }

  lemma {:induction false} KeptUsable(x: Setup, sim: Sim, u: Sim, m: nat, es: seq<Entry>)
    requires SetupOk(x) && Complete(x, sim) && RoundEnds(x, sim, u, es)
    requires FirstStuck(Round(x, sim), m) && Round(x, sim)[m].preempts != []
    ensures Elems(Kept(x, sim, m)) <= Usable(x, u, sim.pending[m].borrows)
    ensures Elems(Kept(x, sim, m)) !! Busy(sim)
  {
    hide Kept, AllCards, Untouched, Round, FirstStuck, NoDup, Apart;
    KeptStayFree(x, sim, m);
  }

  lemma {:induction false} HandedUsable(x: Setup, sim: Sim, u: Sim, es: seq<Entry>, borrows: bool)
    requires Complete(x, sim) && RoundEnds(x, sim, u, es) && AllCards(es) <= Busy(sim)
    ensures Handed(es, Elems(x.shared), borrows) <= Usable(x, u, borrows)
  {
    hide AllCards, Untouched, Round;
  }

  /** Cards free in this round, and those of the stopped jobs, are enough. */
  lemma {:induction false} EnoughFreed(x: Setup, sim: Sim, u: Sim, m: nat, es: seq<Entry>)
    requires SetupOk(x) && Complete(x, sim) && EntriesOk(sim, Elems(x.shared)) && RoundEnds(x, sim, u, es)
    requires FirstStuck(Round(x, sim), m) && Round(x, sim)[m].preempts != []
    requires AllStoppable(sim, es) && CardsApart(es)
    requires Freed(Jobs(es), sim.pending[m].borrows) >= Round(x, sim)[m].gap
    ensures |Usable(x, u, sim.pending[m].borrows)| >= sim.pending[m].gpus
  {
    hide Kept, Round, DistinctEntries, CardsApart, Counted, EntriesOk, Busy, AllCards, Usable, RoundEnds,
         Complete, NoDup, Freed, Jobs, Apart, Live;
    var borrows, kept := sim.pending[m].borrows, Kept(x, sim, m);
    var handed := Handed(es, Elems(x.shared), borrows);
    StuckFacts(x, sim, m);
    KeptStayFree(x, sim, m);
    NoDupCount(kept);
    AllBusy(sim, Elems(x.shared), es);
    HandedCount(es, Elems(x.shared), borrows);
    KeptUsable(x, sim, u, m, es);
    HandedUsable(x, sim, u, es, borrows);
    UnionCount(Elems(kept), handed);
    SubsetCount(Elems(kept) + handed, Usable(x, u, borrows));
  }

  /** Whom the round stops. */
  lemma {:induction false} StopsAre(x: Setup, sim: Sim, all: seq<Request>, m: nat)
    requires Ok(sim, Elems(x.shared), all) && (forall e :: e in sim.stoppable ==> e.job.jobId in sim.ends && Live(sim, e))
    requires FirstStuck(Round(x, sim), m)
    ensures var d := Round(x, sim)[m];
            && (forall id :: id in d.preempts ==> id in EntryIds(sim.stoppable))
            && var es := Chosen(sim.stoppable, d.preempts);
               && AllStoppable(sim, es) && CardsApart(es)
               && (es != [] ==> Freed(Jobs(es), sim.pending[m].borrows) >= d.gap)
               && forall e :: e in es ==> Before(sim.pending[m].SortKey(), e.again.SortKey())
  {
    hide Round, Cover, EntryOk, Freed;
    var d, r, jobs := Round(x, sim)[m], sim.pending[m], Jobs(sim.stoppable);
    var ps := Cover(jobs, r.SortKey(), d.gap, r.borrows);
    StuckFacts(x, sim, m);
    CoverIsExact(jobs, r.SortKey(), d.gap, r.borrows);
    assert NoDup(jobs);
    CoverNoDup(jobs, r.SortKey(), d.gap, r.borrows);
    ChosenIs(sim.stoppable, ps);
    var es := Chosen(sim.stoppable, Ids(ps));
    hide Chosen;
    forall i, j | 0 <= i < j < |es|
      ensures Apart(es[i].job.gpus, es[j].job.gpus)
    {
      assert es[i] in sim.stoppable && es[j] in sim.stoppable;
    }
    forall e | e in es
      ensures Before(r.SortKey(), e.again.SortKey())
    {
      EntryKeys(sim, Elems(x.shared), e);
      assert e.job in Jobs(es);
    }
  }

  lemma {:induction false} EntryKeys(sim: Sim, shared: set<Uuid>, e: Entry)
    requires EntriesOk(sim, shared) && e in sim.stoppable
    ensures e.job.SortKey() == e.again.SortKey()
  {
    assert EntryOk(sim, shared, e);
  }

  /** A round that stops jobs leaves the stuck one owed a start. */
  lemma {:induction false} DebtArises(x: Setup, sim: Sim, t: Sim, u: Sim, m: nat, es: seq<Entry>)
    requires SetupOk(x) && Complete(x, sim) && EntriesOk(sim, Elems(x.shared)) && Sorted(sim.pending)
    requires FirstStuck(Round(x, sim), m) && Round(x, sim)[m].preempts != []
    requires Underway(sim, t, sim.pending, Round(x, sim), |sim.pending|)
    requires AllStoppable(sim, es) && CardsApart(es)
    requires Freed(Jobs(es), sim.pending[m].borrows) >= Round(x, sim)[m].gap
    requires forall e :: e in es ==> Before(sim.pending[m].SortKey(), e.again.SortKey())
    requires Stopped(t, u, es)
    ensures Owed(x, u.(pending := ByKey(u.pending)), sim.pending[m])
  {
    hide Round, Usable, EntriesOk, CardsApart, Freed, Jobs, NoDup, Apart, DistinctEntries, Live, ByKey;
    var r := sim.pending[m];
    var v := u.(pending := ByKey(u.pending));
    assert RoundEnds(x, sim, u, es) by {
      hide Again, Unstarted;
    }
    EnoughFreed(x, sim, u, m, es);
    assert Usable(x, v, r.borrows) == Usable(x, u, r.borrows) by { SameUsable(x, u, v, r.borrows); }
    StuckFacts(x, sim, m);
    hide AllCards, Untouched;
    ByKeyMembers(u.pending);
    assert Unstarted(sim.pending, Round(x, sim), |sim.pending|, r);
    forall q | q in v.pending && Before(q.SortKey(), r.SortKey())
      ensures Hopeless(x, q)
    {
      HopelessLeft(x, sim, t, u, m, es, q);
    }
  }

  lemma {:induction false} HopelessLeft(x: Setup, sim: Sim, t: Sim, u: Sim, m: nat, es: seq<Entry>, q: Request)
    requires FirstStuck(Round(x, sim), m) && Sorted(sim.pending)
    requires Underway(sim, t, sim.pending, Round(x, sim), |sim.pending|) && Stopped(t, u, es)
    requires forall e :: e in es ==> Before(sim.pending[m].SortKey(), e.again.SortKey())
    requires q in u.pending && Before(q.SortKey(), sim.pending[m].SortKey())
    ensures Hopeless(x, q)
  {
    hide Round, Untouched, AllCards, Sorted;
    assert q in t.pending || q in Again(es);
    AgainIs(es, q);
    OnlyHopelessAhead(x, sim, m, q);
  }

  lemma {:induction false} SameUsable(x: Setup, u: Sim, v: Sim, borrows: bool)
    requires u.releases == v.releases && u.clock == v.clock
    ensures Usable(x, u, borrows) == Usable(x, v, borrows)
  {
  }

  lemma {:induction false} AgainIs(es: seq<Entry>, q: Request)
    ensures q in Again(es) <==> exists e :: e in es && e.again == q
    decreases |es|
  {
    if es != [] {
      AgainIs(es[..|es| - 1], q);
      assert es == es[..|es| - 1] + [es[|es| - 1]];
    }
  }

  lemma {:induction false} InsertMembers(r: Request, rs: seq<Request>)
    ensures forall x :: x in InsertByKey(r, rs) <==> x == r || x in rs
  {
    if rs != [] && Before(rs[0].SortKey(), r.SortKey()) {
      InsertMembers(r, rs[1..]);
      assert rs == [rs[0]] + rs[1..];
    }
  }

  lemma {:induction false} ByKeyMembers(rs: seq<Request>)
    ensures forall x :: x in ByKey(rs) <==> x in rs
  {
    if rs != [] {
      ByKeyMembers(rs[1..]);
      InsertMembers(rs[0], ByKey(rs[1..]));
      assert rs == [rs[0]] + rs[1..];
    }
  }
}
