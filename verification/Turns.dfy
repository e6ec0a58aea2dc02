/** The same over any number of passes, however cards come back in between. */
module Turns {
  import opened Lists
  import opened Preempt
  import opened Rule
  import opened RuleTheorems
  import opened Livelock
  import Owing

  /** A host of owned cards as a pass finds it: the queue up to and including
      the job watched, the cards free, those on their way back, how many cards
      there are, and the entries that name none. */
  datatype Scene = Scene(
    ahead: seq<Request>, free: seq<Uuid>, coming: seq<Uuid>, present: nat, absent: seq<string>, sharedAbsent: seq<string>)

  /** The pass itself, over that queue and whoever is behind it. */
  datatype Move = Dispatch(behind: seq<Request>, preemptable: seq<Preemptable>, patient: bool)

  function HostOf(w: Scene, preemptable: seq<Preemptable>): Host {
    Host(w.present, 0, w.absent, w.sharedAbsent, {}, w.coming, preemptable)
  }

  function Deal(w: Scene, m: Move): (ds: seq<Decision>)
    ensures |ds| == |w.ahead| + |m.behind|
  {
    Decisions(HostOf(w, m.preemptable), Fresh(w.free, [], 0), w.ahead + m.behind)
  }

  /** A launched job leaves the queue, and so does one that failed, unless
      nvidia-smi is being waited for. */
  predicate Leaves(d: Decision, patient: bool) {
    d.Assigned? || (d.Fails? && !patient)
  }

  function Left(rs: seq<Request>, ds: seq<Decision>, patient: bool, k: nat): seq<Request>
    requires k <= |rs| <= |ds|
  {
    if k == 0 then []
    else Left(rs, ds, patient, k - 1) + if Leaves(ds[k - 1], patient) then [] else [rs[k - 1]]
  }

  function GivenOut(ds: seq<Decision>, k: nat): set<Uuid>
    requires k <= |ds|
  {
    if k == 0 then {} else GivenOut(ds, k - 1) + if ds[k - 1].Assigned? then Elems(ds[k - 1].gpus) else {}
  }

  /** What the pass leaves behind it. */
  function Step(w: Scene, m: Move): Scene {
    var ds := Deal(w, m);
    w.(ahead := Left(w.ahead, ds, m.patient, |w.ahead|), free := Without(w.free, GivenOut(ds, |ds|)))
  }

  /** However cards moved since: none that was free or on its way back is
      neither any more. */
  predicate Settles(v: Scene, w: Scene) {
    && w.present == v.present && NoDup(w.free) && NoDup(w.coming) && Apart(w.free, w.coming)
    && Elems(v.free) + Elems(v.coming) <= Elems(w.free) + Elems(w.coming)
  }

  /** The cards free and on their way back cover the queue up to the job
      watched, which could run on this host. */
  predicate CoveredFor(w: Scene) {
    && NoDup(w.free) && NoDup(w.coming) && Apart(w.free, w.coming)
    && (forall r :: r in w.ahead ==> !r.borrows)
    && w.ahead != [] && w.ahead[|w.ahead| - 1].gpus <= w.present
    && Total(HostOf(w, []), w.ahead, |w.ahead|) <= |w.free| + |w.coming|
  }

  predicate Waits(w: Scene, job: Request) {
    w.ahead != [] && w.ahead[|w.ahead| - 1] == job
  }

  // What a pass takes from the free cards is what it takes off the queue.

  function Spent(ds: seq<Decision>, k: nat): nat
    requires k <= |ds|
  {
    if k == 0 then 0 else Spent(ds, k - 1) + if ds[k - 1].Assigned? then |ds[k - 1].gpus| else 0
  }

  predicate Dealt(free: seq<Uuid>, ds: seq<Decision>) {
    && (forall i :: 0 <= i < |ds| && ds[i].Assigned? ==> NoDup(ds[i].gpus) && forall c :: c in ds[i].gpus ==> c in free)
    && (forall i, j :: 0 <= i < j < |ds| && ds[i].Assigned? && ds[j].Assigned? ==> Apart(ds[i].gpus, ds[j].gpus))
  }

  lemma {:induction false} GivenOutIs(ds: seq<Decision>, k: nat, c: Uuid)
    requires k <= |ds|
    ensures c in GivenOut(ds, k) <==> exists i :: 0 <= i < k && ds[i].Assigned? && c in ds[i].gpus
  {
    if k > 0 {
      GivenOutIs(ds, k - 1, c);
    }
  }

  lemma {:induction false} GivenOutCount(free: seq<Uuid>, ds: seq<Decision>, k: nat)
    requires Dealt(free, ds) && k <= |ds|
    ensures |GivenOut(ds, k)| == Spent(ds, k) && GivenOut(ds, k) <= Elems(free)
  {
    if k > 0 {
      GivenOutCount(free, ds, k - 1);
      var d := ds[k - 1];
      if d.Assigned? {
        forall c | c in GivenOut(ds, k - 1)
          ensures c !in d.gpus
        {
          GivenOutIs(ds, k - 1, c);
        }
        NoDupCount(d.gpus);
        UnionCount(GivenOut(ds, k - 1), Elems(d.gpus));
      }
    }
  }

  lemma {:induction false} FreeAfter(free: seq<Uuid>, ds: seq<Decision>)
    requires NoDup(free) && Dealt(free, ds)
    ensures |Without(free, GivenOut(ds, |ds|))| == |free| - Spent(ds, |ds|)
    ensures NoDup(Without(free, GivenOut(ds, |ds|)))
  {
    hide Dealt, GivenOut, Without;
    GivenOutCount(free, ds, |ds|);
    WithoutCount(free, GivenOut(ds, |ds|));
    WithoutNoDup(free, GivenOut(ds, |ds|));
    NoDupCount(free);
    assert Elems(free) == (Elems(free) - GivenOut(ds, |ds|)) + GivenOut(ds, |ds|);
    UnionCount(Elems(free) - GivenOut(ds, |ds|), GivenOut(ds, |ds|));
  }

  /** Each decision of this stretch starts a job on what it asked for, fails one
      that needs nothing, or leaves it in the queue. */
  predicate Square(h: Host, rs: seq<Request>, ds: seq<Decision>, k: nat) {
    k <= |rs| <= |ds| && forall i :: 0 <= i < k ==>
      (ds[i].Assigned? ==> |ds[i].gpus| == Needs(h, rs[i])) && (ds[i].Fails? ==> Needs(h, rs[i]) == 0)
  }

  lemma {:induction false} TotalAppend(h: Host, rs: seq<Request>, r: Request)
    ensures Total(h, rs + [r], |rs| + 1) == Total(h, rs, |rs|) + Needs(h, r)
  {
    TotalPrefix(h, rs, [r], |rs|);
  }

  lemma {:induction false} TotalPrefix(h: Host, rs: seq<Request>, more: seq<Request>, k: nat)
    requires k <= |rs|
    ensures Total(h, rs + more, k) == Total(h, rs, k)
  {
    if k > 0 {
      TotalPrefix(h, rs, more, k - 1);
    }
  }

  lemma {:induction false} LeftTotal(h: Host, rs: seq<Request>, ds: seq<Decision>, patient: bool, k: nat)
    requires Square(h, rs, ds, k)
    ensures var left := Left(rs, ds, patient, k); Total(h, left, |left|) + Spent(ds, k) == Total(h, rs, k)
  {
    if k > 0 {
      LeftTotal(h, rs, ds, patient, k - 1);
      var left := Left(rs, ds, patient, k - 1);
      TotalAppend(h, left, rs[k - 1]);
      assert left + [] == left;
    }
  }

  lemma {:induction false} LeftIn(rs: seq<Request>, ds: seq<Decision>, patient: bool, k: nat)
    requires k <= |rs| <= |ds|
    ensures forall r :: r in Left(rs, ds, patient, k) ==> r in rs
    ensures |Left(rs, ds, patient, k)| <= k
  {
    if k > 0 {
      LeftIn(rs, ds, patient, k - 1);
    }
  }

  lemma {:induction false} SpentNothing(ds: seq<Decision>, j: nat, k: nat)
    requires j <= k <= |ds| && forall i :: j <= i < k && ds[i].Assigned? ==> ds[i].gpus == []
    ensures Spent(ds, k) == Spent(ds, j)
    decreases k
  {
    if j < k {
      SpentNothing(ds, j, k - 1);
    }
  }

  // One pass.

  lemma {:induction false} DealIsSafe(w: Scene, m: Move)
    requires NoDup(w.free)
    ensures Dealt(w.free, Deal(w, m))
    ensures forall i :: 0 <= i < |Deal(w, m)| && Deal(w, m)[i].Assigned? ==> |Deal(w, m)[i].gpus| == (w.ahead + m.behind)[i].gpus
  {
    hide Decide, Next, After;
    var h, s, rs := HostOf(w, m.preemptable), Fresh(w.free, [], 0), w.ahead + m.behind;
    forall i | 0 <= i < |rs| && Deal(w, m)[i].Assigned?
      ensures NoDup(Deal(w, m)[i].gpus) && |Deal(w, m)[i].gpus| == rs[i].gpus && forall c :: c in Deal(w, m)[i].gpus ==> c in w.free
    {
      AssignedIsSafe(h, s, rs, i);
    }
    forall i, j | 0 <= i < j < |rs| && Deal(w, m)[i].Assigned? && Deal(w, m)[j].Assigned?
      ensures Apart(Deal(w, m)[i].gpus, Deal(w, m)[j].gpus)
    {
      AssignedAreDisjoint(h, s, rs, i, j);
    }
  }

  lemma {:induction false} SameTotal(w: Scene, preemptable: seq<Preemptable>, rs: seq<Request>, k: nat)
    requires k <= |rs|
    ensures Total(HostOf(w, preemptable), rs, k) == Total(HostOf(w, []), rs, k)
  {
    if k > 0 {
      SameTotal(w, preemptable, rs, k - 1);
    }
  }

  /** What the rule decides for the queue up to the job watched, and behind it. */
  lemma {:induction false} DealIsFair(w: Scene, m: Move)
    requires CoveredFor(w) && (forall r :: r in m.behind ==> !r.borrows)
    ensures var ds, j := Deal(w, m), |w.ahead| - 1;
            && (forall i :: 0 <= i <= j ==> ds[i].Assigned? || ds[i].Fails? || (ds[i].Holds? && ds[i].gap == 0))
            && !ds[j].Fails?
            && (ds[j].Holds? ==> forall k :: j < k < |ds| && ds[k].Assigned? ==> ds[k].gpus == [])
            && (w.coming == [] ==> ds[j].Assigned?)
  {
    hide Decide, Next, After, NoDup, Apart;
    var h, s, rs, j := HostOf(w, m.preemptable), Fresh(w.free, [], 0), w.ahead + m.behind, |w.ahead| - 1;
    SameTotal(w, m.preemptable, w.ahead, |w.ahead|);
    TotalPrefix(h, w.ahead, m.behind, |w.ahead|);
    assert OwnedOnly(h, s, rs);
    forall i | 0 <= i <= j
      ensures Deal(w, m)[i].Assigned? || Deal(w, m)[i].Fails? || (Deal(w, m)[i].Holds? && Deal(w, m)[i].gap == 0)
    {
      NoGapWhenCovered(h, s, rs, j, i);
    }
    forall i | 0 <= i < |rs|
      ensures Deal(w, m)[i].Fails? ==> rs[i].gpus > w.present
    {
      FailsTooWide(h, After(h, s, rs, i), rs[i]);
    }
    if Deal(w, m)[j].Holds? {
      forall k | j < k < |rs| && Deal(w, m)[k].Assigned?
        ensures Deal(w, m)[k].gpus == []
      {
        NobodyPasses(h, s, rs, j, k);
      }
      if w.coming == [] {
        Owing.WaitsWithAGap(h, After(h, s, rs, j), rs[j]);
      }
    }
  }

  lemma {:induction false} FailsTooWide(h: Host, s: State, r: Request)
    ensures Decide(h, s, r).Fails? <==> r.gpus > h.ownedPresent + if r.borrows then h.sharedVisible else 0
  {
    hide Without, Within, Free, Back, Fillable, Stops;
  }

  /** While the job watched waits, no pass gives a card to anybody behind it. */
  lemma {:induction false} NobodyBehindIsServed(w: Scene, m: Move, job: Request)
    requires CoveredFor(w) && Waits(w, job) && (forall r :: r in m.behind ==> !r.borrows)
    requires !Leaves(Deal(w, m)[|w.ahead| - 1], m.patient)
    ensures forall k :: |w.ahead| <= k < |w.ahead| + |m.behind| && Deal(w, m)[k].Assigned? ==> Deal(w, m)[k].gpus == []
  {
    hide Deal, CoveredFor;
    DealIsFair(w, m);
  }

  lemma {:induction false} DispatchCounts(w: Scene, m: Move)
    requires CoveredFor(w) && (forall r :: r in m.behind ==> !r.borrows)
    requires !Leaves(Deal(w, m)[|w.ahead| - 1], m.patient)
    ensures var v := Step(w, m); Total(HostOf(w, []), v.ahead, |v.ahead|) <= |v.free| + |v.coming| && NoDup(v.free)
  {
    var ds, n, h := Deal(w, m), |w.ahead|, HostOf(w, []);
    DealIsFair(w, m);
    DealIsSafe(w, m);
    DealIsSquare(w, m);
    hide Deal, GivenOut, Without, Dealt, Square, Spent, NoDup, Total;
    FreeAfter(w.free, ds);
    SpentNothing(ds, n, |ds|);
    LeftTotal(h, w.ahead, ds, m.patient, n);
  }

  /** And the job stays covered. */
  lemma {:induction false} DispatchKeeps(w: Scene, m: Move)
    requires CoveredFor(w) && (forall r :: r in m.behind ==> !r.borrows)
    requires !Leaves(Deal(w, m)[|w.ahead| - 1], m.patient)
    ensures CoveredFor(Step(w, m))
  {
    var v := Step(w, m);
    DispatchCounts(w, m);
    LeftIn(w.ahead, Deal(w, m), m.patient, |w.ahead|);
    LeftLast(w, m);
    assert Apart(v.free, v.coming);
    TotalSame(HostOf(w, []), HostOf(v, []), v.ahead, |v.ahead|);
    hide Deal, GivenOut, Without, NoDup, Total, Apart;
  }

  lemma {:induction false} DealIsSquare(w: Scene, m: Move)
    requires NoDup(w.free) && forall r :: r in w.ahead ==> !r.borrows
    ensures Square(HostOf(w, []), w.ahead, Deal(w, m), |w.ahead|)
  {
    DealIsSafe(w, m);
    hide Decide, Next, After, NoDup, Dealt;
    var h, s, rs := HostOf(w, m.preemptable), Fresh(w.free, [], 0), w.ahead + m.behind;
    forall i | 0 <= i < |w.ahead|
      ensures Deal(w, m)[i].Fails? <==> rs[i].gpus > w.present
    {
      assert rs[i] == w.ahead[i];
      FailsTooWide(h, After(h, s, rs, i), rs[i]);
    }
  }

  // Cards coming back, in whatever order.

  lemma {:induction false} SamePresent(v: Scene, w: Scene, k: nat)
    requires v.ahead == w.ahead && v.present == w.present && k <= |w.ahead|
    ensures Total(HostOf(v, []), v.ahead, k) == Total(HostOf(w, []), w.ahead, k)
  {
    if k > 0 {
      SamePresent(v, w, k - 1);
    }
  }

  lemma {:induction false} CardsAddUp(free: seq<Uuid>, coming: seq<Uuid>)
    requires NoDup(free) && NoDup(coming) && Apart(free, coming)
    ensures |Elems(free) + Elems(coming)| == |free| + |coming|
  {
    NoDupCount(free);
    NoDupCount(coming);
    hide NoDup;
    ApartCount(free, coming, {});
    assert (Elems(free) + Elems(coming)) - {} == Elems(free) + Elems(coming);
    assert Elems(free) - {} == Elems(free) && Elems(coming) - {} == Elems(coming);
  }

  lemma {:induction false} SettlesKeeps(v: Scene, w: Scene)
    requires CoveredFor(v) && Settles(v, w) && w.ahead == v.ahead
    ensures CoveredFor(w)
  {
    SamePresent(v, w, |w.ahead|);
    CardsAddUp(v.free, v.coming);
    CardsAddUp(w.free, w.coming);
    hide NoDup, Apart, Total;
    SubsetCount(Elems(v.free) + Elems(v.coming), Elems(w.free) + Elems(w.coming));
  }

  // Whole runs.

  /** Scenes and passes taking turns: each scene is what the pass before left,
      but for cards that moved since. */
  ghost predicate Runs(ws: seq<Scene>, ms: seq<Move>) {
    && |ws| == |ms| + 1
    && (forall i :: 0 <= i < |ms| ==> forall r :: r in ms[i].behind ==> !r.borrows)
    && (forall i :: 0 <= i < |ms| ==> Ensues(ws, ms, i))
  }

  /** Nobody cancelled, nobody new ahead, and the cards accounted for. */
  predicate Ensues(ws: seq<Scene>, ms: seq<Move>, i: nat)
    requires i < |ms| < |ws|
  {
    Settles(Step(ws[i], ms[i]), ws[i + 1]) && ws[i + 1].ahead == Step(ws[i], ms[i]).ahead
  }

  /** The job watched has not left the queue in the first `n` passes. */
  ghost predicate StillQueued(ws: seq<Scene>, ms: seq<Move>, n: nat)
    requires n <= |ms| < |ws|
  {
    forall i :: 0 <= i < n ==> Stays(ws[i], ms[i])
  }

  predicate Stays(w: Scene, m: Move) {
    w.ahead != [] && !Leaves(Deal(w, m)[|w.ahead| - 1], m.patient)
  }

  /** Nobody behind the job watched is given a card in this pass. */
  predicate Unserved(w: Scene, m: Move) {
    forall k :: |w.ahead| <= k < |w.ahead| + |m.behind| && Deal(w, m)[k].Assigned? ==> Deal(w, m)[k].gpus == []
  }

  lemma {:induction false} LeftLast(w: Scene, m: Move)
    requires w.ahead != [] && !Leaves(Deal(w, m)[|w.ahead| - 1], m.patient)
    ensures Step(w, m).ahead != [] && Step(w, m).ahead[|Step(w, m).ahead| - 1] == w.ahead[|w.ahead| - 1]
  {
    hide Deal, GivenOut, Without;
  }

  /** From the moment it is covered until it leaves the queue, the job watched
      stays covered through any run of passes, and no pass of that run gives a
      card to a job behind it. */
  lemma {:induction false} NoLivelock(ws: seq<Scene>, ms: seq<Move>, n: nat, job: Request)
    requires Runs(ws, ms) && n <= |ms| && CoveredFor(ws[0]) && Waits(ws[0], job) && StillQueued(ws, ms, n)
    ensures CoveredFor(ws[n]) && Waits(ws[n], job)
    ensures forall i :: 0 <= i < n ==> Unserved(ws[i], ms[i])
  {
    hide CoveredFor, Deal, Step, Settles, Unserved, Waits, Ensues;
    if n > 0 {
      NoLivelock(ws, ms, n - 1, job);
      RunAt(ws, ms, n - 1);
      OneTurn(ws[n - 1], ms[n - 1], ws[n], job);
    }
  }

  lemma {:induction false} RunAt(ws: seq<Scene>, ms: seq<Move>, i: nat)
    requires Runs(ws, ms) && i < |ms|
    ensures (forall r :: r in ms[i].behind ==> !r.borrows)
    ensures Settles(Step(ws[i], ms[i]), ws[i + 1]) && ws[i + 1].ahead == Step(ws[i], ms[i]).ahead
  {
    hide Step, Settles;
    assert Ensues(ws, ms, i);
  }

  lemma {:induction false} OneTurn(v: Scene, m: Move, w: Scene, job: Request)
    requires CoveredFor(v) && Waits(v, job) && Stays(v, m) && (forall r :: r in m.behind ==> !r.borrows)
    requires Settles(Step(v, m), w) && w.ahead == Step(v, m).ahead
    ensures CoveredFor(w) && Waits(w, job) && Unserved(v, m)
  {
    hide CoveredFor, Deal, Step, Settles;
    NobodyBehindIsServed(v, m, job);
    DispatchKeeps(v, m);
    LeftLast(v, m);
    SettlesKeeps(Step(v, m), w);
  }

  /** It leaves by being started, at the latest in the first pass after every
      card on its way has landed. */
  lemma {:induction false} StartsOnceLanded(w: Scene, m: Move, job: Request)
    requires CoveredFor(w) && Waits(w, job) && (forall r :: r in m.behind ==> !r.borrows)
    ensures var d := Deal(w, m)[|w.ahead| - 1];
            && (Leaves(d, m.patient) ==> d.Assigned?)
            && (w.coming == [] ==> d.Assigned?)
  {
    hide Deal, CoveredFor;
    DealIsFair(w, m);
  }

  lemma {:induction false} GapMadeUp(w: Scene, m: Move, j: nat)
    requires OwnedOnly(HostOf(w, m.preemptable), Fresh(w.free, [], 0), w.ahead + m.behind)
    requires j < |w.ahead + m.behind|
    requires forall i :: 0 <= i < j ==> !(Deal(w, m)[i].Holds? && Deal(w, m)[i].gap > 0)
    requires Deal(w, m)[j].Holds? && Deal(w, m)[j].gap > 0 && Deal(w, m)[j].preempts != []
    ensures var r := (w.ahead + m.behind)[j];
            && r.gpus <= w.present
            && Total(HostOf(w, []), w.ahead + m.behind, j + 1)
               <= |w.free| + |w.coming| + Freed(Cover(m.preemptable, r.SortKey(), Deal(w, m)[j].gap, false), false)
  {
    hide Decide, Next, After, Cover, Freed, NoDup, Apart;
    var h, s, rs := HostOf(w, m.preemptable), Fresh(w.free, [], 0), w.ahead + m.behind;
    assert forall i :: 0 <= i <= j ==> Deal(w, m)[i] == DecisionAt(h, s, rs, i);
    hide Deal;
    assert rs[j] in rs;
    StopsCoverTheGap(h, s, rs, j);
    FitsHost(h, After(h, s, rs, j), rs[j]);
    TotalSame(h, HostOf(w, []), rs, j + 1);
  }

  lemma {:induction false} PlainFacts(w: Scene, m: Move)
    requires OwnedOnly(HostOf(w, m.preemptable), Fresh(w.free, [], 0), w.ahead + m.behind)
    ensures NoDup(w.free) && NoDup(w.coming) && Apart(w.free, w.coming)
    ensures forall r :: r in w.ahead + m.behind ==> !r.borrows
  {
  }

  lemma {:induction false} ComingBack(w: Scene, rs: seq<Request>, j: nat, back: seq<Uuid>)
    requires j < |rs| && NoDup(w.free) && NoDup(w.coming) && Apart(w.free, w.coming)
    requires (forall r :: r in rs ==> !r.borrows) && rs[j].gpus <= w.present
    requires NoDup(back) && Apart(back, w.free) && Apart(back, w.coming)
    requires Total(HostOf(w, []), rs, j + 1) <= |w.free| + |w.coming| + |back|
    ensures CoveredFor(Scene(rs[..j + 1], w.free, w.coming + back, w.present, w.absent, w.sharedAbsent))
  {
    var v := Scene(rs[..j + 1], w.free, w.coming + back, w.present, w.absent, w.sharedAbsent);
    PrefixTotal(w, v, rs, j);
    hide Total, HostOf;
    ApartBoth(back, w.coming);
    NoDupAppend(w.coming, back);
    hide NoDup;
    assert v.ahead[|v.ahead| - 1] == rs[j];
  }

  /** Stopping the set chosen for the first job with a gap is what covers it:
      the owned cards of the stopped jobs count as on their way from then on. */
  lemma {:induction false} PreemptCovers(w: Scene, m: Move, j: nat, back: seq<Uuid>)
    requires OwnedOnly(HostOf(w, m.preemptable), Fresh(w.free, [], 0), w.ahead + m.behind)
    requires j < |w.ahead + m.behind|
    requires forall i :: 0 <= i < j ==> !(Deal(w, m)[i].Holds? && Deal(w, m)[i].gap > 0)
    requires Deal(w, m)[j].Holds? && Deal(w, m)[j].gap > 0 && Deal(w, m)[j].preempts != []
    requires NoDup(back) && Apart(back, w.free) && Apart(back, w.coming)
    requires |back| == Freed(Cover(m.preemptable, (w.ahead + m.behind)[j].SortKey(), Deal(w, m)[j].gap, false), false)
    ensures CoveredFor(Scene((w.ahead + m.behind)[..j + 1], w.free, w.coming + back, w.present, w.absent, w.sharedAbsent))
  {
    hide *;
    GapMadeUp(w, m, j);
    PlainFacts(w, m);
    ComingBack(w, w.ahead + m.behind, j, back);
  }

  lemma {:induction false} PrefixTotal(w: Scene, v: Scene, rs: seq<Request>, j: nat)
    requires v.present == w.present && j < |rs|
    ensures Total(HostOf(v, []), rs[..j + 1], j + 1) == Total(HostOf(w, []), rs, j + 1)
  {
    assert rs[..j + 1] + rs[j + 1..] == rs;
    TotalPrefix(HostOf(w, []), rs[..j + 1], rs[j + 1..], j + 1);
    TotalSame(HostOf(w, []), HostOf(v, []), rs[..j + 1], j + 1);
  }

  lemma {:induction false} FitsHost(h: Host, s: State, r: Request)
    requires Decide(h, s, r).Holds? && !r.borrows
    ensures r.gpus <= h.ownedPresent
  {
    FailsTooWide(h, s, r);
  }

  lemma {:induction false} TotalSame(g: Host, h: Host, rs: seq<Request>, k: nat)
    requires g.ownedPresent == h.ownedPresent && k <= |rs|
    ensures Total(g, rs, k) == Total(h, rs, k)
  {
    if k > 0 {
      TotalSame(g, h, rs, k - 1);
    }
  }

  lemma {:induction false} DealIs(w: Scene, m: Move, h: Host, s: State, rs: seq<Request>)
    requires h == HostOf(w, m.preemptable) && s == Fresh(w.free, [], 0) && rs == w.ahead + m.behind
    ensures Deal(w, m) == Decisions(h, s, rs)
  {
    hide Decisions;
  }

  lemma {:induction false} LeftFree(w: Scene, m: Move, ds: seq<Decision>, c: Uuid)
    requires ds == Deal(w, m)
    ensures c in Step(w, m).free <==> c in w.free && c !in GivenOut(ds, |ds|)
    ensures Step(w, m).coming == w.coming && Step(w, m).present == w.present
  {
    hide Deal, GivenOut;
  }

  lemma {:induction false} SettlesIf(v: Scene, w: Scene)
    requires w.present == v.present && NoDup(w.free) && NoDup(w.coming) && Apart(w.free, w.coming)
    requires forall c :: c in v.free || c in v.coming ==> c in w.free || c in w.coming
    ensures Settles(v, w)
  {
  }
}
