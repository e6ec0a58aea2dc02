/** The dispatch rule (`plan` in gpuc/host/plan.py): one decision per queued
    job, in queue order, over one pass's cards.

    `Step` is the rule as a function of what the pass has left, and `Pool` with
    `Plan` is the program, which mutates its pool and reads the shared cards
    only when a job needs one. */
module Rule {
  import opened Lists
  import opened Preempt

  /** One queued job, as the rule sees it. */
  datatype Request = Request(
    jobId: JobId, gpus: nat, borrows: bool, estimate: Option<real>, priority: int, fills: bool)
  {
    function SortKey(): Key {
      Key(priority, jobId)
    }
  }

  /** Why a job cannot run on this host at all: the cards it asked for, those it
      could have, and the absent entries that would have let it run. */
  datatype Reason = TooWide(gpus: nat, have: nat, missing: seq<string>)

  datatype Decision =
    | Assigned(jobId: JobId, gpus: seq<Uuid>, heldFor: seq<JobId>)
    | Holds(jobId: JobId, takenOwned: nat, takenShared: nat, gap: nat, preempts: seq<JobId>)
    | SteppedOver(jobId: JobId, short: int)
    | Fails(jobId: JobId, reason: Reason)

  /** What does not change during a pass. */
  datatype Host = Host(
    ownedPresent: nat,
    sharedVisible: nat,
    ownedAbsent: seq<string>,
    sharedAbsent: seq<string>,
    shared: set<Uuid>,
    coming: seq<Uuid>,
    preemptable: seq<Preemptable>)

  /** What does: the cards left, who holds what, who is covered, and whether the
      first job with a gap has been passed. */
  datatype State = State(
    ownedFree: seq<Uuid>,
    sharedFree: seq<Uuid>,
    theirs: nat,
    held: map<Uuid, JobId>,
    covered: set<JobId>,
    stuck: bool)

  function CapacityFailure(gpus: nat, owned: nat, shared: nat, borrows: bool, absent: seq<string>): Option<Reason> {
    var have := owned + if borrows then shared else 0;
    if gpus <= have then None
    else Some(TooWide(gpus, have, if gpus <= have + |absent| then absent else []))
  }

  function Failure(h: Host, r: Request): Option<Reason> {
    CapacityFailure(r.gpus, h.ownedPresent, h.sharedVisible, r.borrows,
                    h.ownedAbsent + if r.borrows then h.sharedAbsent else [])
  }

  /** The unheld owned cards this job would take. */
  function Own(s: State, r: Request): seq<Uuid> {
    First(Without(s.ownedFree, s.held.Keys), r.gpus)
  }

  /** The unheld shared cards it would borrow for the rest. */
  function Borrow(s: State, r: Request): seq<Uuid> {
    if |Own(s, r)| < r.gpus && r.borrows
    then First(Without(s.sharedFree, s.held.Keys), r.gpus - |Own(s, r)|)
    else []
  }

  function Free(s: State, r: Request): (free: seq<Uuid>)
    ensures |free| <= r.gpus
  {
    Own(s, r) + Borrow(s, r)
  }

  predicate Fits(s: State, r: Request) {
    |Free(s, r)| == r.gpus
  }

  /** Unheld cards on their way back that this job may use, owned ones first. */
  function Returning(h: Host, s: State, r: Request): seq<Uuid> {
    var mine := Without(h.coming, s.held.Keys + if r.borrows then {} else h.shared);
    Without(mine, h.shared) + Within(mine, h.shared)
  }

  /** Those of them it would take. */
  function Back(h: Host, s: State, r: Request): (back: seq<Uuid>)
    ensures |Free(s, r)| + |back| <= r.gpus
  {
    First(Returning(h, s, r), r.gpus - |Free(s, r)|)
  }

  function Gap(h: Host, s: State, r: Request): nat {
    r.gpus - |Free(s, r)| - |Back(h, s, r)|
  }

  /** The cards this job could have once every job of ours has ended. */
  function Ours(h: Host, s: State, r: Request): int {
    h.ownedPresent + if r.borrows then h.sharedVisible - s.theirs else 0
  }

  /** Cards held for a job that is already covered. */
  function Covered(s: State): set<Uuid> {
    set c | c in s.held && s.held[c] in s.covered
  }

  /** Unheld cards before held ones, each in its given order. */
  function UnheldFirst(cards: seq<Uuid>, held: map<Uuid, JobId>): seq<Uuid> {
    Without(cards, held.Keys) + Within(cards, held.Keys)
  }

  /** The cards an `auto_preempt` job may sit on meanwhile, best first. */
  function Fillable(s: State, r: Request): seq<Uuid> {
    UnheldFirst(Without(s.ownedFree, Covered(s)), s.held)
    + if r.borrows then UnheldFirst(Without(s.sharedFree, Covered(s)), s.held) else []
  }

  predicate CanFill(h: Host, s: State, r: Request) {
    r.fills && Gap(h, s, r) > 0 && |Fillable(s, r)| >= r.gpus
  }

  /** `dict.fromkeys(held[c] for c in cards if c in held)`: each holder once, in
      the order first met. */
  function Holders(cards: seq<Uuid>, held: map<Uuid, JobId>): (r: seq<JobId>) {
    if cards == [] then []
    else
      var before := Holders(cards[..|cards| - 1], held);
      var card := cards[|cards| - 1];
      if card in held && held[card] !in before then before + [held[card]] else before
  }

  function Taken(s: State, cards: seq<Uuid>): State {
    s.(ownedFree := Without(s.ownedFree, Elems(cards)), sharedFree := Without(s.sharedFree, Elems(cards)))
  }

  function Hold(held: map<Uuid, JobId>, cards: seq<Uuid>, job: JobId): map<Uuid, JobId> {
    held + map c | c in cards :: job
  }

  function Stops(h: Host, s: State, r: Request): seq<Preemptable> {
    if Gap(h, s, r) > 0 && !s.stuck then Cover(h.preemptable, r.SortKey(), Gap(h, s, r), r.borrows) else []
  }

  function Ids(s: seq<Preemptable>): (r: seq<JobId>)
    ensures |r| == |s|
    ensures forall i :: 0 <= i < |s| ==> r[i] == s[i].jobId
  {
    seq(|s|, i requires 0 <= i < |s| => s[i].jobId)
  }

  function Holding(h: Host, s: State, r: Request): State {
    var stops := Stops(h, s, r);
    s.(held := Hold(s.held, Free(s, r) + Back(h, s, r), r.jobId),
       stuck := s.stuck || Gap(h, s, r) > 0,
       covered := if Gap(h, s, r) == 0 || stops != [] then s.covered + {r.jobId} else s.covered)
  }

  function OwnedAmong(cards: seq<Uuid>, shared: set<Uuid>): nat {
    |Without(cards, shared)|
  }

  /** Where the walk goes with one request. */
  datatype Branch = Fail | Fit | StepOver | Fill | Wait

  function Branching(h: Host, s: State, r: Request): Branch {
    if Failure(h, r).Some? then Fail
    else if Fits(s, r) then Fit
    else if r.gpus > Ours(h, s, r) then StepOver
    else if CanFill(h, s, r) then Fill
    else Wait
  }

  function Decide(h: Host, s: State, r: Request): Decision {
    match Branching(h, s, r)
    case Fail => Fails(r.jobId, Failure(h, r).value)
    case Fit => Assigned(r.jobId, Free(s, r), [])
    case StepOver => SteppedOver(r.jobId, r.gpus - Ours(h, s, r))
    case Fill =>
      var cards := First(Fillable(s, r), r.gpus);
      Assigned(r.jobId, cards, Holders(cards, s.held))
    case Wait =>
      var owned := |Own(s, r)| + OwnedAmong(Back(h, s, r), h.shared);
      Holds(r.jobId, owned, |Free(s, r)| + |Back(h, s, r)| - owned, Gap(h, s, r), Ids(Stops(h, s, r)))
  }

  function Next(h: Host, s: State, r: Request): State {
    match Branching(h, s, r)
    case Fail => s
    case Fit => Taken(s, Free(s, r))
    case StepOver => s
    case Fill => Taken(s, First(Fillable(s, r), r.gpus))
    case Wait => Holding(h, s, r)
  }

  /** The state in front of request `k`. */
  function After(h: Host, s: State, rs: seq<Request>, k: nat): State
    requires k <= |rs|
  {
    if k == 0 then s else Next(h, After(h, s, rs, k - 1), rs[k - 1])
  }

  function DecisionAt(h: Host, s: State, rs: seq<Request>, k: nat): Decision
    requires k < |rs|
  {
    Decide(h, After(h, s, rs, k), rs[k])
  }

  function Decisions(h: Host, s: State, rs: seq<Request>): (ds: seq<Decision>)
    ensures |ds| == |rs|
    ensures forall k :: 0 <= k < |rs| ==> ds[k] == DecisionAt(h, s, rs, k)
  {
    seq(|rs|, k requires 0 <= k < |rs| => DecisionAt(h, s, rs, k))
  }

  /** A pass begins with nothing held. */
  function Fresh(ownedFree: seq<Uuid>, sharedFree: seq<Uuid>, theirs: nat): State {
    State(ownedFree, sharedFree, theirs, map[], {}, false)
  }
}
