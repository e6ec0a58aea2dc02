/** Buying a pod and accounting for every one bought (`provision`, `_try_offer`,
    `_abandon`, `_sweep_failed_create` and `verdict` in
    gpuc/control/provision.py). */
module Provision {
  import opened Lists

  type PodId(==, !new)
  type Name(==, !new)

  const CEILING_MINUTES := 15.0
  const CREATE_SWEEP_POLLS := 6

  /** The ways a step fails. `Refused` and `ProviderFails` are provider errors;
      `TransportFails`, `SshUnusable` and `ToolMissing` are transport errors;
      `Bug` is any other exception and `Interrupt` one that is no `Exception`. */
  datatype Exc =
    | ProvisionFails | Unprovisionable
    | Refused | ProviderFails
    | BootstrapFails | RemoteFails
    | TransportFails(misconfigured: bool) | SshUnusable | ToolMissing
    | Bug | Interrupt

  datatype Ruling = KeepWaiting | NextOffer | Abort

  predicate Recoverable(e: Exc) {
    !e.Bug? && !e.Interrupt?
  }

  predicate IsProvider(e: Exc) {
    e.Refused? || e.ProviderFails?
  }

  predicate IsTransport(e: Exc) {
    e.TransportFails? || e.SshUnusable? || e.ToolMissing?
  }

  /** `verdict` */
  function Verdict(e: Exc, polling: bool): Ruling {
    if e.SshUnusable? || e.ToolMissing? || e.Unprovisionable? then Abort
    else if IsTransport(e) && e.TransportFails? && e.misconfigured then Abort
    else if polling && (IsProvider(e) || IsTransport(e)) then KeepWaiting
    else if Recoverable(e) then NextOffer
    else Abort
  }

  /** Waiting changes what a failure costs only for a provider or transport
      failure that would cost the offer: nothing that ends an attempt is waited
      out, and nothing is ever waited for outside a wait. */
  lemma {:induction false} WaitingOnlySpares(e: Exc)
    ensures Verdict(e, true) == Abort <==> Verdict(e, false) == Abort
    ensures Verdict(e, true) == KeepWaiting <==> Verdict(e, false) == NextOffer && (IsProvider(e) || IsTransport(e))
    ensures Verdict(e, false) != KeepWaiting && (Verdict(e, false) == NextOffer ==> Recoverable(e))
  {
  }

  datatype Pod = Pod(id: PodId, name: Name, gone: bool)

  datatype Creation = Created(id: PodId) | Raises(exc: Exc)

  datatype Poll = Listed(pods: seq<Pod>) | ListFails | Interrupted

  /** An entry of `billing`: a pod, or a name whose pod is not known. */
  datatype Bill = Known(id: PodId) | Unknown(name: Name)

  /** What happened, in order, with the turn at which the clock, the provider or
      the pod was asked: the clock read before an offer, a create and what came
      of it, a listing and the pods found under a failed create's name, a pod
      brought up or not, a terminate and whether it was confirmed; and, of the
      program's own, a bill noted and a failed create given up on. */
  datatype Event =
    | Clock(turn: nat, now: real)
    | Create(turn: nat, name: Name, result: Creation)
    | Polled(turn: nat, name: Name, found: seq<PodId>)
    | BroughtUp(turn: nat, id: PodId, failure: Option<Exc>)
    | Terminated(turn: nat, id: PodId, confirmed: bool)
    | Billed(bill: Bill)
    | GivenUp(name: Name, settled: bool)
  {
    predicate Asks() {
      !Billed? && !GivenUp?
    }
  }

  /** Not gone, and under this name. */
  function Named(pods: seq<Pod>, name: Name): (ids: seq<PodId>)
    ensures forall id :: id in ids <==> exists p :: p in pods && p.id == id && p.name == name && !p.gone
  {
    if pods == [] then []
    else
      var p := pods[0];
      assert pods == [p] + pods[1..];
      (if p.name == name && !p.gone then [p.id] else []) + Named(pods[1..], name)
  }

  function FoundIn(poll: Poll, name: Name): seq<PodId> {
    if poll.Listed? then Named(poll.pods, name) else []
  }

  predicate Confirms(e: Event, id: PodId) {
    e.Terminated? && e.id == id && e.confirmed
  }

  /** The pod has been confirmed gone or put on the bill. */
  predicate Closed(trace: seq<Event>, id: PodId) {
    (exists i :: 0 <= i < |trace| && Confirms(trace[i], id)) || Billed(Known(id)) in trace
  }

  /** A pod this create returned, or found under its name. */
  predicate Ours(e: Event, id: PodId) {
    (e.Create? && e.result == Created(id)) || (e.Polled? && id in e.found)
  }

  /** Every pod bought or found so far is closed, but for these. */
  ghost predicate AllClosedBut(trace: seq<Event>, open: set<PodId>) {
    forall i, id :: 0 <= i < |trace| && Ours(trace[i], id) && id !in open ==> Closed(trace, id)
  }

  /** The last clock reading before event `k` was before the deadline. */
  predicate InTime(trace: seq<Event>, k: nat, deadline: real)
    requires k <= |trace|
  {
    k > 0 && if trace[k - 1].Clock? then trace[k - 1].now < deadline else InTime(trace, k - 1, deadline)
  }

  /** A create that failed without being refused, so may have bought a pod. */
  predicate Doubtful(e: Event) {
    e.Create? && e.result.Raises? && !e.result.exc.Refused?
  }

  /** Every doubtful create so far was given up on afterwards, as settled. */
  predicate AllSettled(trace: seq<Event>) {
    && (forall i :: 0 <= i < |trace| && Doubtful(trace[i]) ==> GivenUp(trace[i].name, true) in trace[i..])
    && (forall i :: 0 <= i < |trace| && trace[i].GivenUp? ==> trace[i].settled)
  }

  /** What may precede a create: every pod so far closed, a clock reading before
      the deadline, and no failed create that may still be billing. */
  ghost predicate MayBuy(trace: seq<Event>, deadline: real) {
    AllClosedBut(trace, {}) && InTime(trace, |trace|, deadline) && AllSettled(trace)
  }

  /** Every create of the run was one that might be made. */
  ghost predicate Careful(trace: seq<Event>, deadline: real) {
    forall k :: 0 <= k < |trace| && trace[k].Create? ==> MayBuy(trace[..k], deadline)
  }

  lemma {:induction false} CarefulMore(trace: seq<Event>, e: Event, deadline: real)
    requires Careful(trace, deadline) && (e.Create? ==> MayBuy(trace, deadline))
    ensures Careful(trace + [e], deadline)
  {
    var more := trace + [e];
    forall k | 0 <= k < |more| && more[k].Create?
      ensures MayBuy(more[..k], deadline)
    {
      assert more[..k] == trace[..k];
      assert k == |trace| ==> trace[..k] == trace;
    }
  }

  lemma {:induction false} ClosedStays(trace: seq<Event>, e: Event, id: PodId)
    requires Closed(trace, id)
    ensures Closed(trace + [e], id)
  {
    var more := trace + [e];
    if Billed(Known(id)) in trace {
      assert Billed(Known(id)) in more;
    } else {
      var i :| 0 <= i < |trace| && Confirms(trace[i], id);
      assert Confirms(more[i], id);
    }
  }

  /** The pods an event opens, and those it closes. */
  function Opens(e: Event): set<PodId> {
    if e.Create? && e.result.Created? then {e.result.id} else if e.Polled? then Elems(e.found) else {}
  }

  function Closes(e: Event): set<PodId> {
    if e.Terminated? && e.confirmed then {e.id} else if e.Billed? && e.bill.Known? then {e.bill.id} else {}
  }

  lemma {:induction false} ClosedMore(trace: seq<Event>, e: Event, open: set<PodId>)
    requires AllClosedBut(trace, open)
    ensures AllClosedBut(trace + [e], (open + Opens(e)) - Closes(e))
  {
    var more := trace + [e];
    forall i, id | 0 <= i < |more| && Ours(more[i], id) && id !in (open + Opens(e)) - Closes(e)
      ensures Closed(more, id)
    {
      if id in Closes(e) {
        assert more[|trace|] == e;
        assert e in more;
        assert Confirms(more[|trace|], id) || e == Billed(Known(id));
      } else {
        assert i < |trace|;
        ClosedStays(trace, e, id);
      }
    }
  }

  lemma {:induction false} SettledMore(trace: seq<Event>, e: Event)
    requires AllSettled(trace) && !Doubtful(e) && (e.GivenUp? ==> e.settled)
    ensures AllSettled(trace + [e])
  {
    var more := trace + [e];
    forall i | 0 <= i < |more| && Doubtful(more[i])
      ensures GivenUp(more[i].name, true) in more[i..]
    {
      assert more[i..] == trace[i..] + [e];
    }
  }

  /** Every doubtful create but the one at the end of `before` is settled, and
      nothing since then was one. */
  lemma {:induction false} SettlesLast(before: seq<Event>, create: Event, after: seq<Event>, name: Name)
    requires AllSettled(before) && create.Create? && create.name == name
    requires Sweeps(before + [create], after)
    ensures AllSettled(after + [GivenUp(name, true)])
  {
    var all := after + [GivenUp(name, true)];
    forall i | 0 <= i < |all| && Doubtful(all[i])
      ensures GivenUp(all[i].name, true) in all[i..]
    {
      assert all[|all| - 1] in all[i..] by { assert all[i..][|all| - 1 - i] == all[|all| - 1]; }
      if i < |before| {
        assert all[i] == before[i];
        assert GivenUp(before[i].name, true) in before[i..];
        assert before[i..] <= all[i..];
      }
    }
    forall i | 0 <= i < |all| && all[i].GivenUp?
      ensures all[i].settled
    {
      if i < |before| {
        assert all[i] == before[i];
      }
    }
  }

  /** How an attempt ends. */
  datatype Outcome = Up(id: PodId) | Failed(stopped: bool) | Propagates(exc: Exc)

  datatype Try = Ready(id: PodId) | Raised(exc: Exc)

  // What a failure ends.

  /** What came of this step, if it failed. */
  function Failure(e: Event): Option<Exc> {
    match e
    case Create(_, _, Raises(exc)) => Some(exc)
    case BroughtUp(_, _, failure) => failure
    case _ => None
  }

  /** No other offer could fix it: the trouble is this machine's own ssh, or what
      was asked for. */
  predicate Hopeless(e: Exc) {
    e == SshUnusable || e == ToolMissing || e == TransportFails(true) || e == Unprovisionable
  }

  /** Not a failure of the pod's or the provider's at all. */
  predicate Foreign(e: Exc) {
    e == Bug || e == Interrupt
  }

  /** Only the offer's loss. */
  predicate Mild(e: Exc) {
    e == ProvisionFails || e == Refused || e == ProviderFails || e == BootstrapFails || e == RemoteFails || e == TransportFails(false)
  }

  lemma {:induction false} ThreeKinds(e: Exc)
    ensures Mild(e) || Hopeless(e) || Foreign(e)
    ensures Verdict(e, false) == NextOffer <==> Mild(e)
    ensures Recoverable(e) <==> !Foreign(e)
    ensures Verdict(e, true) == KeepWaiting <==>
      e == Refused || e == ProviderFails || e == TransportFails(false)
    ensures Verdict(e, true) == Abort <==> Hopeless(e) || Foreign(e)
  {
  }

  predicate FailedAt(trace: seq<Event>, i: nat) {
    i < |trace| && Failure(trace[i]).Some?
  }

  predicate AllMild(trace: seq<Event>) {
    forall i :: 0 <= i < |trace| && Failure(trace[i]).Some? ==> Mild(Failure(trace[i]).value)
  }

  /** Everything before event `i` was mild, it failed, and after it nothing more
      was bought and nothing else failed. */
  predicate LastFailure(trace: seq<Event>, i: nat) {
    && FailedAt(trace, i) && AllMild(trace[..i])
    && forall k :: i < k < |trace| ==> !trace[k].Create? && Failure(trace[k]).None?
  }

  /** Why an attempt stopped at a failure: a create that cannot be settled, or
      one no other offer could fix; or why it propagates: a failure that is not
      the attempt's, or an interrupt while a failed create was swept. */
  predicate StoppedBy(trace: seq<Event>, i: nat, outcome: Outcome)
    requires FailedAt(trace, i)
  {
    var exc := Failure(trace[i]).value;
    match outcome
    case Up(_) => false
    case Failed(stopped) => stopped && (Hopeless(exc) || (trace[i].Create? && exc != Interrupt && GivenUp(trace[i].name, false) in trace))
    case Propagates(e) =>
      || (Foreign(exc) && e == exc)
      || (trace[i].Create? && e == Interrupt && GivenUp(trace[i].name, false) in trace)
  }

  /** How an attempt with offers ends, by what happened: up, or after every offer
      was come to, with only mild failures; or at the first that is not. */
  ghost predicate EndsBy(trace: seq<Event>, outcome: Outcome) {
    if outcome.Up? || outcome == Failed(false) then AllMild(trace)
    else exists i: nat :: LastFailure(trace, i) && StoppedBy(trace, i, outcome)
  }

  /** An attempt that brought up a pod to fail at something no offer could fix
      stops there; one that failed of its own accord propagates. */
  lemma {:induction false} StopsWhereItMust(trace: seq<Event>, outcome: Outcome, i: nat)
    requires EndsBy(trace, outcome) && FailedAt(trace, i) && !Mild(Failure(trace[i]).value)
    ensures forall k :: i < k < |trace| ==> !trace[k].Create?
    ensures trace[i].BroughtUp? ==>
      outcome == if Hopeless(Failure(trace[i]).value) then Failed(true) else Propagates(Failure(trace[i]).value)
    ensures trace[i].Create? && Hopeless(Failure(trace[i]).value) ==>
      outcome == Failed(true) || (outcome == Propagates(Interrupt) && GivenUp(trace[i].name, false) in trace)
  {
    ThreeKinds(Failure(trace[i]).value);
    var k: nat :| LastFailure(trace, k) && StoppedBy(trace, k, outcome);
    MildBefore(trace, k, i);
    assert i == k;
  }

  lemma {:induction false} MildBefore(trace: seq<Event>, k: nat, i: nat)
    requires k <= |trace| && AllMild(trace[..k])
    ensures i < k && FailedAt(trace, i) ==> Mild(Failure(trace[i]).value)
  {
    if i < k {
      assert trace[..k][i] == trace[i];
    }
  }

  lemma {:induction false} MildMore(trace: seq<Event>, after: seq<Event>)
    requires AllMild(trace) && trace <= after
    requires forall i :: |trace| <= i < |after| ==> Failure(after[i]).Some? ==> Mild(Failure(after[i]).value)
    ensures AllMild(after)
  {
  }

  /** One offer tried: it fails at most once, at `i`, and buys once. */
  predicate OneFailure(before: seq<Event>, after: seq<Event>, result: Try, i: nat) {
    && |before| <= i < |after| && Failure(after[i]).Some?
    && (forall k :: |before| <= k < |after| && k != i ==> Failure(after[k]).None?)
    && (forall k :: |before| < k < |after| ==> !after[k].Create?)
    && result.Raised?
    && (result.exc == Failure(after[i]).value
        || (after[i].Create? && GivenUp(after[i].name, false) in after
            && (result.exc == Interrupt || (result.exc == Unprovisionable && Failure(after[i]).value != Interrupt))))
  }

  lemma {:induction false} FailedUp(first: seq<Event>, create: Event, e: Event, mid: seq<Event>, after: seq<Event>, exc: Exc)
    requires create.Create? && create.result.Created? && e.BroughtUp? && e.failure == Some(exc) && mid == first + [create] + [e] && Sweeps(mid, after)
    ensures OneFailure(first, after, Raised(exc), |first| + 1)
  {
    assert after[|first|] == mid[|first|] == create && after[|first| + 1] == mid[|first| + 1] == e;
  }

  lemma {:induction false} FailedCreate(first: seq<Event>, create: Event, bought: seq<Event>, after: seq<Event>, result: Try)
    requires create.Create? && create.result.Raises? && bought == first + [create] && result.Raised?
    requires after != [] && Sweeps(bought, after[..|after| - 1]) && after[|after| - 1].GivenUp? && after[|after| - 1].name == create.name
    requires result.exc == create.result.exc
      || (!after[|after| - 1].settled && (result.exc == Interrupt || (result.exc == Unprovisionable && create.result.exc != Interrupt)))
    ensures OneFailure(first, after, result, |first|)
  {
    var swept := after[..|after| - 1];
    assert after[|first|] == swept[|first|] == bought[|first|] == create;
    assert forall k :: |first| < k < |after| - 1 ==> after[k] == swept[k];
    assert after[|after| - 1] in after;
  }

  lemma {:induction false} UpEnds(trace: seq<Event>, id: PodId)
    requires AllMild(trace)
    ensures EndsBy(trace, Up(id))
  {
  }

  lemma {:induction false} MildEnds(trace: seq<Event>)
    requires AllMild(trace)
    ensures EndsBy(trace, Failed(false))
  {
  }

  lemma {:induction false} StopsAt(before: seq<Event>, after: seq<Event>, result: Try, i: nat, outcome: Outcome)
    requires before <= after && AllMild(before) && OneFailure(before, after, result, i)
    requires outcome == if !Recoverable(result.exc) then Propagates(result.exc) else Failed(true)
    requires !Recoverable(result.exc) || Verdict(result.exc, false) == Abort
    ensures EndsBy(after, outcome)
  {
    ThreeKinds(result.exc);
    assert AllMild(after[..i]);
    assert LastFailure(after, i);
    assert StoppedBy(after, i, outcome);
  }

  lemma {:induction false} GoesOnAfter(before: seq<Event>, after: seq<Event>, result: Try, i: nat)
    requires before <= after && AllMild(before) && OneFailure(before, after, result, i)
    requires Recoverable(result.exc) && Verdict(result.exc, false) != Abort
    ensures AllMild(after)
  {
    ThreeKinds(result.exc);
  }

  class Attempt {
    /** What the clock, the provider and the pod say, turn by turn. */
    const now: nat -> real
    const creations: nat -> Creation
    const polls: nat -> Poll
    const ends: nat -> bool
    const comesUp: nat -> Option<Exc>
    const names: nat -> Name

    var turn: nat
    var billing: seq<Bill>
    ghost var trace: seq<Event>
    ghost var deadline: real

    /** The event is what was said when it was asked. */
    ghost predicate Faithful(e: Event) {
      match e
      case Clock(t, at) => at == now(t)
      case Create(t, name, result) => name == names(t) && result == creations(t)
      case Polled(t, name, found) => found == FoundIn(polls(t), name)
      case BroughtUp(t, id, failure) => failure == comesUp(t)
      case Terminated(t, id, confirmed) => confirmed == ends(t)
      case Billed(_) => true
      case GivenUp(_, _) => true
    }

    /** The trace is what was asked and said, each turn once and in order. */
    ghost predicate TraceIs(trace: seq<Event>, turn: nat) {
      && (forall i :: 0 <= i < |trace| ==> Faithful(trace[i]) && (trace[i].Asks() ==> trace[i].turn < turn))
      && (forall i, j :: 0 <= i < j < |trace| && trace[i].Asks() && trace[j].Asks() ==> trace[i].turn < trace[j].turn)
    }

    lemma {:induction false} TraceMore(trace: seq<Event>, turn: nat, e: Event)
      requires TraceIs(trace, turn) && Faithful(e) && (e.Asks() ==> e.turn == turn)
      ensures TraceIs(trace + [e], turn + if e.Asks() then 1 else 0)
    {
      hide Faithful;
    }

    /** `billing` is what was billed, in order, and every create was careful. */
    ghost predicate Valid()
      reads this
    {
      billing == Bills(trace) && Careful(trace, deadline) && TraceIs(trace, turn)
    }

    constructor (now: nat -> real, creations: nat -> Creation, polls: nat -> Poll, ends: nat -> bool,
                 comesUp: nat -> Option<Exc>, names: nat -> Name)
      ensures Valid() && trace == []
      ensures this.now == now && this.creations == creations && this.polls == polls
      ensures this.ends == ends && this.comesUp == comesUp && this.names == names
    {
      this.now, this.creations, this.polls := now, creations, polls;
      this.ends, this.comesUp, this.names := ends, comesUp, names;
      turn, billing, trace, deadline := 0, [], [], 0.0;
    }

    /** Something was asked, and said. */
    method Note(ghost e: Event)
      requires Valid() && e.Asks() && e.turn == turn && Faithful(e) && (e.Create? ==> MayBuy(trace, deadline))
      modifies this`trace, this`turn
      ensures Valid() && trace == old(trace) + [e] && turn == old(turn) + 1
    {
      hide Careful, MayBuy, TraceIs, Bills;
      TraceMore(trace, turn, e);
      CarefulMore(trace, e, deadline);
      BillsMore(trace, e);
      trace := trace + [e];
      turn := turn + 1;
    }

    method Bill(b: Bill)
      requires Valid()
      modifies this`trace, this`billing
      ensures Valid() && trace == old(trace) + [Billed(b)]
    {
      hide Careful, MayBuy, TraceIs, Bills;
      TraceMore(trace, turn, Billed(b));
      CarefulMore(trace, Billed(b), deadline);
      BillsMore(trace, Billed(b));
      billing := billing + [b];
      trace := trace + [Billed(b)];
    }

    ghost method GiveUp(name: Name, settled: bool)
      requires Valid()
      modifies this`trace
      ensures Valid() && trace == old(trace) + [GivenUp(name, settled)]
    {
      hide Careful, MayBuy, TraceIs, Bills;
      TraceMore(trace, turn, GivenUp(name, settled));
      CarefulMore(trace, GivenUp(name, settled), deadline);
      BillsMore(trace, GivenUp(name, settled));
      trace := trace + [GivenUp(name, settled)];
    }

    /** `_abandon`, with its callers' `billing.append`: the pod is confirmed
        gone, or on the bill. */
    method Abandon(id: PodId, ghost open: set<PodId>) returns (ended: bool)
      requires Valid() && AllClosedBut(trace, open)
      modifies this`turn, this`trace, this`billing
      ensures Valid() && AllClosedBut(trace, open - {id}) && Sweeps(old(trace), trace) && turn == old(turn) + 1
      ensures ended ==> trace == old(trace) + [Terminated(old(turn), id, true)]
      ensures !ended ==> trace == old(trace) + [Terminated(old(turn), id, false), Billed(Known(id))]
    {
      hide AllClosedBut, Careful, Bills, TraceIs;
      ended := ends(turn);
      ghost var e := Terminated(turn, id, ended);
      ClosedMore(trace, e, open);
      Note(e);
      assert (open + {}) - {id} == open - {id} && (open + {}) - {} == open;
      if !ended {
        ClosedMore(trace, Billed(Known(id)), open);
        Bill(Known(id));
      }
    }

    /** Every pod listed under the name of a create that failed is ended or
        billed; whether none of them had to be billed. */
    method AbandonAll(found: seq<PodId>) returns (settled: bool)
      requires Valid() && AllClosedBut(trace, Elems(found))
      modifies this`turn, this`trace, this`billing
      ensures Valid() && AllClosedBut(trace, {}) && Sweeps(old(trace), trace) && turn >= old(turn)
      ensures settled <==> forall id :: id in found ==> Known(id) !in billing
      ensures forall i :: |old(trace)| <= i < |trace| ==> !trace[i].Polled?
    {
      hide AllClosedBut, Careful, Bills, TraceIs;
      ghost var before := trace;
      assert found[0..] == found;
      for i := 0 to |found|
        invariant Valid() && AllClosedBut(trace, Elems(found[i..])) && Sweeps(before, trace) && turn >= old(turn)
        invariant forall k :: |before| <= k < |trace| ==> !trace[k].Polled?
      {
        ghost var was := trace;
        var _ := Abandon(found[i], Elems(found[i..]));
        SweepsMore(before, was, trace);
        assert found[i..] == [found[i]] + found[i + 1..];
        FewerOpen(trace, Elems(found[i..]) - {found[i]}, Elems(found[i + 1..]));
      }
      assert Elems(found[|found|..]) == {};
      settled := forall id :: id in found ==> Known(id) !in billing;
    }

    /** `_sweep_failed_create`: settled exactly when some listing answered and no
        pod found under the name is on the bill. */
    method Sweep(name: Name) returns (interrupted: bool, settled: bool, ghost found: seq<PodId>)
      requires Valid() && AllClosedBut(trace, {})
      modifies this`turn, this`trace, this`billing
      ensures Valid() && AllClosedBut(trace, {}) && Sweeps(old(trace), trace)
      ensures forall i, id :: |old(trace)| <= i < |trace| && Ours(trace[i], id) ==> id in found
      ensures !interrupted ==>
        (settled <==> (exists t :: old(turn) <= t < turn && polls(t).Listed?) && forall id :: id in found ==> Known(id) !in billing)
      ensures !interrupted && found == [] ==> turn == old(turn) + CREATE_SWEEP_POLLS
      ensures !interrupted && !settled ==> Unknown(name) in billing || exists id :: id in found && Known(id) in billing
    {
      hide AllClosedBut, Careful, Bills, TraceIs;
      ghost var before, first := trace, turn;
      var listed := false;
      found := [];
      for poll := 0 to CREATE_SWEEP_POLLS
        invariant Valid() && AllClosedBut(trace, {}) && Sweeps(before, trace) && found == [] && turn == first + poll
        invariant forall i, id :: |before| <= i < |trace| ==> !Ours(trace[i], id)
        invariant listed <==> exists t :: first <= t < turn && polls(t).Listed?
      {
        ghost var was := trace;
        var answer := polls(turn);
        var ids := FoundIn(answer, name);
        ClosedMore(trace, Polled(turn, name, ids), {});
        Note(Polled(turn, name, ids));
        SweepsMore(before, was, trace);
        assert ({} + Elems(ids)) - {} == Elems(ids);
        if answer.Interrupted? {
          assert Elems(ids) == {};
          return true, false, found;
        }
        listed := listed || answer.Listed?;
        if ids == [] {
          assert Elems(ids) == {};
        } else {
          was := trace;
          found := ids;
          settled := AbandonAll(ids);
          SweepsMore(before, was, trace);
          return false, settled, found;
        }
      }
      if listed {
        return false, true, found;
      }
      ClosedMore(trace, Billed(Unknown(name)), {});
      Same({}, Billed(Unknown(name)));
      Bill(Unknown(name));
      BillsIs(trace, Unknown(name));
      assert Billed(Unknown(name)) in trace;
      return false, false, found;
    }

    /** `_try_offer`: on the way out of every failure all pods are closed, and
        a failure the next offer could make up for leaves no create unsettled. */
    method TryOffer() returns (result: Try)
      requires Valid() && MayBuy(trace, deadline)
      modifies this`turn, this`trace, this`billing
      ensures Valid() && old(trace) + [Create(old(turn), names(old(turn)), creations(old(turn)))] <= trace
      ensures forall i :: |old(trace)| <= i < |trace| ==> !trace[i].Clock?
      ensures result.Ready? ==>
        && AllClosedBut(trace, {result.id}) && creations(old(turn)) == Created(result.id)
        && trace[|trace| - 1].BroughtUp? && trace[|trace| - 1].id == result.id && trace[|trace| - 1].failure.None?
      ensures result.Raised? ==> AllClosedBut(trace, {})
      ensures result.Raised? && Recoverable(result.exc) && Verdict(result.exc, false) != Abort ==> AllSettled(trace)
      ensures result.Ready? ==> forall i :: |old(trace)| <= i < |trace| ==> Failure(trace[i]).None?
      ensures result.Raised? ==> exists i: nat :: OneFailure(old(trace), trace, result, i)
    {
      hide AllClosedBut, Careful, Bills, InTime, TraceIs, AllSettled;
      ghost var first := trace;
      var name, created := names(turn), creations(turn);
      ghost var create := Create(turn, name, created);
      ClosedMore(trace, create, {});
      Note(create);
      if created.Created? {
        SettledMore(first, create);
        assert ({} + {created.id}) - {} == {created.id};
        var up := comesUp(turn);
        ghost var e := BroughtUp(turn, created.id, up);
        ClosedMore(trace, e, {created.id});
        Same({created.id}, e);
        SettledMore(trace, e);
        Note(e);
        if up.None? {
          return Ready(created.id);
        }
        ghost var mid := trace;
        var _ := Abandon(created.id, {created.id});
        SweepsSettle(mid, trace);
        assert {created.id} - {created.id} == {};
        assert OneFailure(first, trace, Raised(up.value), |first| + 1) by { FailedUp(first, create, e, mid, trace, up.value); }
        return Raised(up.value);
      }
      Same({}, create);
      if created.exc.Refused? {
        SettledMore(first, create);
        assert OneFailure(first, trace, Raised(created.exc), |first|);
        return Raised(created.exc);
      }
      ghost var bought := trace;
      var interrupted, settled;
      ghost var found;
      interrupted, settled, found := Sweep(name);
      if interrupted {
        ClosedMore(trace, Billed(Unknown(name)), {});
        Same({}, Billed(Unknown(name)));
        Bill(Unknown(name));
        ClosedMore(trace, GivenUp(name, false), {});
        Same({}, GivenUp(name, false));
        GiveUp(name, false);
        FailedCreate(first, create, bought, trace, Raised(Interrupt));
        return Raised(Interrupt);
      }
      ClosedMore(trace, GivenUp(name, settled), {});
      Same({}, GivenUp(name, settled));
      if settled {
        SettlesLast(first, create, trace, name);
      }
      GiveUp(name, settled);
      result := Raised(if !settled && !created.exc.Interrupt? then Unprovisionable else created.exc);
      FailedCreate(first, create, bought, trace, result);
    }

    /** `offer` offers have been come to, and none has ended the attempt. */
    ghost predicate Going(offer: nat)
      reads this
    {
      && Valid() && AllClosedBut(trace, {}) && AllSettled(trace) && AllMild(trace)
      && Looks(trace) == offer && Tried(trace, deadline)
    }

    /** How the attempt ends, with every pod accounted for. */
    ghost predicate Over(outcome: Outcome)
      reads this
    {
      && Valid() && EndsBy(trace, outcome)
      && (forall i, id :: 0 <= i < |trace| && Ours(trace[i], id) ==>
           outcome == Up(id) || (exists j :: 0 <= j < |trace| && Confirms(trace[j], id)) || Known(id) in billing)
      && (outcome.Up? ==> trace != [] && trace[|trace| - 1].BroughtUp? && trace[|trace| - 1].id == outcome.id && trace[|trace| - 1].failure.None?)
      && (outcome.Propagates? ==> !Recoverable(outcome.exc))
    }

    /** Up, or failed at an offer in a way that ends the attempt. */
    method Ended(result: Try, ghost ready: seq<Event>) returns (end: Option<Outcome>)
      requires Valid() && AllMild(ready) && ready <= trace
      requires result.Ready? ==>
        && AllClosedBut(trace, {result.id}) && trace != []
        && trace[|trace| - 1].BroughtUp? && trace[|trace| - 1].id == result.id && trace[|trace| - 1].failure.None?
        && forall i :: |ready| <= i < |trace| ==> Failure(trace[i]).None?
      requires result.Raised? ==> AllClosedBut(trace, {}) && exists i: nat :: OneFailure(ready, trace, result, i)
      ensures end.Some? ==> Over(end.value) && end.value != Failed(false)
      ensures end.None? ==> result.Raised? && Recoverable(result.exc) && Verdict(result.exc, false) != Abort && AllMild(trace)
    {
      hide AllClosedBut, Careful, Bills, TraceIs, OneFailure, AllMild, EndsBy, Verdict, Recoverable;
      if result.Ready? {
        MildMore(ready, trace);
        Settlement(trace, {result.id});
        assert EndsBy(trace, Up(result.id)) by { UpEnds(trace, result.id); }
        return Some(Up(result.id));
      }
      ghost var i: nat :| OneFailure(ready, trace, result, i);
      Settlement(trace, {});
      if !Recoverable(result.exc) {
        StopsAt(ready, trace, result, i, Propagates(result.exc));
        return Some(Propagates(result.exc));
      }
      if Verdict(result.exc, false) == Abort {
        StopsAt(ready, trace, result, i, Failed(true));
        return Some(Failed(true));
      }
      GoesOnAfter(ready, trace, result, i);
      end := None;
    }

    /** One offer of `provision`. */
    method TryNext(until: real, ghost offer: nat) returns (end: Option<Outcome>)
      requires Going(offer) && until == deadline
      modifies this`turn, this`trace, this`billing
      ensures end.None? ==> Going(offer + 1)
      ensures end.Some? ==> Over(end.value) && end.value != Failed(false)
    {
      hide AllClosedBut, Careful, Bills, InTime, TraceIs, AllSettled, Tried, AllMild, OneFailure, EndsBy;
      var t := now(turn);
      ghost var look, before := Clock(turn, t), trace;
      ClosedMore(trace, look, {});
      Same({}, look);
      SettledMore(trace, look);
      LooksMore(trace, look);
      TriedClock(trace, look, deadline);
      Note(look);
      MildMore(before, trace);
      if t >= until {
        return None;
      }
      JustRead(trace, deadline);
      ghost var ready := trace;
      var result := TryOffer();
      LooksSame(ready, trace);
      TriedOffer(before, look, trace, deadline);
      end := Ended(result, ready);
    }

    /** `provision`: at every exit each pod a create returned, or found under a
        failed create's name, is the host returned, confirmed gone, or named in
        `billing`; each create came with all earlier ones so closed, before the
        deadline by the last clock reading, and after no unsettled one; and it
        ends up, at the first failure no other offer could make up for, or
        after every offer was come to. */
    method Provision(offers: nat) returns (outcome: Outcome)
      requires Valid() && trace == []
      modifies this
      ensures Valid() && Careful(trace, deadline) && TraceIs(trace, turn)
      ensures offers > 0 ==> deadline == now(old(turn)) + CEILING_MINUTES * 60.0
      ensures forall i, id :: 0 <= i < |trace| && Ours(trace[i], id) ==>
        outcome == Up(id) || (exists j :: 0 <= j < |trace| && Confirms(trace[j], id)) || Known(id) in billing
      ensures outcome.Up? ==> trace != [] && trace[|trace| - 1].BroughtUp? && trace[|trace| - 1].id == outcome.id && trace[|trace| - 1].failure.None?
      ensures outcome.Propagates? ==> !Recoverable(outcome.exc)
      ensures offers > 0 ==> EndsBy(trace, outcome)
      ensures offers == 0 ==> outcome == Failed(true) && trace == []
      ensures outcome == Failed(false) ==> Looks(trace) == offers && Tried(trace, deadline)
    {
      hide AllClosedBut, Careful, Bills, InTime, TraceIs, AllSettled, Tried, AllMild, EndsBy;
      NothingYet(trace, deadline);
      if offers == 0 {
        return Failed(true);
      }
      var until := now(turn) + CEILING_MINUTES * 60.0;
      TraceEmpty(turn);
      turn := turn + 1;
      deadline := until;
      NothingYet(trace, deadline);
      for offer := 0 to offers
        invariant Going(offer) && until == deadline
        invariant deadline == now(old(turn)) + CEILING_MINUTES * 60.0
      {
        var end := TryNext(until, offer);
        if end.Some? {
          return end.value;
        }
      }
      Settlement(trace, {});
      assert EndsBy(trace, Failed(false)) by { MildEnds(trace); }
      return Failed(false);
    }

    lemma {:induction false} TraceEmpty(turn: nat)
      ensures TraceIs([], turn) && TraceIs([], turn + 1)
    {
    }
  }

  /** How many offers were come to. */
  function Looks(trace: seq<Event>): nat {
    if trace == [] then 0 else Looks(trace[..|trace| - 1]) + if trace[|trace| - 1].Clock? then 1 else 0
  }

  /** Every offer come to in time was tried. */
  predicate Tried(trace: seq<Event>, deadline: real) {
    forall k :: 0 <= k < |trace| && trace[k].Clock? && trace[k].now < deadline ==> k + 1 < |trace| && trace[k + 1].Create?
  }

  lemma {:induction false} LooksMore(trace: seq<Event>, e: Event)
    ensures Looks(trace + [e]) == Looks(trace) + if e.Clock? then 1 else 0
  {
    assert (trace + [e])[..|trace|] == trace;
  }

  lemma {:induction false} LooksSame(before: seq<Event>, after: seq<Event>)
    requires before <= after && forall i :: |before| <= i < |after| ==> !after[i].Clock?
    ensures Looks(after) == Looks(before)
    decreases |after|
  {
    if |before| < |after| {
      LooksSame(before, after[..|after| - 1]);
    } else {
      assert before == after;
    }
  }

  lemma {:induction false} TriedClock(trace: seq<Event>, e: Event, deadline: real)
    requires Tried(trace, deadline) && e.Clock?
    ensures e.now >= deadline ==> Tried(trace + [e], deadline)
  {
  }

  lemma {:induction false} TriedOffer(before: seq<Event>, look: Event, after: seq<Event>, deadline: real)
    requires Tried(before, deadline) && before + [look] <= after && |before| + 1 < |after| && after[|before| + 1].Create?
    requires forall i :: |before| + 1 <= i < |after| ==> !after[i].Clock?
    ensures Tried(after, deadline)
  {
    forall k | 0 <= k < |after| && after[k].Clock? && after[k].now < deadline
      ensures k + 1 < |after| && after[k + 1].Create?
    {
      if k < |before| {
        assert after[k] == before[k] && after[k + 1] == before[k + 1];
      }
    }
  }

  lemma {:induction false} SweepsSettle(before: seq<Event>, after: seq<Event>)
    requires Sweeps(before, after) && AllSettled(before)
    ensures AllSettled(after)
  {
    forall i | 0 <= i < |after| && Doubtful(after[i])
      ensures GivenUp(after[i].name, true) in after[i..]
    {
      assert after[i] == before[i] && before[i..] <= after[i..];
    }
  }

  lemma {:induction false} NothingYet(trace: seq<Event>, deadline: real)
    requires trace == []
    ensures AllClosedBut(trace, {}) && Careful(trace, deadline) && AllSettled(trace) && Tried(trace, deadline) && AllMild(trace)
  {
  }

  lemma {:induction false} JustRead(trace: seq<Event>, deadline: real)
    requires trace != [] && trace[|trace| - 1].Clock? && trace[|trace| - 1].now < deadline
    ensures InTime(trace, |trace|, deadline)
  {
  }

  lemma {:induction false} Settlement(trace: seq<Event>, open: set<PodId>)
    requires AllClosedBut(trace, open)
    ensures forall i, id :: 0 <= i < |trace| && Ours(trace[i], id) && id !in open ==>
      (exists j :: 0 <= j < |trace| && Confirms(trace[j], id)) || Known(id) in Bills(trace)
  {
    forall i, id | 0 <= i < |trace| && Ours(trace[i], id) && id !in open
      ensures (exists j :: 0 <= j < |trace| && Confirms(trace[j], id)) || Known(id) in Bills(trace)
    {
      BillsIs(trace, Known(id));
    }
  }

  /** A sweep lists pods, terminates and bills, and does nothing else. */
  predicate Sweeps(before: seq<Event>, after: seq<Event>) {
    before <= after && forall i :: |before| <= i < |after| ==> after[i].Polled? || after[i].Terminated? || after[i].Billed?
  }

  lemma {:induction false} SweepsMore(before: seq<Event>, mid: seq<Event>, after: seq<Event>)
    requires Sweeps(before, mid) && Sweeps(mid, after)
    ensures Sweeps(before, after)
  {
  }

  lemma {:induction false} Same(open: set<PodId>, e: Event)
    requires Opens(e) == {} && Closes(e) == {}
    ensures (open + Opens(e)) - Closes(e) == open
  {
  }

  lemma {:induction false} FewerOpen(trace: seq<Event>, open: set<PodId>, more: set<PodId>)
    requires AllClosedBut(trace, open) && open <= more
    ensures AllClosedBut(trace, more)
  {
  }

  function Bills(trace: seq<Event>): seq<Bill> {
    if trace == [] then []
    else Bills(trace[..|trace| - 1]) + if trace[|trace| - 1].Billed? then [trace[|trace| - 1].bill] else []
  }

  lemma {:induction false} BillsMore(trace: seq<Event>, e: Event)
    ensures Bills(trace + [e]) == Bills(trace) + if e.Billed? then [e.bill] else []
  {
    assert (trace + [e])[..|trace|] == trace;
  }

  lemma {:induction false} BillsIs(trace: seq<Event>, b: Bill)
    ensures b in Bills(trace) <==> Billed(b) in trace
  {
    if trace != [] {
      BillsIs(trace[..|trace| - 1], b);
      assert trace == trace[..|trace| - 1] + [trace[|trace| - 1]];
    }
  }
}
