/** When an ephemeral host drains itself (`maybe_terminate` in
    gpuc/host/dispatcher.py). */
module Idle {
  import opened Lists

  /** A pass coming to the check, with what it finds; or a self-terminate that
      failed. Times are this machine's monotonic clock, in seconds. */
  datatype Moment =
    | Look(now: real, ephemeral: bool, idleMinutes: real, running: bool, queued: bool)
    | TerminateFailed(now: real)

  /** `_queue_empty_since` and `_terminate_retry_at`. */
  datatype Clock = Clock(emptySince: Option<real>, retryAt: Option<real>)

  const RETRY_S := 600.0

  /** The look gets as far as asking whether anything runs or waits. */
  predicate Reaches(c: Clock, m: Moment) {
    m.Look? && m.ephemeral && !(c.retryAt.Some? && m.now < c.retryAt.value)
  }

  predicate Nothing(m: Moment)
    requires m.Look?
  {
    !m.running && !m.queued
  }

  function Since(c: Clock, m: Moment): real
    requires m.Look?
  {
    if c.emptySince.Some? then c.emptySince.value else m.now
  }

  function Tick(c: Clock, m: Moment): Clock {
    if m.TerminateFailed? then c.(retryAt := Some(m.now + RETRY_S))
    else if !Reaches(c, m) then c
    else c.(emptySince := if Nothing(m) then Some(Since(c, m)) else None)
  }

  predicate Drains(c: Clock, m: Moment) {
    Reaches(c, m) && Nothing(m) && m.now - Since(c, m) >= m.idleMinutes * 60.0
  }

  function At(run: seq<Moment>, k: nat): Clock
    requires k <= |run|
  {
    if k == 0 then Clock(None, None) else Tick(At(run, k - 1), run[k - 1])
  }

  predicate Checked(run: seq<Moment>, k: nat)
    requires k < |run|
  {
    Reaches(At(run, k), run[k])
  }

  predicate Ordered(run: seq<Moment>) {
    forall i, j :: 0 <= i <= j < |run| ==> run[i].now <= run[j].now
  }

  /** Look `i` reached the check, and from it on up to before `k` every look
      that did found nothing running and nothing queued. */
  predicate IdleFrom(run: seq<Moment>, i: nat, k: nat)
    requires i < k <= |run|
  {
    Checked(run, i) && forall j :: i <= j < k && Checked(run, j) ==> Nothing(run[j])
  }

  lemma {:induction false} IdleLonger(run: seq<Moment>, i: nat, k: nat)
    requires i < k < |run|
    ensures IdleFrom(run, i, k + 1) <==> IdleFrom(run, i, k) && (Checked(run, k) ==> Nothing(run[k]))
  {
    hide Checked;
  }

  lemma {:induction false} IdleHere(run: seq<Moment>, k: nat)
    requires k < |run|
    ensures IdleFrom(run, k, k + 1) <==> Checked(run, k) && Nothing(run[k])
  {
    hide Checked;
  }

  lemma {:induction false} ClockMoves(run: seq<Moment>, k: nat)
    requires k < |run|
    ensures At(run, k + 1).emptySince == if !Checked(run, k) then At(run, k).emptySince
                                         else if Nothing(run[k]) then Some(Since(At(run, k), run[k])) else None
  {
  }

  /** The clock remembers a look that the idle stretch it is in began with. */
  lemma {:induction false} RemembersALook(run: seq<Moment>, k: nat)
    requires k <= |run| && At(run, k).emptySince.Some?
    ensures exists i: nat :: i < k && IdleFrom(run, i, k) && run[i].now == At(run, k).emptySince.value
  {
    if k > 0 {
      ClockMoves(run, k - 1);
      hide At, Tick, IdleFrom, Checked;
      if At(run, k - 1).emptySince.Some? {
        RemembersALook(run, k - 1);
        var i: nat :| i < k - 1 && IdleFrom(run, i, k - 1) && run[i].now == At(run, k - 1).emptySince.value;
        IdleLonger(run, i, k - 1);
      } else {
        IdleHere(run, k - 1);
      }
    }
  }

  lemma {:induction false} NoLaterThan(run: seq<Moment>, i: nat)
    requires i < |run| && Ordered(run) && run[i].Look?
    ensures Since(At(run, i), run[i]) <= run[i].now
  {
    if At(run, i).emptySince.Some? {
      RemembersALook(run, i);
      hide At, IdleFrom;
      var e: nat :| e < i && IdleFrom(run, e, i) && run[e].now == At(run, i).emptySince.value;
    }
  }

  /** And the first one of it. */
  lemma {:induction false} RemembersTheFirst(run: seq<Moment>, i: nat, k: nat)
    requires i < k <= |run| && Ordered(run) && IdleFrom(run, i, k)
    ensures At(run, k).emptySince.Some? && At(run, k).emptySince.value <= run[i].now
    decreases k
  {
    hide At, IdleFrom, Ordered, Reaches;
    ClockMoves(run, k - 1);
    if i < k - 1 {
      IdleLonger(run, i, k - 1);
      RemembersTheFirst(run, i, k - 1);
    } else {
      IdleHere(run, i);
      ReachesLook(At(run, i), run[i]);
      NoLaterThan(run, i);
    }
  }

  lemma {:induction false} ReachesLook(c: Clock, m: Moment)
    ensures Reaches(c, m) ==> m.Look?
  {
  }

  /** A drain starts at a look exactly when that look and every other one that
      reached the check found nothing, over at least the idle time: whatever
      the configuration did and however many self-terminates failed. */
  lemma {:induction false} DrainsExactlyWhenIdle(run: seq<Moment>, k: nat)
    requires k < |run| && Ordered(run)
    ensures Drains(At(run, k), run[k]) <==>
      Checked(run, k)
      && exists i: nat :: i <= k && IdleFrom(run, i, k + 1) && run[k].now - run[i].now >= run[k].idleMinutes * 60.0
  {
    ClockMoves(run, k);
    if Drains(At(run, k), run[k]) {
      RemembersALook(run, k + 1);
    }
    forall i: nat | i <= k && IdleFrom(run, i, k + 1) && Checked(run, k)
      ensures Nothing(run[k]) && Since(At(run, k), run[k]) <= run[i].now
    {
      RemembersTheFirst(run, i, k + 1);
    }
    hide At, IdleFrom;
  }

  /** The last self-terminate to have failed before look `k`. */
  predicate LastFailed(run: seq<Moment>, k: nat, j: nat) {
    j < k <= |run| && run[j].TerminateFailed? && forall i :: j < i < k ==> !run[i].TerminateFailed?
  }

  lemma {:induction false} RetryIs(run: seq<Moment>, k: nat)
    requires k <= |run|
    ensures forall j: nat :: LastFailed(run, k, j) ==> At(run, k).retryAt == Some(run[j].now + 600.0)
    ensures At(run, k).retryAt.Some? ==> exists j: nat :: LastFailed(run, k, j)
  {
    if k > 0 {
      RetryIs(run, k - 1);
      if run[k - 1].TerminateFailed? {
        assert LastFailed(run, k, k - 1);
      } else {
        assert At(run, k).retryAt == At(run, k - 1).retryAt;
        forall j: nat
          ensures LastFailed(run, k, j) <==> LastFailed(run, k - 1, j)
        {
        }
        if At(run, k).retryAt.Some? {
          var j: nat :| LastFailed(run, k - 1, j);
          assert LastFailed(run, k, j);
        }
      }
    }
  }

  /** A look reaches the check exactly if the host is ephemeral and no
      self-terminate failed in the last ten minutes. */
  lemma {:induction false} CheckedExactly(run: seq<Moment>, k: nat)
    requires k < |run|
    ensures Checked(run, k) <==>
      run[k].Look? && run[k].ephemeral && forall j: nat :: LastFailed(run, k, j) ==> run[k].now >= run[j].now + 600.0
  {
    RetryIs(run, k);
    hide At, LastFailed;
  }

  /** So a drain needs both, whatever the idle time. */
  lemma {:induction false} DrainsOnlyWhenEphemeral(run: seq<Moment>, k: nat, j: nat)
    requires k < |run| && Drains(At(run, k), run[k])
    ensures run[k].Look? && run[k].ephemeral && !run[k].running && !run[k].queued
    ensures LastFailed(run, k, j) ==> run[k].now >= run[j].now + 600.0
  {
    CheckedExactly(run, k);
    hide At, LastFailed;
  }

  /** Without failures on a host that stays ephemeral, every look reaches the
      check, so a drain means that all of them found nothing for that long. */
  lemma {:induction false} EveryLookIsChecked(run: seq<Moment>, k: nat)
    requires k < |run| && forall i :: 0 <= i < |run| ==> run[i].Look? && run[i].ephemeral
    ensures Checked(run, k) && At(run, k).retryAt.None?
  {
    if k > 0 {
      EveryLookIsChecked(run, k - 1);
    }
  }

  lemma {:induction false} NoDrainUnlessIdle(run: seq<Moment>, k: nat)
    requires k < |run| && Ordered(run) && forall i :: 0 <= i < |run| ==> run[i].Look? && run[i].ephemeral
    requires Drains(At(run, k), run[k])
    ensures exists i: nat :: i <= k && run[k].now - run[i].now >= run[k].idleMinutes * 60.0
              && forall j :: i <= j <= k ==> !run[j].running && !run[j].queued
  {
    DrainsExactlyWhenIdle(run, k);
    var i: nat :| i <= k && IdleFrom(run, i, k + 1) && run[k].now - run[i].now >= run[k].idleMinutes * 60.0;
    forall j | i <= j <= k
      ensures !run[j].running && !run[j].queued
    {
      EveryLookIsChecked(run, j);
    }
  }

  class Watch {
    var emptySince: Option<real>
    var retryAt: Option<real>
    ghost var run: seq<Moment>

    ghost predicate Valid()
      reads this
    {
      At(run, |run|) == Clock(emptySince, retryAt)
    }

    constructor ()
      ensures Valid() && run == []
    {
      emptySince, retryAt, run := None, None, [];
    }

    /** `maybe_terminate` */
    method MaybeTerminate(look: Moment) returns (drains: bool)
      requires Valid() && look.Look?
      modifies this
      ensures Valid() && run == old(run) + [look]
      ensures drains == Drains(At(run, |old(run)|), look)
    {
      Longer(run, look);
      run := run + [look];
      if !look.ephemeral || (retryAt.Some? && look.now < retryAt.value) {
        return false;
      }
      if look.running {
        emptySince := None;
        return false;
      }
      if look.queued {
        emptySince := None;
        return false;
      }
      if emptySince.None? {
        emptySince := Some(look.now);
      }
      drains := look.now - emptySince.value >= look.idleMinutes * 60.0;
    }

    method FailedToTerminate(now: real)
      requires Valid()
      modifies this
      ensures Valid() && run == old(run) + [TerminateFailed(now)]
    {
      Longer(run, TerminateFailed(now));
      run := run + [TerminateFailed(now)];
      retryAt := Some(now + RETRY_S);
    }
  }

  lemma {:induction false} Longer(run: seq<Moment>, m: Moment)
    ensures At(run + [m], |run|) == At(run, |run|)
  {
    Prefix(run, m, |run|);
  }

  lemma {:induction false} Prefix(run: seq<Moment>, m: Moment, k: nat)
    requires k <= |run|
    ensures At(run + [m], k) == At(run, k)
  {
    if k > 0 {
      Prefix(run, m, k - 1);
    }
  }
}
