/** Which machine serves a queue (gpuc/host/owner.py): the timed takeover of
    another machine's record. */
module Owner {
  import opened Lists

  type Instance = string

  /** `owner.json`: the instance it names and its modification time. */
  datatype Record = Record(instance: Instance, renewed: real)

  const STALE_S := 30.0
  const LONG_GONE_S := 10.0 * STALE_S
  const CLAIM_WAIT_S := STALE_S + 5.0

  /** One reading of the record, and when on this machine's monotonic clock. */
  datatype Sighting = Sighting(at: real, record: Option<Record>)

  datatype Outcome =
    | Took(from: Option<Instance>)
    | Busy(owner: Instance)

  predicate Other(r: Option<Record>, me: Instance) {
    r.Some? && r.value.instance != me
  }

  /** The last sightings, from `i` on, are all of the same record. */
  predicate Unchanged(s: seq<Sighting>, i: nat) {
    i < |s| && forall j :: i <= j < |s| ==> s[j].record == s[i].record
  }

  /** The record was seen to change. */
  predicate SawChange(s: seq<Sighting>) {
    exists j :: 0 < j < |s| && s[j].record != s[j - 1].record
  }

  lemma {:induction false} OneLook(s: seq<Sighting>)
    requires |s| == 1
    ensures Unchanged(s, 0)
  {
  }

  lemma {:induction false} LookedAgain(s: seq<Sighting>, x: Sighting, from: nat)
    requires Unchanged(s, from)
    ensures SawChange(s) ==> SawChange(s + [x])
    ensures if x.record == s[|s| - 1].record then Unchanged(s + [x], from)
            else Unchanged(s + [x], |s|) && SawChange(s + [x])
  {
    var more := s + [x];
    if SawChange(s) {
      var j :| 0 < j < |s| && s[j].record != s[j - 1].record;
      assert more[j].record != more[j - 1].record;
    }
    if x.record != s[|s| - 1].record {
      assert more[|s|].record != more[|s| - 1].record;
    }
  }

  /** Every reason there is to write the record over, given what was seen, the
      wall clock at the first sighting, and the monotonic clock at the end. */
  datatype Ground = NobodyElse | LongGone | Withdrawn | Quiet(from: nat)

  predicate Justified(g: Ground, s: seq<Sighting>, me: Instance, wall: real, now: real) {
    && s != []
    && match g
       case NobodyElse => |s| == 1 && !Other(s[0].record, me)
       case LongGone => |s| == 1 && Other(s[0].record, me) && wall - s[0].record.value.renewed >= LONG_GONE_S
       case Withdrawn => |s| > 1 && !Other(s[|s| - 1].record, me)
       case Quiet(i) => Unchanged(s, i) && Other(s[i].record, me) && now - s[i].at >= STALE_S
  }

  lemma {:induction false} WithdrawnIsJustified(s: seq<Sighting>, me: Instance, now: real)
    requires |s| > 1 && !Other(s[|s| - 1].record, me)
    ensures Justified(Withdrawn, s, me, 0.0, now)
  {
  }

  lemma {:induction false} QuietIsJustified(s: seq<Sighting>, from: nat, me: Instance, now: real)
    requires Unchanged(s, from) && from < |s| && Other(s[from].record, me) && now - s[from].at >= STALE_S
    ensures Justified(Quiet(from), s, me, 0.0, now)
  {
  }

  /** Another instance's record that differs between any two moments `period`
      or more apart. */
  ghost predicate Renews(file: real -> Option<Record>, me: Instance, period: real) {
    && (forall t :: Other(file(t), me))
    && (forall t, u :: u - t >= period ==> file(t) != file(u))
  }

  /** What the machine that wants the queue has to do with: the record as it
      reads at each moment of that machine's clock until it is written there,
      how long each call takes, and how much longer each sleep. */
  datatype Surroundings = Surroundings(me: Instance, file: real -> Option<Record>, lag: nat -> real, oversleep: nat -> real)

  ghost predicate Onward(w: Surroundings) {
    (forall n :: w.lag(n) >= 0.0) && (forall n :: w.oversleep(n) >= 0.0)
  }

  /** No call takes longer than this. */
  ghost predicate NoSlower(w: Surroundings, slack: real) {
    forall n :: w.lag(n) <= slack
  }

  /** The loop of `claim` as it stands at the top: the clock, the calls made, the
      record last seen, and since when it has been quiet. */
  datatype Vigil = Vigil(clock: real, calls: nat, record: Option<Record>, quietSince: real)

  /** What the loop comes to. */
  datatype Verdict = StillRenewing(record: Option<Record>) | Free(record: Option<Record>)

  ghost function Vigils(w: Surroundings, v: Vigil, deadline: real): Verdict
    requires Onward(w)
    decreases deadline - v.clock
  {
    var c1 := v.clock + w.lag(v.calls);
    if c1 - v.quietSince >= STALE_S then Free(v.record)
    else
      var c2 := c1 + w.lag(v.calls + 1);
      if c2 >= deadline then StillRenewing(v.record)
      else
        var c3 := c2 + 1.0 + w.oversleep(v.calls + 2) + w.lag(v.calls + 3);
        var again := w.file(c3);
        if !Other(again, w.me) then Free(again)
        else if again == v.record then Vigils(w, Vigil(c3, v.calls + 4, v.record, v.quietSince), deadline)
        else
          var c4 := c3 + w.lag(v.calls + 4);
          Vigils(w, Vigil(c4, v.calls + 5, again, c4), deadline)
  }

  lemma {:induction false} VigilStep(w: Surroundings, v: Vigil, deadline: real)
    requires Onward(w)
    ensures var c1 := v.clock + w.lag(v.calls);
            var c2 := c1 + w.lag(v.calls + 1);
            var c3 := c2 + 1.0 + w.oversleep(v.calls + 2) + w.lag(v.calls + 3);
            var again := w.file(c3);
            && (c1 - v.quietSince >= STALE_S ==> Vigils(w, v, deadline) == Free(v.record))
            && (c1 - v.quietSince < STALE_S && c2 >= deadline ==> Vigils(w, v, deadline) == StillRenewing(v.record))
            && (c1 - v.quietSince < STALE_S && c2 < deadline ==>
                 Vigils(w, v, deadline)
                 == if !Other(again, w.me) then Free(again)
                    else if again == v.record then Vigils(w, Vigil(c3, v.calls + 4, v.record, v.quietSince), deadline)
                    else Vigils(w, Vigil(c3 + w.lag(v.calls + 4), v.calls + 5, again, c3 + w.lag(v.calls + 4)), deadline))
  {
  }

  /** What `claim` comes to, begun at this moment and at this wall clock. */
  ghost function Claimed(w: Surroundings, start: real, calls: nat, wait: real, wall: real): Outcome
    requires Onward(w)
  {
    var c0 := start + w.lag(calls);
    var record := w.file(c0);
    if Other(record, w.me) && wall - record.value.renewed < LONG_GONE_S then
      var c1 := c0 + w.lag(calls + 1);
      var c2 := c1 + w.lag(calls + 2);
      match Vigils(w, Vigil(c2, calls + 3, record, c2), c1 + wait)
      case StillRenewing(last) => if Other(last, w.me) then Busy(last.value.instance) else Took(None)
      case Free(last) => Took(if Other(last, w.me) then Some(last.value.instance) else None)
    else Took(if Other(record, w.me) then Some(record.value.instance) else None)
  }

  // Which owners are safe.

  /** The longest a record may go unchanged and be safe from a claimer none of
      whose calls takes longer than `slack`: looks are a second apart at least. */
  function Window(slack: real): real {
    if STALE_S - slack >= 1.0 then STALE_S - slack else 1.0
  }

  /** The quiet stretch a vigil is in began with a look at `first`; its last look
      was at `last`, a second later at least unless they are one. */
  predicate Looking(w: Surroundings, v: Vigil, first: real, last: real) {
    && v.record == w.file(first) == w.file(last) && Other(v.record, w.me)
    && first <= v.quietSince
    && if first == last then v.clock == v.quietSince else last - first >= 1.0 && v.clock == last
  }

  lemma {:induction false} NotQuietYet(w: Surroundings, v: Vigil, slack: real, first: real, last: real)
    requires NoSlower(w, slack) && slack < STALE_S && Renews(w.file, w.me, Window(slack)) && Looking(w, v, first, last)
    ensures v.clock + w.lag(v.calls) - v.quietSince < STALE_S
  {
    assert w.lag(v.calls) <= slack;
    assert last - first >= Window(slack) ==> w.file(first) != w.file(last);
  }

  lemma {:induction false} AlwaysOther(w: Surroundings, period: real, t: real)
    requires Renews(w.file, w.me, period)
    ensures Other(w.file(t), w.me)
  {
  }

  /** A record renewed within the window is watched to the end of the wait. */
  lemma {:induction false} VigilEndsBusy(w: Surroundings, v: Vigil, deadline: real, slack: real, first: real, last: real)
    requires Onward(w) && NoSlower(w, slack) && slack < STALE_S && Renews(w.file, w.me, Window(slack))
    requires Looking(w, v, first, last)
    ensures var r := Vigils(w, v, deadline); r.StillRenewing? && Other(r.record, w.me)
    decreases deadline - v.clock
  {
    hide Renews, NoSlower, Window;
    NotQuietYet(w, v, slack, first, last);
    var c1 := v.clock + w.lag(v.calls);
    var c2 := c1 + w.lag(v.calls + 1);
    if c2 < deadline {
      var c3 := c2 + 1.0 + w.oversleep(v.calls + 2) + w.lag(v.calls + 3);
      AlwaysOther(w, Window(slack), c3);
      var again := w.file(c3);
      if again == v.record {
        var next := Vigil(c3, v.calls + 4, v.record, v.quietSince);
        assert Looking(w, next, first, c3);
        VigilEndsBusy(w, next, deadline, slack, first, c3);
      } else {
        var c4 := c3 + w.lag(v.calls + 4);
        var next := Vigil(c4, v.calls + 5, again, c4);
        assert Looking(w, next, c3, c3);
        VigilEndsBusy(w, next, deadline, slack, c3, c3);
      }
    }
  }

  /** So it is never taken over, unless it looked long gone to begin with. */
  lemma {:induction false} RenewingOwnerIsSafe(w: Surroundings, start: real, calls: nat, wait: real, wall: real, slack: real)
    requires Onward(w) && NoSlower(w, slack) && slack < STALE_S && Renews(w.file, w.me, Window(slack))
    ensures var first := w.file(start + w.lag(calls));
            Claimed(w, start, calls, wait, wall).Busy? <==> wall - first.value.renewed < LONG_GONE_S
  {
    hide Vigils, Renews, NoSlower, Window;
    var c0 := start + w.lag(calls);
    var c1 := c0 + w.lag(calls + 1);
    var c2 := c1 + w.lag(calls + 2);
    AlwaysOther(w, Window(slack), c0);
    VigilEndsBusy(w, Vigil(c2, calls + 3, w.file(c0), c2), c1 + wait, slack, c0, c0);
  }

  /** A record that stands still for a while and is renewed at every other
      moment. */
  function StandsStill(owner: Instance, until: real): real -> Option<Record> {
    (t: real) => Some(Record(owner, if 0.0 <= t <= until then 0.0 else t))
  }

  lemma {:induction false} StandsStillRenews(owner: Instance, me: Instance, until: real, period: real)
    requires owner != me && 0.0 <= until < period
    ensures Renews(StandsStill(owner, until), me, period)
  {
  }

  /** And no longer stretch is safe: whatever the slack and the period beyond
      the window, some owner renewing within that period is taken over by some
      claimer within that slack, one that is held up between reading the record
      and reading its clock. */
  lemma {:induction false} HeldUpClaimerTakesOver(me: Instance, owner: Instance, slack: real, period: real) returns (w: Surroundings)
    requires owner != me && slack >= 0.0 && period > 0.0 && (slack >= STALE_S || period > Window(slack))
    ensures w.me == me && Onward(w) && NoSlower(w, slack) && Renews(w.file, me, period)
    ensures Claimed(w, 0.0, 0, CLAIM_WAIT_S, 0.0) == Took(Some(owner)) && w.file(0.0 + w.lag(0)).value.renewed == 0.0
  {
    if slack >= STALE_S {
      w := Surroundings(me, StandsStill(owner, 0.0), n => if n == 3 then slack else 0.0, n => 0.0);
      StandsStillRenews(owner, me, 0.0, period);
      var v := Vigil(0.0, 3, w.file(0.0), 0.0);
      assert Vigils(w, v, CLAIM_WAIT_S) == Free(v.record);
    } else {
      var still := Window(slack);
      w := Surroundings(me, StandsStill(owner, still), n => if n == 7 then slack else 0.0, n => if n == 5 then still - 1.0 else 0.0);
      StandsStillRenews(owner, me, still, period);
      var record := w.file(0.0);
      assert w.file(still) == record;
      var v1 := Vigil(still, 7, record, 0.0);
      assert Vigils(w, v1, CLAIM_WAIT_S) == Free(record);
      assert Vigils(w, Vigil(0.0, 3, record, 0.0), CLAIM_WAIT_S) == Vigils(w, v1, CLAIM_WAIT_S);
    }
  }

  /** Every owner that renews within `period` keeps its queue from every claimer
      within `slack`. */
  ghost predicate Safe(me: Instance, slack: real, period: real) {
    forall w: Surroundings, start, calls: nat, wait, wall ::
      w.me == me && Onward(w) && NoSlower(w, slack) && Renews(w.file, me, period)
      && wall - w.file(start + w.lag(calls)).value.renewed < LONG_GONE_S ==>
        Claimed(w, start, calls, wait, wall).Busy?
  }

  lemma {:induction false} RenewsMore(file: real -> Option<Record>, me: Instance, period: real, longer: real)
    requires Renews(file, me, period) && period <= longer
    ensures Renews(file, me, longer)
  {
  }

  /** The exact condition: renewing within the window, and a slack short of
      staleness itself. */
  lemma {:induction false} SafeExactlyWithinTheWindow(me: Instance, owner: Instance, slack: real, period: real)
    requires owner != me && slack >= 0.0 && period > 0.0
    ensures Safe(me, slack, period) <==> slack < STALE_S && period <= Window(slack)
  {
    if slack < STALE_S && period <= Window(slack) {
      forall w: Surroundings, start, calls: nat, wait, wall |
        w.me == me && Onward(w) && NoSlower(w, slack) && Renews(w.file, me, period)
        && wall - w.file(start + w.lag(calls)).value.renewed < LONG_GONE_S
        ensures Claimed(w, start, calls, wait, wall).Busy?
      {
        RenewsMore(w.file, me, period, Window(slack));
        RenewingOwnerIsSafe(w, start, calls, wait, wall, slack);
      }
    } else {
      var w := HeldUpClaimerTakesOver(me, owner, slack, period);
      assert !Claimed(w, 0.0, 0, CLAIM_WAIT_S, 0.0).Busy?;
    }
  }

  /** How a turn of the loop ends. */
  datatype Step = Again | GiveUp | Stop

  /** The machine that wants the queue: its clock moves on by some lag at every
      call, and by at least what was asked for in every sleep. */
  class Claimer {
    const me: Instance
    /** What the record says at each moment of this machine's clock, until it
        is written here. */
    const file: real -> Option<Record>
    const lag: nat -> real
    const oversleep: nat -> real

    function Around(): Surroundings {
      Surroundings(me, file, lag, oversleep)
    }

    var clock: real
    var calls: nat
    var written: bool
    ghost var seen: seq<Sighting>

    /** Time does not run backwards, and every sighting is what the record said. */
    ghost predicate Valid()
      reads this
    {
      && (forall n :: lag(n) >= 0.0) && (forall n :: oversleep(n) >= 0.0)
      && (forall i :: 0 <= i < |seen| ==> seen[i].at <= clock && seen[i].record == file(seen[i].at))
    }

    constructor (me: Instance, file: real -> Option<Record>, lag: nat -> real, oversleep: nat -> real, start: real)
      requires (forall n :: lag(n) >= 0.0) && (forall n :: oversleep(n) >= 0.0)
      ensures Valid() && seen == [] && !written
      ensures this.me == me && this.file == file && this.lag == lag && this.oversleep == oversleep && clock == start
    {
      this.me, this.file, this.lag, this.oversleep := me, file, lag, oversleep;
      clock, calls, written, seen := start, 0, false, [];
    }

    method Now() returns (now: real)
      requires Valid()
      modifies this`clock, this`calls
      ensures Valid() && now == clock && clock == old(clock) + lag(old(calls)) && calls == old(calls) + 1
    {
      clock := clock + lag(calls);
      calls := calls + 1;
      now := clock;
    }

    method Current() returns (record: Option<Record>)
      requires Valid()
      modifies this`clock, this`calls, this`seen
      ensures Valid() && clock == old(clock) + lag(old(calls)) && calls == old(calls) + 1 && record == file(clock)
      ensures seen == old(seen) + [Sighting(clock, record)]
    {
      clock := clock + lag(calls);
      calls := calls + 1;
      record := file(clock);
      seen := seen + [Sighting(clock, record)];
    }

    method Sleep(s: real)
      requires Valid() && s >= 0.0
      modifies this`clock, this`calls
      ensures Valid() && clock == old(clock) + s + oversleep(old(calls)) && calls == old(calls) + 1
    {
      clock := clock + s + oversleep(calls);
      calls := calls + 1;
    }

    /** `claim`: the record is written only on one of the four grounds, and
        when the wait is over with the record still changing it is left alone.
        `slack` is the longest any one call takes. */
    method Claim(wait: real, wall: real, ghost slack: real) returns (outcome: Outcome, ghost ground: Ground)
      requires Valid() && seen == [] && !written
      requires forall n :: lag(n) <= slack
      modifies this
      ensures Valid() && seen != []
      ensures outcome.Took? <==> written
      ensures outcome.Took? ==> Justified(ground, seen, me, wall, clock)
      ensures outcome.Took? ==> var last := seen[|seen| - 1].record;
        outcome.from == if Other(last, me) then Some(last.value.instance) else None
      ensures outcome == Claimed(Around(), old(clock), old(calls), wait, wall)
      ensures !Other(seen[0].record, me) || wall - seen[0].record.value.renewed >= LONG_GONE_S ==> outcome.Took? && |seen| == 1
      ensures outcome.Busy? ==> seen[|seen| - 1].record.Some? && outcome.owner == seen[|seen| - 1].record.value.instance
      ensures outcome.Busy? ==> clock - old(clock) >= wait && Watched(seen)
      ensures outcome.Busy? && wait >= STALE_S + 2.0 * slack ==> SawChange(seen)
    {
      hide Vigils, Unchanged, SawChange;
      var record := Current();
      ground := NobodyElse;
      if Other(record, me) {
        if wall - record.value.renewed < LONG_GONE_S {
          var busy;
          busy, record, ground := Watch(record, wait, slack);
          if busy {
            return Busy(record.value.instance), ground;
          }
        } else {
          ground := LongGone;
        }
      }
      written := true;
      outcome := Took(if Other(record, me) then Some(record.value.instance) else None);
    }

    /** How a watch stands: every sighting is of another's record, the last ones
        from `from` on of the same one, and it has been quiet since after the
        first of those. */
    ghost predicate Watching(record: Option<Record>, quietSince: real, from: nat)
      reads this
    {
      && from < |seen| && record == seen[|seen| - 1].record
      && Watched(seen)
      && Unchanged(seen, from) && seen[from].at <= quietSince <= clock
      && clock == (if from < |seen| - 1 then seen[|seen| - 1].at else quietSince)
      && (from > 0 ==> SawChange(seen))
    }

    /** Sleep and look again. */
    method LookAgain(record: Option<Record>, quietSince: real, ghost from: nat)
      returns (gone: bool, again: Option<Record>, since: real, ghost start: nat)
      requires Valid() && from < |seen| && record == seen[|seen| - 1].record && quietSince <= clock
      requires seen[from].at <= quietSince && Unchanged(seen, from) && (from > 0 ==> SawChange(seen))
      requires Watched(seen)
      modifies this`clock, this`calls, this`seen
      ensures Valid() && clock >= old(clock) + 1.0 && |seen| > 1 && again == seen[|seen| - 1].record
      ensures old(seen) <= seen
      ensures gone <==> !Other(again, me)
      ensures !gone ==> Watching(again, since, start) && (start == 0 ==> from == 0 && since == quietSince)
      ensures var c := old(clock) + 1.0 + oversleep(old(calls)) + lag(old(calls) + 1);
              && again == file(c)
              && (!gone && again == record ==> clock == c && calls == old(calls) + 2 && since == quietSince)
              && (!gone && again != record ==> clock == c + lag(old(calls) + 2) && calls == old(calls) + 3 && since == clock)
    {
      hide Unchanged, SawChange;
      Sleep(1.0);
      ghost var before := seen;
      again := Current();
      LookedAgain(before, seen[|before|], from);
      gone, since, start := !Other(again, me), quietSince, from;
      if !gone && again != record {
        since := Now();
        start := |before|;
      }
    }

    /** One turn of the loop of `claim`, as far as the clocks allow. */
    method Turn(record: Option<Record>, quietSince: real, deadline: real, ghost from: nat)
      returns (stays: Step, again: Option<Record>, since: real, ghost start: nat, ghost ground: Ground)
      requires Valid() && Watching(record, quietSince, from)
      modifies this`clock, this`calls, this`seen
      ensures Valid() && old(clock) <= clock && seen != [] && again == seen[|seen| - 1].record && old(seen) <= seen
      ensures stays.Stop? ==> Justified(ground, seen, me, 0.0, clock) && (ground.Withdrawn? || ground.Quiet?)
      ensures stays.GiveUp? ==>
        && clock >= deadline && Watched(seen) && clock - quietSince < STALE_S + lag(old(calls) + 1)
        && (from > 0 ==> SawChange(seen))
      ensures stays.Again? ==>
        && clock >= old(clock) + 1.0 && old(clock) < deadline
        && Watching(again, since, start) && (start == 0 ==> from == 0 && since == quietSince)
      ensures Vigils(Around(), Vigil(old(clock), old(calls), record, quietSince), deadline)
           == match stays
              case Stop => Free(again)
              case GiveUp => StillRenewing(again)
              case Again => Vigils(Around(), Vigil(clock, calls, again, since), deadline)
    {
      hide Unchanged, SawChange, Vigils, Justified, Watched;
      VigilStep(Around(), Vigil(clock, calls, record, quietSince), deadline);
      again, since, start, ground := record, quietSince, from, Quiet(from);
      var t := Now();
      if t - quietSince >= STALE_S {
        assert Other(seen[from].record, me) by { OneOfThem(seen, from); }
        QuietIsJustified(seen, from, me, clock);
        return Stop, again, since, start, ground;
      }
      t := Now();
      if t >= deadline {
        return GiveUp, again, since, start, ground;
      }
      var gone;
      gone, again, since, start := LookAgain(record, quietSince, from);
      if gone {
        WithdrawnIsJustified(seen, me, clock);
        return Stop, again, since, start, Withdrawn;
      }
      stays := Again;
    }

    lemma {:induction false} OneOfThem(seen: seq<Sighting>, i: nat)
      requires Watched(seen) && i < |seen|
      ensures Other(seen[i].record, me)
    {
    }

    /** Every sighting was of another's record. */
    ghost predicate Watched(seen: seq<Sighting>) {
      forall j :: 0 <= j < |seen| ==> Other(seen[j].record, me)
    }

    /** The loop of `claim`. */
    method Watch(first: Option<Record>, wait: real, ghost slack: real)
      returns (busy: bool, record: Option<Record>, ghost ground: Ground)
      requires Valid() && |seen| == 1 && seen[0].record == first && Other(first, me)
      requires forall n :: lag(n) <= slack
      modifies this`clock, this`calls, this`seen
      ensures Valid() && seen != [] && record == seen[|seen| - 1].record && old(clock) <= clock && old(seen) <= seen
      ensures busy ==> clock - old(clock) >= wait && Watched(seen)
      ensures busy && wait >= STALE_S + 2.0 * slack ==> SawChange(seen)
      ensures !busy ==> ground.Withdrawn? || ground.Quiet?
      ensures !busy ==> Justified(ground, seen, me, 0.0, clock)
      ensures var c1 := old(clock) + lag(old(calls));
              var c2 := c1 + lag(old(calls) + 1);
              Vigils(Around(), Vigil(c2, old(calls) + 2, first, c2), c1 + wait) == if busy then StillRenewing(record) else Free(record)
    {
      hide Unchanged, SawChange, Vigils, Justified;
      record := first;
      OneLook(seen);
      var t := Now();
      var deadline := t + wait;
      var quietSince := Now();
      ghost var from: nat := 0;
      ground := Quiet(0);
      ghost var verdict := Vigils(Around(), Vigil(clock, calls, record, quietSince), deadline);
      while true
        invariant verdict == Vigils(Around(), Vigil(clock, calls, record, quietSince), deadline)
        invariant Valid() && old(clock) <= clock && deadline >= old(clock) + wait && seen != [] && old(seen) <= seen
        invariant Watching(record, quietSince, from)
        invariant from == 0 ==> quietSince <= deadline - wait + slack
        decreases deadline - clock + 1.0
      {
        hide Watching;
        var stays;
        ghost var start;
        ghost var was, since := from, quietSince;
        stays, record, quietSince, start, ground := Turn(record, quietSince, deadline, from);
        from := start;
        match stays {
          case Stop =>
            return false, record, ground;
          case GiveUp =>
            return true, record, ground;
          case Again =>
        }
      }
    }
  }

  /** `renew`: touch the record if it names `me` when it is read, whatever it
      has become by the time it is touched. */
  method Renew(me: Instance, read: Option<Record>, record: Option<Record>, now: real) returns (after: Option<Record>)
    ensures after.Some? <==> record.Some?
    ensures after.Some? ==> after.value.instance == record.value.instance
    ensures after != record ==> read.Some? && read.value.instance == me && after == Some(Record(record.value.instance, now))
    ensures read.Some? && read.value.instance == me && record.Some? ==> after.value.renewed == now
  {
    after := record;
    if read.Some? && read.value.instance == me && record.Some? {
      after := Some(record.value.(renewed := now));
    }
  }
}
