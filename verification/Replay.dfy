/** The rounds of `project`, one by one: what each turn of its loop makes of the
    state it finds. */
module Replay {
  import opened Lists
  import opened Preempt
  import opened Rule
  import opened Simulation
  import opened Rounds
  import opened Owing
  import opened Countdown
  import opened History

  /** What one turn starts and stops, and whether it was the last: nothing left
      to come free. */
  datatype Turn = Turn(launches: seq<Launch>, stops: seq<Yield>, over: bool)

  /** The first job that waits with a gap. */
  predicate GapAt(ds: seq<Decision>, m: nat) {
    m < |ds| && ds[m].Holds? && ds[m].gap > 0 && forall i :: 0 <= i < m ==> !(ds[i].Holds? && ds[i].gap > 0)
  }

  ghost predicate StopsSomebody(ds: seq<Decision>) {
    exists m: nat :: GapAt(ds, m) && ds[m].preempts != []
  }

  /** The jobs chosen for it are stopped there and then, and queued again. */
  ghost predicate StopsFor(s: Sim, t: Sim, ds: seq<Decision>, w: Sim, m: nat, turn: Turn) {
    && GapAt(ds, m) && ds[m].preempts != [] && m < |s.pending| && !turn.over
    && (forall id :: id in ds[m].preempts ==> id in EntryIds(s.stoppable))
    && var es := Chosen(s.stoppable, ds[m].preempts);
       w == StopAll(t, es).(pending := ByKey(StopAll(t, es).pending)) && turn.stops == YieldsFor(es, s.pending[m], s.clock)
  }

  /** The clock goes on to the next release, if there is one. */
  predicate GoesOn(x: Setup, t: Sim, w: Sim, turn: Turn) {
    && (forall c :: c in x.owned + x.shared ==> c in t.releases) && turn.stops == []
    && var at := NextRelease(x.owned + x.shared, t);
       turn.over == at.None? && w == if at.None? then t else t.(clock := at.value)
  }

  /** What every turn finds: one entry a job, queued or stoppable and not both,
      the queue in dispatch order, and an end, or none, for each that may be
      stopped. */
  predicate Ending(v: Sim) {
    && (forall e :: e in v.stoppable ==> e.job.jobId in v.ends)
    && DistinctEntries(v.stoppable) && Distinct(v.pending) && Sorted(v.pending)
    && RequestIds(v.pending) !! EntryIds(v.stoppable)
  }

  /** One turn of the loop: whoever has ended may not be stopped any more; the
      rule decides over the cards free at the clock; everybody assigned cards is
      started; and then the jobs the rule chose are stopped, or time goes on. */
  ghost predicate IsTurn(x: Setup, v: Sim, w: Sim, turn: Turn) {
    && v.pending != [] && Ending(v)
    && var s := Prune(v);
       var ds := Round(x, s);
       var t := StartAll(s, Elems(x.shared), s.pending, ds, |ds|);
       && turn.launches == RoundLaunches(s.pending, ds, s.clock, |ds|)
       && if StopsSomebody(ds) then exists m: nat :: StopsFor(s, t, ds, w, m, turn) else GoesOn(x, t, w, turn)
  }

  function LaunchesOf(turns: seq<Turn>): seq<Launch> {
    if turns == [] then [] else LaunchesOf(turns[..|turns| - 1]) + turns[|turns| - 1].launches
  }

  function StopsOf(turns: seq<Turn>): seq<Yield> {
    if turns == [] then [] else StopsOf(turns[..|turns| - 1]) + turns[|turns| - 1].stops
  }

  /** Turn after turn from the first state on; what was started and stopped is
      what the turns did. */
  ghost predicate Replays(x: Setup, first: Sim, sims: seq<Sim>, turns: seq<Turn>, launches: seq<Launch>, stops: seq<Yield>) {
    && |sims| == |turns| + 1 && sims[0] == first
    && (forall i :: 0 <= i < |turns| ==> IsTurn(x, sims[i], sims[i + 1], turns[i]))
    && launches == LaunchesOf(turns) && stops == StopsOf(turns)
  }

  /** The loop ends when nobody is left in the queue, or nothing is left to come
      free, and not before. */
  predicate EndsRightly(sims: seq<Sim>, turns: seq<Turn>) {
    && |sims| == |turns| + 1
    && (forall i :: 0 <= i < |turns| - 1 ==> !turns[i].over)
    && (sims[|turns|].pending == [] || (turns != [] && turns[|turns| - 1].over))
  }

  predicate NoneOver(turns: seq<Turn>) {
    forall i :: 0 <= i < |turns| ==> !turns[i].over
  }

  lemma {:induction false} ReplayBegins(x: Setup, first: Sim)
    ensures Replays(x, first, [first], [], [], []) && NoneOver([])
  {
  }

  lemma {:induction false} ReplaysMore(x: Setup, first: Sim, sims: seq<Sim>, turns: seq<Turn>, launches: seq<Launch>, stops: seq<Yield>, w: Sim, turn: Turn)
    requires Replays(x, first, sims, turns, launches, stops) && IsTurn(x, sims[|turns|], w, turn)
    ensures Replays(x, first, sims + [w], turns + [turn], launches + turn.launches, stops + turn.stops)
    ensures NoneOver(turns) && !turn.over ==> NoneOver(turns + [turn])
    ensures NoneOver(turns) && turn.over ==> EndsRightly(sims + [w], turns + [turn])
  {
    hide IsTurn;
    var more, all := sims + [w], turns + [turn];
    assert all[..|turns|] == turns;
    forall i | 0 <= i < |all|
      ensures IsTurn(x, more[i], more[i + 1], all[i])
    {
      if i < |turns| {
        assert IsTurn(x, sims[i], sims[i + 1], turns[i]);
      }
    }
  }

  lemma {:induction false} QueueEmpties(sims: seq<Sim>, turns: seq<Turn>)
    requires |sims| == |turns| + 1 && NoneOver(turns) && sims[|turns|].pending == []
    ensures EndsRightly(sims, turns)
  {
  }

  lemma {:induction false} TurnStops(x: Setup, v: Sim, m: nat, w: Sim)
    requires v.pending != [] && Ending(v)
    requires var s := Prune(v);
             var ds := Round(x, s);
             var t := StartAll(s, Elems(x.shared), s.pending, ds, |ds|);
             && GapAt(ds, m) && ds[m].preempts != [] && (forall id :: id in ds[m].preempts ==> id in EntryIds(s.stoppable))
             && w == StopAll(t, Chosen(s.stoppable, ds[m].preempts)).(pending := ByKey(StopAll(t, Chosen(s.stoppable, ds[m].preempts)).pending))
    ensures var s := Prune(v);
            var ds := Round(x, s);
            m < |s.pending| && IsTurn(x, v, w, Turn(RoundLaunches(s.pending, ds, s.clock, |ds|), YieldsFor(Chosen(s.stoppable, ds[m].preempts), s.pending[m], s.clock), false))
  {
    hide Prune, Round, StartAll, StopAll, ByKey, Chosen, YieldsFor, RoundLaunches, EntryIds, GapAt;
    var s := Prune(v);
    var ds := Round(x, s);
    var t := StartAll(s, Elems(x.shared), s.pending, ds, |ds|);
    assert |ds| == |s.pending|;
    InRange(ds, m);
    var turn := Turn(RoundLaunches(s.pending, ds, s.clock, |ds|), YieldsFor(Chosen(s.stoppable, ds[m].preempts), s.pending[m], s.clock), false);
    assert StopsFor(s, t, ds, w, m, turn);
  }

  lemma {:induction false} InRange(ds: seq<Decision>, m: nat)
    requires GapAt(ds, m)
    ensures m < |ds| && ds[m].Holds?
  {
  }

  lemma {:induction false} TurnGoesOn(x: Setup, v: Sim, w: Sim, turn: Turn)
    requires v.pending != [] && Ending(v)
    requires var s := Prune(v);
             var ds := Round(x, s);
             var t := StartAll(s, Elems(x.shared), s.pending, ds, |ds|);
             && (forall m: nat :: GapAt(ds, m) ==> ds[m].preempts == [])
             && turn.launches == RoundLaunches(s.pending, ds, s.clock, |ds|) && GoesOn(x, t, w, turn)
    ensures IsTurn(x, v, w, turn)
  {
    hide Prune, Round, StartAll, GapAt, GoesOn, RoundLaunches;
  }
}
