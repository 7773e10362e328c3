/** Fan-out among everything else that happens: between two passes insights are committed,
    endpoints registered and disabled, deliveries attempted, dead rows replayed. */
module FanOutTurns {
  import opened Basics
  import opened Ledger
  import opened LedgerSafety
  import opened FanOut

  /** A pass, cut or not, and what happens until the next. */
  datatype Turn = Turn(pass: Pass, between: seq<Step>)

  /** Any step but the writes of a fan-out. */
  predicate AllBetween(steps: seq<Step>) {
    forall k :: 0 <= k < |steps| ==> !IsWrite(steps[k])
  }

  function PassOf(s: State, limit: nat, turn: Turn): seq<Step> {
    PartialPass(s, limit, turn.pass.clock, turn.pass.writes)
  }

  predicate Fits(s: State, limit: nat, turn: Turn) {
    && Legal(s, PassOf(s, limit, turn))
    && Legal(Run(s, PassOf(s, limit, turn)), turn.between) && AllBetween(turn.between)
  }

  function AfterTurn(s: State, limit: nat, turn: Turn): State
    requires Fits(s, limit, turn)
  {
    Run(Run(s, PassOf(s, limit, turn)), turn.between)
  }

  predicate Playable(s: State, limit: nat, turns: seq<Turn>)
    decreases |turns|
  {
    turns == [] || (Fits(s, limit, turns[0]) && Playable(AfterTurn(s, limit, turns[0]), limit, turns[1..]))
  }

  function AfterTurns(s: State, limit: nat, turns: seq<Turn>): State
    requires Playable(s, limit, turns)
    decreases |turns|
  {
    if turns == [] then s else AfterTurns(AfterTurn(s, limit, turns[0]), limit, turns[1..])
  }

  function FullTurns(s: State, limit: nat, turns: seq<Turn>): nat
    requires Playable(s, limit, turns)
    decreases |turns|
  {
    if turns == [] then 0
    else (if IsFull(s, limit, turns[0].pass) then 1 else 0) + FullTurns(AfterTurn(s, limit, turns[0]), limit, turns[1..])
  }

  /* ----- what turns keep ----- */

  /** The relation between the state the turns started in and any later one, about the events and
      endpoints that were there: endpoints may have been disabled, rows attempted, but no row is
      lost, moved or made for nothing. */
  ghost predicate Kept(s0: State, s: State) {
    && |s.events| >= |s0.events| && |s.endpoints| >= |s0.endpoints| && |s.rows| >= |s0.rows|
    && (forall v :: 0 <= v < |s0.events| ==>
          && s.events[v] == s0.events[v].(fannedOut := s.events[v].fannedOut)
          && (s0.events[v].fannedOut ==> s.events[v].fannedOut))
    && (forall e :: 0 <= e < |s0.endpoints| ==>
          s.endpoints[e] == s0.endpoints[e] || s.endpoints[e] == s0.endpoints[e].(active := false))
    && (forall i :: 0 <= i < |s0.rows| ==>
          s.rows[i].endpoint == s0.rows[i].endpoint && s.rows[i].event == s0.rows[i].event)
    && (forall i :: |s0.rows| <= i < |s.rows| ==> NewRowOk(s0, s.rows[i]))
    && (forall v: nat, e: nat :: Reached(s0, s, e, v) ==> HasRow(s.rows, e, v))
  }

  /** A row made since is for no event that was fanned out, and for no endpoint that did not want
      the event. */
  predicate NewRowOk(s0: State, row: Delivery) {
    row.event < |s0.events| ==>
      !s0.events[row.event].fannedOut && (row.endpoint < |s0.endpoints| ==> Wanted(s0, row.endpoint, row.event))
  }

  /** The event has been fanned out since, and the endpoint was there and still wants it. */
  predicate Reached(s0: State, s: State, e: nat, v: nat) {
    && v < |s0.events| && v < |s.events| && !s0.events[v].fannedOut && s.events[v].fannedOut
    && e < |s0.endpoints| && Wanted(s, e, v)
  }

  lemma PassKeeps(s0: State, s: State, s': State)
    requires Kept(s0, s) && Progress(s, s')
    ensures Kept(s0, s')
  {
    forall v: nat, e: nat | Reached(s0, s', e, v) ensures HasRow(s'.rows, e, v) {
      assert Wanted(s, e, v);
      if s.events[v].fannedOut {
        assert Reached(s0, s, e, v);
        var i :| 0 <= i < |s.rows| && s.rows[i].endpoint == e && s.rows[i].event == v;
        assert s'.rows[i] == s.rows[i];
      }
    }
    forall i | |s0.rows| <= i < |s'.rows| ensures NewRowOk(s0, s'.rows[i]) {
      if i < |s.rows| {
        assert s'.rows[i] == s.rows[i];
      } else {
        assert Wanted(s, s'.rows[i].endpoint, s'.rows[i].event);
      }
    }
  }

  /** Steps between passes leave every event and what every row links as they are; endpoints and
      events may come, and an endpoint may be disabled. */
  lemma BetweenSteps(s: State, step: Step)
    requires Enabled(s, step) && !IsWrite(step)
    ensures var s' := Do(s, step);
            && s.events <= s'.events && |s'.endpoints| >= |s.endpoints| && |s'.rows| == |s.rows|
            && (step.Commit? || s'.events == s.events)
            && (step.Commit? ==> |s'.events| == |s.events| + 1 && s'.events[|s.events|].occurredAt == step.occurredAt)
            && (forall e :: 0 <= e < |s.endpoints| ==>
                  s'.endpoints[e] == s.endpoints[e] || s'.endpoints[e] == s.endpoints[e].(active := false))
            && (forall i :: 0 <= i < |s.rows| ==>
                  s'.rows[i].endpoint == s.rows[i].endpoint && s'.rows[i].event == s.rows[i].event)
  {
    StepKeepsPairs(s, step);
    if step.Attempt? {
      AttemptOnlyTouchesItsRow(s, step.row, step.pulledAt, step.trial);
    }
  }

  lemma BetweenKeeps(s0: State, s: State, step: Step)
    requires Kept(s0, s) && Enabled(s, step) && !IsWrite(step)
    ensures Kept(s0, Do(s, step))
  {
    var s' := Do(s, step);
    BetweenSteps(s, step);
    forall v: nat, e: nat | Reached(s0, s', e, v) ensures HasRow(s'.rows, e, v) {
      assert Reached(s0, s, e, v);
      var i :| 0 <= i < |s.rows| && s.rows[i].endpoint == e && s.rows[i].event == v;
      assert s'.rows[i].endpoint == e;
    }
  }

  lemma {:induction false} BetweenRunKeeps(s0: State, s: State, steps: seq<Step>)
    requires Kept(s0, s) && Legal(s, steps) && AllBetween(steps)
    ensures Kept(s0, Run(s, steps))
    decreases |steps|
  {
    if steps != [] {
      assert !IsWrite(steps[0]) && AllBetween(steps[1..]);
      BetweenKeeps(s0, s, steps[0]);
      BetweenRunKeeps(s0, Do(s, steps[0]), steps[1..]);
    }
  }

  lemma {:induction false} TurnsKeep(s0: State, s: State, limit: nat, turns: seq<Turn>)
    requires Kept(s0, s) && Linked(s) && Playable(s, limit, turns)
    ensures Kept(s0, AfterTurns(s, limit, turns)) && Linked(AfterTurns(s, limit, turns))
    decreases |turns|
  {
    if turns != [] {
      var ws := PassOf(s, limit, turns[0]);
      assert Progress(s, s);
      PartialPassProgress(s, s, limit, turns[0].pass.clock, turns[0].pass.writes);
      PassKeeps(s0, s, Run(s, ws));
      BetweenRunKeeps(s0, Run(s, ws), turns[0].between);
      RunKeepsLinks(s, ws);
      RunKeepsLinks(Run(s, ws), turns[0].between);
      TurnsKeep(s0, AfterTurn(s, limit, turns[0]), limit, turns[1..]);
    }
  }

  /** Whatever happens between the passes: every event fanned out since has exactly one row for
      every endpoint that was there and still wants it; no event that was fanned out before gets
      another row, and no endpoint a row of an event it did not want; and every earlier row still
      links what it did. */
  lemma TurnsFanOutExactlyOnce(s: State, limit: nat, turns: seq<Turn>)
    requires Linked(s) && Playable(s, limit, turns)
    ensures var s' := AfterTurns(s, limit, turns);
            && UniquePairs(s'.rows) && |s'.rows| >= |s.rows|
            && (forall e: nat, v: nat :: Reached(s, s', e, v) ==> HasRow(s'.rows, e, v))
            && (forall i :: 0 <= i < |s.rows| ==>
                  s'.rows[i].endpoint == s.rows[i].endpoint && s'.rows[i].event == s.rows[i].event)
            && (forall i :: |s.rows| <= i < |s'.rows| ==> NewRowOk(s, s'.rows[i]))
  {
    assert Kept(s, s);
    TurnsKeep(s, s, limit, turns);
  }

  /* ----- the backlog comes to an end ----- */

  /** The unfanned events that occurred up to `horizon`. */
  function Backlog(s: State, horizon: int): seq<nat> {
    Where(|s.events|, (v: nat) => v < |s.events| && !s.events[v].fannedOut && s.events[v].occurredAt <= horizon)
  }

  /** What is committed between the passes occurs after `horizon`. */
  predicate Later(horizon: int, steps: seq<Step>) {
    forall k :: 0 <= k < |steps| && steps[k].Commit? ==> steps[k].occurredAt > horizon
  }

  predicate AllLater(horizon: int, turns: seq<Turn>) {
    forall k :: 0 <= k < |turns| ==> Later(horizon, turns[k].between)
  }

  lemma BacklogShrinks(s: State, s': State, horizon: int)
    requires |s.events| <= |s'.events|
    requires forall v :: 0 <= v < |s.events| ==> s'.events[v] == s.events[v].(fannedOut := s'.events[v].fannedOut)
    requires forall v :: 0 <= v < |s.events| && s.events[v].fannedOut ==> s'.events[v].fannedOut
    requires forall v :: |s.events| <= v < |s'.events| ==> s'.events[v].occurredAt > horizon
    ensures Elements(Backlog(s', horizon)) <= Elements(Backlog(s, horizon))
    ensures |Backlog(s', horizon)| <= |Backlog(s, horizon)|
  {
    DistinctSize(Backlog(s, horizon));
    DistinctSize(Backlog(s', horizon));
    forall v | v in Backlog(s', horizon) ensures v in Backlog(s, horizon) {}
    SubsetSize(Elements(Backlog(s', horizon)), Elements(Backlog(s, horizon)));
  }

  lemma {:induction false} BetweenLeavesBacklog(s: State, horizon: int, steps: seq<Step>)
    requires Legal(s, steps) && AllBetween(steps) && Later(horizon, steps)
    ensures |Backlog(Run(s, steps), horizon)| <= |Backlog(s, horizon)|
    decreases |steps|
  {
    if steps != [] {
      assert !IsWrite(steps[0]) && AllBetween(steps[1..]) && Later(horizon, steps[1..]);
      BetweenSteps(s, steps[0]);
      BacklogShrinks(s, Do(s, steps[0]), horizon);
      BetweenLeavesBacklog(Do(s, steps[0]), horizon, steps[1..]);
    }
  }

  /** A batch takes the backlog first: all of it, or nothing else. */
  lemma BatchTakesBacklogFirst(s: State, limit: nat, horizon: int)
    ensures var batch, was := UnfannedBatch(s, limit), Backlog(s, horizon);
            (forall v :: v in was ==> v in batch) || (|batch| == limit && forall v :: v in batch ==> v in was)
  {
    var batch, was := UnfannedBatch(s, limit), Backlog(s, horizon);
    BatchIsUnfanned(s, limit);
    if v :| v in was && v !in batch {
      assert v in Unfanned(s);
      DistinctSize(batch);
      DistinctSize(Unfanned(s));
      forall u | u in batch ensures u in was && u in Unfanned(s) {
        var k :| 0 <= k < |batch| && batch[k] == u;
        assert OccurredAt(s, batch[k]) <= OccurredAt(s, v);
      }
      SubsetSize(Elements(batch), Elements(Unfanned(s)) - {v});
    }
  }

  lemma PassShrinksBacklog(s: State, limit: nat, horizon: int, pass: Pass)
    ensures var ws := PartialPass(s, limit, pass.clock, pass.writes);
            && Legal(s, ws) && |Backlog(Run(s, ws), horizon)| <= |Backlog(s, horizon)|
            && (IsFull(s, limit, pass) ==>
                  var left := |Backlog(Run(s, ws), horizon)|; left == 0 || left + limit <= |Backlog(s, horizon)|)
  {
    var ws := PartialPass(s, limit, pass.clock, pass.writes);
    assert Progress(s, s);
    PartialPassProgress(s, s, limit, pass.clock, pass.writes);
    var s' := Run(s, ws);
    BacklogShrinks(s, s', horizon);
    if IsFull(s, limit, pass) {
      assert ws == FanOutSteps(s, limit, pass.clock);
      FullPassMarks(s, limit, pass.clock);
      BatchIsUnfanned(s, limit);
      BatchTakesBacklogFirst(s, limit, horizon);
      BatchIsMissing(UnfannedBatch(s, limit), Backlog(s, horizon), Backlog(s', horizon), limit);
    }
  }

  lemma BatchIsMissing(batch: seq<nat>, was: seq<nat>, left: seq<nat>, limit: nat)
    requires Distinct(batch) && Distinct(was) && Distinct(left)
    requires Elements(left) <= Elements(was) && forall v :: v in batch ==> v !in left
    requires (forall v :: v in was ==> v in batch) || (|batch| == limit && forall v :: v in batch ==> v in was)
    ensures left == [] || |left| + limit <= |was|
  {
    DistinctSize(batch);
    DistinctSize(was);
    DistinctSize(left);
    if forall v :: v in was ==> v in batch {
      assert Elements(left) == {};
    } else {
      assert Elements(batch) <= Elements(was);
      SubsetSize(Elements(left), Elements(was) - Elements(batch));
    }
  }

  lemma TurnShrinksBacklog(s: State, limit: nat, horizon: int, turn: Turn)
    requires Fits(s, limit, turn) && Later(horizon, turn.between)
    ensures var left := |Backlog(AfterTurn(s, limit, turn), horizon)|;
            && left <= |Backlog(s, horizon)|
            && (IsFull(s, limit, turn.pass) ==> left == 0 || left + limit <= |Backlog(s, horizon)|)
  {
    PassShrinksBacklog(s, limit, horizon, turn.pass);
    BetweenLeavesBacklog(Run(s, PassOf(s, limit, turn)), horizon, turn.between);
  }

  lemma RestIsLater(horizon: int, turns: seq<Turn>)
    requires turns != [] && AllLater(horizon, turns)
    ensures Later(horizon, turns[0].between) && AllLater(horizon, turns[1..])
  {
  }

  /** Of what occurred up to `horizon` nothing is left as soon as the full passes could take it
      up, a batch of `limit` each, whatever is committed later and whatever else comes between. */
  lemma {:induction false} TurnsExhaust(s: State, limit: nat, horizon: int, turns: seq<Turn>)
    requires Playable(s, limit, turns) && AllLater(horizon, turns)
    ensures var left := |Backlog(AfterTurns(s, limit, turns), horizon)|;
            left == 0 || left + limit * FullTurns(s, limit, turns) <= |Backlog(s, horizon)|
    ensures |Backlog(AfterTurns(s, limit, turns), horizon)| <= |Backlog(s, horizon)|
    decreases |turns|
  {
    if turns != [] {
      RestIsLater(horizon, turns);
      TurnShrinksBacklog(s, limit, horizon, turns[0]);
      var next := AfterTurn(s, limit, turns[0]);
      TurnsExhaust(next, limit, horizon, turns[1..]);
      CreditBatch(|Backlog(s, horizon)|, |Backlog(next, horizon)|, |Backlog(AfterTurns(s, limit, turns), horizon)|,
                  limit, FullTurns(next, limit, turns[1..]), IsFull(s, limit, turns[0].pass));
    }
  }

  /** So every event that was there and unfanned, and occurred up to `horizon`, has exactly one row
      for every endpoint that was there and still wants it. */
  lemma BacklogIsDelivered(s: State, limit: nat, horizon: int, turns: seq<Turn>, v: nat, e: nat)
    requires Linked(s) && Playable(s, limit, turns) && AllLater(horizon, turns)
    requires limit * FullTurns(s, limit, turns) >= |Backlog(s, horizon)| && v in Backlog(s, horizon)
    ensures var s' := AfterTurns(s, limit, turns);
            && v < |s'.events| && s'.events[v].fannedOut && UniquePairs(s'.rows)
            && (e < |s.endpoints| && Wanted(s', e, v) ==> HasRow(s'.rows, e, v))
  {
    TurnsExhaust(s, limit, horizon, turns);
    assert Kept(s, s);
    TurnsKeep(s, s, limit, turns);
    var s' := AfterTurns(s, limit, turns);
    assert v !in Backlog(s', horizon);
    assert e < |s.endpoints| && Wanted(s', e, v) ==> Reached(s, s', e, v);
  }
}
