/** What every step of the delivery ledger keeps, and what therefore holds in every run. */
module LedgerSafety {
  import opened Basics
  import opened Ledger

  /* ----- invariants ----- */

  /** A row points at an existing endpoint and event of its own tenant. */
  predicate LinkedRow(s: State, row: Delivery) {
    && row.endpoint < |s.endpoints| && s.endpoints[row.endpoint].tenant == row.tenant
    && row.event < |s.events| && s.events[row.event].tenant == row.tenant
  }

  /** At most one row for an endpoint and event. */
  ghost predicate UniquePairs(rows: seq<Delivery>) {
    forall i, j :: 0 <= i < j < |rows| ==> rows[i].endpoint != rows[j].endpoint || rows[i].event != rows[j].event
  }

  ghost predicate Linked(s: State) {
    UniquePairs(s.rows) && forall i :: 0 <= i < |s.rows| ==> LinkedRow(s, s.rows[i])
  }

  /** The attempt count a status allows. */
  predicate Tied(row: Delivery) {
    match row.status
    case Pending => row.attempt == 0
    case Retrying => 1 <= row.attempt <= 4
    case Dead => row.attempt == 5
    case Delivered => 1 <= row.attempt <= 5
    case Blocked => 1 <= row.attempt <= 5
  }

  ghost predicate AllTied(s: State) {
    forall i :: 0 <= i < |s.rows| ==> Tied(s.rows[i])
  }

  /** An active endpoint is short of the auto-disable threshold. */
  ghost predicate ShortTails(s: State) {
    forall e :: 0 <= e < |s.endpoints| && s.endpoints[e].active ==> DeadTail(s.rows, e) < AUTO_DISABLE_AFTER
  }

  ghost predicate Inv(s: State) {
    Linked(s) && AllTied(s) && ShortTails(s)
  }

  /* ----- the dead tail ----- */

  /** No success of the endpoint has an id above `i`. */
  predicate Fresh(rows: seq<Delivery>, endpoint: nat, i: int) {
    forall j :: i < j < |rows| && j >= 0 && rows[j].endpoint == endpoint ==> rows[j].status != Delivered
  }

  ghost function FreshDead(rows: seq<Delivery>, endpoint: nat): set<int> {
    set i | 0 <= i < |rows| && rows[i].endpoint == endpoint && rows[i].status == Dead && Fresh(rows, endpoint, i)
  }

  /** A last row that is no success of the endpoint ages nothing. */
  lemma FreshWithoutLast(rows: seq<Delivery>, endpoint: nat, i: nat)
    requires i < |rows| - 1
    requires rows[|rows| - 1].endpoint != endpoint || rows[|rows| - 1].status != Delivered
    ensures Fresh(rows, endpoint, i) == Fresh(rows[..|rows| - 1], endpoint, i)
  {
    var earlier := rows[..|rows| - 1];
    assert forall j :: 0 <= j < |earlier| ==> earlier[j] == rows[j];
  }

  /** The backwards count is the number of dead rows newer than the last success. */
  lemma {:induction false} DeadTailCounts(rows: seq<Delivery>, endpoint: nat)
    ensures DeadTail(rows, endpoint) == |FreshDead(rows, endpoint)|
  {
    if rows == [] {
      assert FreshDead(rows, endpoint) == {};
    } else {
      var n := |rows| - 1;
      DeadTailCounts(rows[..n], endpoint);
      if rows[n].endpoint == endpoint && rows[n].status == Delivered {
        forall i | 0 <= i < n ensures !Fresh(rows, endpoint, i) {
          assert rows[n].status == Delivered;
        }
        assert FreshDead(rows, endpoint) == {};
      } else {
        forall i: nat | i < n ensures Fresh(rows, endpoint, i) == Fresh(rows[..n], endpoint, i) {
          FreshWithoutLast(rows, endpoint, i);
        }
        FreshDeadGrows(rows, endpoint);
      }
    }
  }

  lemma FreshDeadGrows(rows: seq<Delivery>, endpoint: nat)
    requires rows != []
    requires forall i: nat :: i < |rows| - 1 ==> Fresh(rows, endpoint, i) == Fresh(rows[..|rows| - 1], endpoint, i)
    ensures var n := |rows| - 1;
            var before := FreshDead(rows[..n], endpoint);
            n !in before && FreshDead(rows, endpoint)
            == if rows[n].endpoint == endpoint && rows[n].status == Dead then before + {n} else before
  {
  }

  /** Rewriting one unsettled row moves its endpoint's tail by the row's new status only. */
  lemma {:induction false} TailAfterUpdate(rows: seq<Delivery>, i: nat, r: Delivery, e: nat)
    requires i < |rows| && InFlight(rows[i]) && r.endpoint == rows[i].endpoint
    ensures e != r.endpoint ==> DeadTail(rows[i := r], e) == DeadTail(rows, e)
    ensures r.status != Dead && r.status != Delivered ==> DeadTail(rows[i := r], e) == DeadTail(rows, e)
    ensures r.status == Delivered ==> DeadTail(rows[i := r], e) <= DeadTail(rows, e)
    ensures r.status == Dead && e == r.endpoint ==>
              DeadTail(rows[i := r], e) == DeadTail(rows, e) + if Fresh(rows, e, i) then 1 else 0
    decreases |rows|
  {
    var n := |rows| - 1;
    if i == n {
      assert rows[i := r][..n] == rows[..n];
    } else {
      assert rows[i := r][..n] == rows[..n][i := r];
      TailAfterUpdate(rows[..n], i, r, e);
      if rows[n].endpoint == e && rows[n].status == Delivered {
        assert !Fresh(rows, e, i);
      } else {
        FreshWithoutLast(rows, e, i);
      }
    }
  }

  lemma {:induction false} TailAfterReplay(rows: seq<Delivery>, tenant: string, at: real, only: Option<nat>, e: nat)
    ensures DeadTail(ReplayRows(rows, tenant, at, only), e) <= DeadTail(rows, e)
    decreases |rows|
  {
    if rows != [] {
      var n := |rows| - 1;
      TailAfterReplay(rows[..n], tenant, at, only, e);
      assert ReplayRows(rows, tenant, at, only)[..n] == ReplayRows(rows[..n], tenant, at, only);
    }
  }

  /* ----- one attempt ----- */

  /** What an attempt may have done to its own row. */
  ghost predicate AttemptShape(s: State, i: nat, s': State)
    requires i < |s.rows|
  {
    && |s'.rows| == |s.rows|
    && s'.rows == s.rows[i := s'.rows[i]]
    && s'.rows[i].tenant == s.rows[i].tenant
    && s'.rows[i].endpoint == s.rows[i].endpoint
    && s'.rows[i].event == s.rows[i].event
    && s'.rows[i].attempt == s.rows[i].attempt + 1
    && s'.events == s.events && s'.insights == s.insights && s'.sequences == s.sequences
    && |s'.endpoints| == |s.endpoints|
  }

  lemma AttemptOnlyTouchesItsRow(s: State, i: nat, now: real, t: Trial)
    requires i < |s.rows|
    ensures AttemptShape(s, i, AfterAttempt(s, i, now, t))
    ensures var s' := AfterAttempt(s, i, now, t);
            forall e :: 0 <= e < |s.endpoints| ==>
              s'.endpoints[e] == s.endpoints[e] || s'.endpoints[e] == s.endpoints[e].(active := false)
  {
  }

  /** The two shapes of an attempt: blocked without a post, or one post and a new status. */
  lemma AttemptOutcome(s: State, i: nat, now: real, t: Trial)
    requires i < |s.rows|
    ensures var s' := AfterAttempt(s, i, now, t);
            var k := s.rows[i].attempt + 1;
            && |s'.rows| == |s.rows| && s'.rows[i].attempt == k
            && (s'.wire == s.wire || s'.wire == s.wire + [Post(i, k, now, t.endedAt, s'.rows[i].status == Delivered)])
            && (s'.rows[i].status in {Retrying, Dead, Delivered} <==> s'.wire != s.wire)
            && (s'.rows[i].status == Retrying ==> k <= 4 && s'.rows[i].dueAt == t.endedAt + Backoff(k, t.jitter))
            && (forall j :: 0 <= j < |s.rows| && j != i ==> s'.rows[j] == s.rows[j])
  {
    var post := Post(i, s.rows[i].attempt + 1, now, t.endedAt, AfterAttempt(s, i, now, t).rows[i].status == Delivered);
    assert |s.wire + [post]| == |s.wire| + 1;
  }

  /** An attempt disables an endpoint at exactly the step where its dead tail reaches three:
      its own endpoint, active before, whose row just died. No other endpoint changes. */
  lemma AttemptDisablesAtThree(s: State, i: nat, now: real, t: Trial, e: nat)
    requires Inv(s) && Enabled(s, Attempt(i, now, t)) && e < |s.endpoints| && s.endpoints[e].active
    ensures var s' := AfterAttempt(s, i, now, t);
            && (!s'.endpoints[e].active <==> DeadTail(s'.rows, e) == AUTO_DISABLE_AFTER)
            && (!s'.endpoints[e].active ==>
                  && s.rows[i].endpoint == e && s'.rows[i].status == Dead
                  && DeadTail(s.rows, e) == AUTO_DISABLE_AFTER - 1 && Fresh(s.rows, e, i))
            && DeadTail(s'.rows, e) <= AUTO_DISABLE_AFTER
  {
    AttemptOnlyTouchesItsRow(s, i, now, t);
    TailAfterUpdate(s.rows, i, AfterAttempt(s, i, now, t).rows[i], e);
  }

  lemma AttemptKeepsTails(s: State, i: nat, now: real, t: Trial)
    requires Inv(s) && Enabled(s, Attempt(i, now, t))
    ensures ShortTails(AfterAttempt(s, i, now, t))
  {
    var s' := AfterAttempt(s, i, now, t);
    AttemptOnlyTouchesItsRow(s, i, now, t);
    forall e | 0 <= e < |s'.endpoints| && s'.endpoints[e].active
      ensures DeadTail(s'.rows, e) < AUTO_DISABLE_AFTER
    {
      AttemptDisablesAtThree(s, i, now, t, e);
    }
  }

  /* ----- every step ----- */

  lemma StepKeepsPairs(s: State, step: Step)
    requires Enabled(s, step)
    ensures var s' := Do(s, step);
            && |s'.rows| >= |s.rows|
            && (forall i :: 0 <= i < |s.rows| ==>
                  && s'.rows[i].tenant == s.rows[i].tenant && s'.rows[i].endpoint == s.rows[i].endpoint
                  && s'.rows[i].event == s.rows[i].event)
  {
  }

  lemma StepKeepsLinks(s: State, step: Step)
    requires Linked(s) && Enabled(s, step)
    ensures Linked(Do(s, step))
  {
    var s' := Do(s, step);
    StepKeepsPairs(s, step);
    if step.Create? && !HasRow(s.rows, step.endpoint, step.event) {
      assert s'.rows[|s.rows|].endpoint == step.endpoint && s'.rows[|s.rows|].event == step.event;
    } else {
      assert |s'.rows| == |s.rows|;
    }
    forall i | 0 <= i < |s'.rows| ensures LinkedRow(s', s'.rows[i]) {
      if i < |s.rows| { assert LinkedRow(s, s.rows[i]); }
    }
  }

  lemma AttemptKeepsTies(s: State, i: nat, now: real, t: Trial)
    requires AllTied(s) && Enabled(s, Attempt(i, now, t))
    ensures AllTied(AfterAttempt(s, i, now, t))
  {
    var s' := AfterAttempt(s, i, now, t);
    AttemptOnlyTouchesItsRow(s, i, now, t);
    assert Tied(s.rows[i]);
    forall j | 0 <= j < |s'.rows| ensures Tied(s'.rows[j]) {
      if j != i { assert s'.rows[j] == s.rows[j]; }
    }
  }

  lemma StepKeepsTies(s: State, step: Step)
    requires AllTied(s) && Enabled(s, step)
    ensures AllTied(Do(s, step))
  {
    if step.Attempt? {
      AttemptKeepsTies(s, step.row, step.pulledAt, step.trial);
    }
  }

  lemma StepKeepsTails(s: State, step: Step)
    requires Inv(s) && Enabled(s, step)
    ensures ShortTails(Do(s, step))
  {
    var s' := Do(s, step);
    match step {
      case Attempt(i, now, t) => AttemptKeepsTails(s, i, now, t);
      case Replay(tenant, at, only) =>
        forall e | 0 <= e < |s.endpoints| ensures DeadTail(s'.rows, e) <= DeadTail(s.rows, e) {
          TailAfterReplay(s.rows, tenant, at, only, e);
        }
      case Register(_, _, _) => NoRowsNoTail(s.rows, |s.endpoints|);
      case Create(e, v, dueAt) =>
        if !HasRow(s.rows, e, v) {
          assert s'.rows[..|s.rows|] == s.rows;
          assert forall x: nat :: DeadTail(s'.rows, x) == DeadTail(s.rows, x);
        }
      case _ =>
    }
  }

  lemma StepKeepsInv(s: State, step: Step)
    requires Inv(s) && Enabled(s, step)
    ensures Inv(Do(s, step))
  {
    StepKeepsLinks(s, step);
    StepKeepsTies(s, step);
    StepKeepsTails(s, step);
  }

  lemma {:induction false} NoRowsNoTail(rows: seq<Delivery>, e: nat)
    requires forall i :: 0 <= i < |rows| ==> rows[i].endpoint != e
    ensures DeadTail(rows, e) == 0
  {
    if rows != [] {
      NoRowsNoTail(rows[..|rows| - 1], e);
    }
  }

  /** In every reachable state rows are linked and unique, attempts fit their status, and
      every active endpoint has fewer than three dead rows at its tail. */
  lemma {:induction false} RunKeepsInv(s: State, steps: seq<Step>)
    requires Inv(s) && Legal(s, steps)
    ensures Inv(Run(s, steps))
    decreases |steps|
  {
    if steps != [] {
      StepKeepsInv(s, steps[0]);
      RunKeepsInv(Do(s, steps[0]), steps[1..]);
    }
  }

  lemma EveryReachableStateIsSafe(steps: seq<Step>)
    requires Legal(Empty, steps)
    ensures Inv(Run(Empty, steps))
  {
    RunKeepsInv(Empty, steps);
  }

  /* ----- what is final ----- */

  /** A step never touches a delivered or blocked row, only a replay touches a dead one, an
      endpoint never comes back, and nothing is ever removed from the ledger. */
  lemma StepKeepsSettled(s: State, step: Step)
    requires Enabled(s, step)
    ensures var s' := Do(s, step);
            && |s'.rows| >= |s.rows| && |s'.endpoints| >= |s.endpoints| && |s'.events| >= |s.events|
            && (forall i :: 0 <= i < |s.rows| && s.rows[i].status in {Delivered, Blocked} ==> s'.rows[i] == s.rows[i])
            && (forall i :: 0 <= i < |s.rows| && s.rows[i].status == Dead && !step.Replay? ==> s'.rows[i] == s.rows[i])
            && (forall e :: 0 <= e < |s.endpoints| && !s.endpoints[e].active ==> !s'.endpoints[e].active)
            && (forall v :: 0 <= v < |s.events| ==>
                  s'.events[v] == s.events[v] || s'.events[v] == s.events[v].(fannedOut := true))
  {
    if step.Attempt? {
      AttemptOnlyTouchesItsRow(s, step.row, step.pulledAt, step.trial);
    }
  }

  lemma {:induction false} SettledRowsNeverChange(s: State, steps: seq<Step>, i: nat)
    requires Legal(s, steps) && i < |s.rows| && s.rows[i].status in {Delivered, Blocked}
    ensures i < |Run(s, steps).rows| && Run(s, steps).rows[i] == s.rows[i]
    decreases |steps|
  {
    if steps != [] {
      StepKeepsSettled(s, steps[0]);
      SettledRowsNeverChange(Do(s, steps[0]), steps[1..], i);
    }
  }

  lemma {:induction false} DisabledForGood(s: State, steps: seq<Step>, e: nat)
    requires Legal(s, steps) && e < |s.endpoints| && !s.endpoints[e].active
    ensures e < |Run(s, steps).endpoints| && !Run(s, steps).endpoints[e].active
    decreases |steps|
  {
    if steps != [] {
      StepKeepsSettled(s, steps[0]);
      DisabledForGood(Do(s, steps[0]), steps[1..], e);
    }
  }

  /* ----- budgets ----- */

  /** Attempts a row may still make before it settles. */
  function Remaining(row: Delivery): nat {
    if InFlight(row) && row.attempt <= MAX_ATTEMPTS then MAX_ATTEMPTS - row.attempt else 0
  }

  function RemainingAt(rows: seq<Delivery>, i: nat): nat {
    if i < |rows| then Remaining(rows[i]) else 0
  }

  /** The dispatcher's termination measure: remaining attempts over all in-flight rows. */
  function Work(rows: seq<Delivery>): nat {
    if rows == [] then 0 else Work(rows[..|rows| - 1]) + Remaining(rows[|rows| - 1])
  }

  function PostsOf(wire: seq<Post>, i: nat): nat {
    if wire == [] then 0
    else PostsOf(wire[..|wire| - 1], i) + if wire[|wire| - 1].row == i then 1 else 0
  }

  /** One when the step arms row `i`: creates it, or replays it while dead. */
  function Arms(s: State, step: Step, i: nat): nat
    requires Enabled(s, step)
  {
    match step
    case Create(e, v, _) => if i == |s.rows| && !HasRow(s.rows, e, v) then 1 else 0
    case Replay(tenant, _, only) => if i < |s.rows| && Replayable(s.rows[i], tenant, only) then 1 else 0
    case _ => 0
  }

  function ArmsIn(s: State, steps: seq<Step>, i: nat): nat
    requires Legal(s, steps)
    decreases |steps|
  {
    if steps == [] then 0 else Arms(s, steps[0], i) + ArmsIn(Do(s, steps[0]), steps[1..], i)
  }

  /** An open or blocked row of a disabled endpoint. */
  predicate Hopeless(s: State, i: nat) {
    && i < |s.rows| && (InFlight(s.rows[i]) || s.rows[i].status == Blocked)
    && s.rows[i].endpoint < |s.endpoints| && !s.endpoints[s.rows[i].endpoint].active
  }

  lemma StepKeepsHopeless(s: State, step: Step, i: nat)
    requires Hopeless(s, i) && Enabled(s, step)
    ensures var s' := Do(s, step);
            && Hopeless(s', i) && PostsOf(s'.wire, i) == PostsOf(s.wire, i)
            && (s'.rows[i] == s.rows[i] || s'.rows[i].status == Blocked)
            && (step.Attempt? && step.row == i ==> s'.rows[i].status == Blocked)
  {
    StepKeepsSettled(s, step);
    if step.Attempt? {
      AttemptOutcome(s, step.row, step.pulledAt, step.trial);
    }
  }

  /** A row replayed to a disabled endpoint is never posted again: in every later state it
      still waits untouched, or is blocked. */
  lemma {:induction false} ReplayToDisabledEndsBlocked(s: State, steps: seq<Step>, i: nat)
    requires Hopeless(s, i) && Legal(s, steps)
    ensures var s' := Run(s, steps);
            && i < |s'.rows| && PostsOf(s'.wire, i) == PostsOf(s.wire, i)
            && (s'.rows[i] == s.rows[i] || s'.rows[i].status == Blocked)
    decreases |steps|
  {
    if steps != [] {
      StepKeepsHopeless(s, steps[0], i);
      ReplayToDisabledEndsBlocked(Do(s, steps[0]), steps[1..], i);
    }
  }

  lemma StepSpendsBudget(s: State, step: Step, i: nat)
    requires Inv(s) && Enabled(s, step)
    ensures var s' := Do(s, step);
            PostsOf(s'.wire, i) + RemainingAt(s'.rows, i)
            <= PostsOf(s.wire, i) + RemainingAt(s.rows, i) + MAX_ATTEMPTS * Arms(s, step, i)
  {
    var s' := Do(s, step);
    match step {
      case Attempt(r, now, t) =>
        AttemptOutcome(s, r, now, t);
        assert Tied(s.rows[r]);
      case Create(e, v, _) =>
        if i < |s.rows| && !HasRow(s.rows, e, v) {
          assert s'.rows[i] == s.rows[i];
        }
      case Replay(tenant, at, only) =>
      case _ =>
    }
  }

  /** Over any run, the posts of a row never exceed five for each time it was armed. */
  lemma {:induction false} FivePostsPerArming(s: State, steps: seq<Step>, i: nat)
    requires Inv(s) && Legal(s, steps)
    ensures PostsOf(Run(s, steps).wire, i) + RemainingAt(Run(s, steps).rows, i)
            <= PostsOf(s.wire, i) + RemainingAt(s.rows, i) + MAX_ATTEMPTS * ArmsIn(s, steps, i)
    decreases |steps|
  {
    if steps != [] {
      StepKeepsInv(s, steps[0]);
      StepSpendsBudget(s, steps[0], i);
      FivePostsPerArming(Do(s, steps[0]), steps[1..], i);
    }
  }

  lemma {:induction false} WorkAfterUpdate(rows: seq<Delivery>, i: nat, r: Delivery)
    requires i < |rows|
    ensures Work(rows[i := r]) == Work(rows) - Remaining(rows[i]) + Remaining(r)
    decreases |rows|
  {
    var n := |rows| - 1;
    if i == n {
      assert rows[i := r][..n] == rows[..n];
    } else {
      assert rows[i := r][..n] == rows[..n][i := r];
      WorkAfterUpdate(rows[..n], i, r);
    }
  }

  function ReplayCount(rows: seq<Delivery>, tenant: string, only: Option<nat>): nat {
    if rows == [] then 0
    else ReplayCount(rows[..|rows| - 1], tenant, only)
         + if Replayable(rows[|rows| - 1], tenant, only) then 1 else 0
  }

  lemma {:induction false} WorkAfterReplay(rows: seq<Delivery>, tenant: string, at: real, only: Option<nat>)
    ensures Work(ReplayRows(rows, tenant, at, only))
            == Work(rows) + MAX_ATTEMPTS * ReplayCount(rows, tenant, only)
    decreases |rows|
  {
    if rows != [] {
      var n := |rows| - 1;
      WorkAfterReplay(rows[..n], tenant, at, only);
      assert ReplayRows(rows, tenant, at, only)[..n] == ReplayRows(rows[..n], tenant, at, only);
    }
  }

  /** Rows armed by a step. */
  function Armed(s: State, step: Step): nat
    requires Enabled(s, step)
  {
    match step
    case Create(e, v, _) => if HasRow(s.rows, e, v) then 0 else 1
    case Replay(tenant, _, only) => ReplayCount(s.rows, tenant, only)
    case _ => 0
  }

  function ArmedIn(s: State, steps: seq<Step>): nat
    requires Legal(s, steps)
    decreases |steps|
  {
    if steps == [] then 0 else Armed(s, steps[0]) + ArmedIn(Do(s, steps[0]), steps[1..])
  }

  function AttemptCount(steps: seq<Step>): nat {
    if steps == [] then 0 else (if steps[0].Attempt? then 1 else 0) + AttemptCount(steps[1..])
  }

  lemma StepSpendsWork(s: State, step: Step)
    requires Inv(s) && Enabled(s, step)
    ensures (if step.Attempt? then 1 else 0) + Work(Do(s, step).rows)
            <= Work(s.rows) + MAX_ATTEMPTS * Armed(s, step)
  {
    var s' := Do(s, step);
    match step {
      case Attempt(i, now, t) =>
        AttemptOnlyTouchesItsRow(s, i, now, t);
        WorkAfterUpdate(s.rows, i, s'.rows[i]);
        assert Tied(s.rows[i]);
      case Replay(tenant, at, only) => WorkAfterReplay(s.rows, tenant, at, only);
      case Create(e, v, _) =>
        if !HasRow(s.rows, e, v) {
          assert s'.rows[..|s.rows|] == s.rows;
        }
      case _ =>
    }
  }

  /** Attempts are paid for: a run makes at most five for each row armed on the way, plus
      those still open at its start. Without new rows or replays the dispatcher stops. */
  lemma {:induction false} AttemptsArePaidFor(s: State, steps: seq<Step>)
    requires Inv(s) && Legal(s, steps)
    ensures AttemptCount(steps) + Work(Run(s, steps).rows) <= Work(s.rows) + MAX_ATTEMPTS * ArmedIn(s, steps)
    decreases |steps|
  {
    if steps != [] {
      StepKeepsInv(s, steps[0]);
      StepSpendsWork(s, steps[0]);
      AttemptsArePaidFor(Do(s, steps[0]), steps[1..]);
    }
  }
}
