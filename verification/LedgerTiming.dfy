/** When retries happen: the spacing of the posts of a row, read off the record of posts. */
module LedgerTiming {
  import opened Ledger
  import opened LedgerSafety

  /** Position of the latest post for `row` among the first `n`, or -1. */
  function Latest(wire: seq<Post>, row: nat, n: nat): (m: int)
    requires n <= |wire|
    ensures -1 <= m < n
    ensures m >= 0 ==> wire[m].row == row
    ensures forall j :: m < j < n && j >= 0 ==> wire[j].row != row
  {
    if n == 0 then -1 else if wire[n - 1].row == row then n - 1 else Latest(wire, row, n - 1)
  }

  lemma {:induction false} LatestIsLocal(wire: seq<Post>, wire': seq<Post>, row: nat, n: nat)
    requires n <= |wire| <= |wire'| && wire <= wire'
    ensures Latest(wire, row, n) == Latest(wire', row, n)
  {
    if n > 0 {
      LatestIsLocal(wire, wire', row, n - 1);
    }
  }

  /** The least delay the schedule and jitter allow after `attempt` failures. */
  function LeastBackoff(attempt: nat): real
    requires attempt >= 1
  {
    BackoffBase(attempt) * 0.8
  }

  /** A post is either a first attempt or follows the previous post of its row, one attempt
      later and no sooner than the least backoff. */
  ghost predicate SpacedAt(wire: seq<Post>, n: nat)
    requires n < |wire|
  {
    var p := wire[n];
    var m := Latest(wire, p.row, n);
    && 1 <= p.attempt && p.pulledAt <= p.endedAt
    && (p.attempt >= 2 ==>
          && m >= 0 && wire[m].attempt == p.attempt - 1
          && p.pulledAt >= wire[m].endedAt + LeastBackoff(wire[m].attempt))
  }

  ghost predicate Spaced(wire: seq<Post>) {
    forall n :: 0 <= n < |wire| ==> SpacedAt(wire, n)
  }

  /** A row that is retrying or dead matches its latest post; a retrying row is armed inside
      the jitter window of its attempt. */
  ghost predicate TimedRow(wire: seq<Post>, i: nat, row: Delivery) {
    row.status in {Retrying, Dead} ==>
      var m := Latest(wire, i, |wire|);
      && m >= 0 && wire[m].attempt == row.attempt && row.attempt >= 1
      && (row.status == Retrying ==>
            && row.attempt <= 4
            && wire[m].endedAt + BackoffBase(row.attempt) * 0.8 <= row.dueAt
            && row.dueAt <= wire[m].endedAt + BackoffBase(row.attempt) * 1.2)
  }

  ghost predicate Timed(s: State) {
    && AllTied(s) && Spaced(s.wire)
    && (forall i :: 0 <= i < |s.rows| ==> TimedRow(s.wire, i, s.rows[i]))
    && (forall n :: 0 <= n < |s.wire| ==> s.wire[n].row < |s.rows|)
  }

  /** Clock readings of one attempt never go back. */
  predicate ClockForward(step: Step) {
    step.Attempt? ==> step.pulledAt <= step.trial.endedAt
  }

  /** The schedule, and that the wait is its entry scaled by the random factor. */
  lemma WaitsFollowTheSchedule(k: nat, j: Jitter)
    requires 1 <= k <= MAX_ATTEMPTS
    ensures Backoff(k, j) == [60.0, 300.0, 1800.0, 7200.0, 43200.0][k - 1] * j
  {
    assert k == 1 || k == 2 || k == 3 || k == 4 || k == 5;
  }

  /** Whatever the jitter, a later retry waits longer than an earlier one. */
  lemma BackoffWindowsAreDisjoint(k: nat, l: nat, j: Jitter, j': Jitter)
    requires 1 <= k < l <= MAX_ATTEMPTS
    ensures Backoff(k, j) < Backoff(l, j')
  {
  }

  lemma SpacedAppend(wire: seq<Post>, p: Post)
    requires Spaced(wire)
    requires 1 <= p.attempt && p.pulledAt <= p.endedAt
    requires p.attempt >= 2 ==>
               var m := Latest(wire, p.row, |wire|);
               && m >= 0 && wire[m].attempt == p.attempt - 1
               && p.pulledAt >= wire[m].endedAt + LeastBackoff(wire[m].attempt)
    ensures Spaced(wire + [p])
  {
    var w := wire + [p];
    forall n | 0 <= n < |w| ensures SpacedAt(w, n) {
      LatestIsLocal(wire, w, w[n].row, n);
      if n < |wire| { assert SpacedAt(wire, n); }
    }
  }

  lemma LatestAfterAppend(wire: seq<Post>, p: Post, i: nat)
    ensures Latest(wire + [p], i, |wire| + 1) == if p.row == i then |wire| else Latest(wire, i, |wire|)
  {
    LatestIsLocal(wire, wire + [p], i, |wire|);
  }

  lemma AttemptKeepsSpacing(s: State, i: nat, now: real, t: Trial)
    requires Timed(s) && Enabled(s, Attempt(i, now, t)) && now <= t.endedAt
    ensures Spaced(AfterAttempt(s, i, now, t).wire)
  {
    var k := s.rows[i].attempt + 1;
    AttemptOutcome(s, i, now, t);
    assert Tied(s.rows[i]) && TimedRow(s.wire, i, s.rows[i]);
    SpacedAppend(s.wire, Post(i, k, now, t.endedAt, AfterAttempt(s, i, now, t).rows[i].status == Delivered));
  }

  lemma AttemptKeepsTimed(s: State, i: nat, now: real, t: Trial)
    requires Timed(s) && Enabled(s, Attempt(i, now, t)) && now <= t.endedAt
    ensures Timed(AfterAttempt(s, i, now, t))
  {
    var s' := AfterAttempt(s, i, now, t);
    var k := s.rows[i].attempt + 1;
    AttemptOutcome(s, i, now, t);
    AttemptKeepsSpacing(s, i, now, t);
    StepKeepsTies(s, Attempt(i, now, t));
    forall j | 0 <= j < |s'.rows| ensures TimedRow(s'.wire, j, s'.rows[j]) {
      LatestAfterAppend(s.wire, Post(i, k, now, t.endedAt, s'.rows[i].status == Delivered), j);
      assert TimedRow(s.wire, j, s.rows[j]);
    }
  }

  lemma StepKeepsTimed(s: State, step: Step)
    requires Timed(s) && Enabled(s, step) && ClockForward(step)
    ensures Timed(Do(s, step))
  {
    var s' := Do(s, step);
    if step.Attempt? {
      AttemptKeepsTimed(s, step.row, step.pulledAt, step.trial);
    } else {
      StepKeepsTies(s, step);
      assert s'.wire == s.wire;
      forall i | 0 <= i < |s'.rows| ensures TimedRow(s'.wire, i, s'.rows[i]) {
        if i < |s.rows| { assert TimedRow(s.wire, i, s.rows[i]); }
      }
    }
  }

  lemma {:induction false} RunKeepsTimed(s: State, steps: seq<Step>)
    requires Timed(s) && Legal(s, steps) && forall k :: 0 <= k < |steps| ==> ClockForward(steps[k])
    ensures Timed(Run(s, steps))
    decreases |steps|
  {
    if steps != [] {
      StepKeepsTimed(s, steps[0]);
      RunKeepsTimed(Do(s, steps[0]), steps[1..]);
    }
  }

  /** Least time from the end of attempt 1 to the start of attempt `k`. */
  function LeastElapsed(k: nat): real
    requires k >= 1
  {
    if k == 1 then 0.0 else LeastElapsed(k - 1) + LeastBackoff(k - 1)
  }

  /** Following a row's posts backwards reaches the first attempt of the same arming. */
  lemma {:induction false} FirstAttemptBefore(wire: seq<Post>, n: nat) returns (m: nat)
    requires Spaced(wire) && n < |wire|
    ensures m <= n && wire[m].row == wire[n].row && wire[m].attempt == 1
    ensures wire[n].attempt >= 2 ==> wire[n].pulledAt >= wire[m].endedAt + LeastElapsed(wire[n].attempt)
    ensures wire[n].attempt == 1 ==> m == n
    ensures PostsBetween(wire, m, n) == wire[n].attempt
    decreases n
  {
    assert SpacedAt(wire, n);
    if wire[n].attempt == 1 {
      m := n;
      assert PostsBetween(wire, n, n) == 1 by { CountNone(wire, n, n - 1, wire[n].row); }
    } else {
      var p := Latest(wire, wire[n].row, n);
      assert SpacedAt(wire, p);
      m := FirstAttemptBefore(wire, p);
      CountAcross(wire, m, p, n, wire[n].row);
    }
  }

  /** Posts of the row of `wire[n]` at positions from `m` to `n`. */
  function PostsBetween(wire: seq<Post>, m: nat, n: nat): nat
    requires n < |wire|
  {
    CountRow(wire, m, n, wire[n].row)
  }

  function CountRow(wire: seq<Post>, m: nat, n: int, row: nat): nat
    requires n < |wire|
    decreases n - m + 1
  {
    if n < m then 0 else CountRow(wire, m, n - 1, row) + if wire[n].row == row then 1 else 0
  }

  lemma {:induction false} CountNone(wire: seq<Post>, m: nat, n: int, row: nat)
    requires n < |wire| && n < m
    ensures CountRow(wire, m, n, row) == 0
  {
  }

  lemma {:induction false} CountAcross(wire: seq<Post>, m: nat, p: nat, n: int, row: nat)
    requires m <= p < n < |wire| && forall j :: p < j < n ==> wire[j].row != row
    ensures CountRow(wire, m, n, row) == CountRow(wire, m, p, row) + if wire[n].row == row then 1 else 0
    decreases n
  {
    if n - 1 > p {
      CountAcross(wire, m, p, n - 1, row);
    }
  }

  /** A dead row died on its fifth post since it was armed, at least 7488 seconds after the
      first of them ended, and all five posts lie between the two. */
  lemma DeathTakesOverTwoHours(steps: seq<Step>, i: nat) returns (first: nat, fatal: nat)
    requires Legal(Empty, steps) && forall k :: 0 <= k < |steps| ==> ClockForward(steps[k])
    requires i < |Run(Empty, steps).rows| && Run(Empty, steps).rows[i].status == Dead
    ensures var wire := Run(Empty, steps).wire;
            && first < fatal < |wire|
            && wire[first].row == i && wire[first].attempt == 1
            && wire[fatal].row == i && wire[fatal].attempt == MAX_ATTEMPTS
            && PostsBetween(wire, first, fatal) == MAX_ATTEMPTS
            && (forall n :: fatal < n < |wire| ==> wire[n].row != i)
            && wire[fatal].pulledAt - wire[first].endedAt >= 7488.0
  {
    var s := Run(Empty, steps);
    RunKeepsTimed(Empty, steps);
    assert TimedRow(s.wire, i, s.rows[i]) && Tied(s.rows[i]);
    fatal := Latest(s.wire, i, |s.wire|);
    first := FirstAttemptBefore(s.wire, fatal);
    assert LeastElapsed(5) == 7488.0;
  }

  /** The 12-hour entry of the schedule is never drawn: no wait exceeds 8640 seconds. */
  lemma LongestWait(steps: seq<Step>, i: nat)
    requires Legal(Empty, steps) && forall k :: 0 <= k < |steps| ==> ClockForward(steps[k])
    requires i < |Run(Empty, steps).rows| && Run(Empty, steps).rows[i].status == Retrying
    ensures var s := Run(Empty, steps);
            var m := Latest(s.wire, i, |s.wire|);
            m >= 0 && s.wire[m].endedAt + 48.0 <= s.rows[i].dueAt <= s.wire[m].endedAt + 8640.0
  {
    RunKeepsTimed(Empty, steps);
    var s := Run(Empty, steps);
    assert TimedRow(s.wire, i, s.rows[i]);
  }
}
