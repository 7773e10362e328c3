/** What the consumer's answer does to a delivery: in one attempt, and over every run. */
module LedgerAnswers {
  import opened Basics
  import opened Ledger
  import opened LedgerSafety

  /* ----- one attempt ----- */

  /** The endpoint and the event exist under the row's tenant, the endpoint is active, and its URL
      is a sink or passes the check. */
  predicate Postable(endpoints: seq<Endpoint>, events: seq<Event>, row: Delivery, urlOk: bool) {
    && row.endpoint < |endpoints| && row.event < |events|
    && endpoints[row.endpoint].tenant == row.tenant && events[row.event].tenant == row.tenant
    && endpoints[row.endpoint].active && (endpoints[row.endpoint].sink || urlOk)
  }

  /** What row `i` must be after an attempt that got the answer `t`, and which post was made. */
  ghost predicate FollowsAnswer(s: State, i: nat, now: real, t: Trial, s': State)
    requires i < |s.rows|
  {
    var row, k := s.rows[i], s.rows[i].attempt + 1;
    && |s'.rows| == |s.rows| && (forall j :: 0 <= j < |s.rows| && j != i ==> s'.rows[j] == s.rows[j])
    && s'.events == s.events && s'.insights == s.insights && s'.sequences == s.sequences
    && if !Postable(s.endpoints, s.events, row, t.urlOk) then
         s'.rows[i] == row.(status := Blocked, attempt := k, dueAt := 0.0) && s'.wire == s.wire
       else if s.endpoints[row.endpoint].sink || t.acked then
         && s'.rows[i] == row.(status := Delivered, attempt := k, dueAt := 0.0)
         && s'.wire == s.wire + [Post(i, k, now, t.endedAt, true)]
       else
         && s'.wire == s.wire + [Post(i, k, now, t.endedAt, false)]
         && s'.rows[i] == if k < 5 then row.(status := Retrying, attempt := k, dueAt := t.endedAt + Backoff(k, t.jitter))
                          else row.(status := Dead, attempt := k, dueAt := 0.0)
  }

  lemma AttemptFollowsTheAnswer(s: State, i: nat, now: real, t: Trial)
    requires i < |s.rows|
    ensures FollowsAnswer(s, i, now, t, AfterAttempt(s, i, now, t))
  {
  }

  /* ----- every run ----- */

  /** Row `i` was acknowledged by post `n`, and not posted since. */
  predicate AckedLast(wire: seq<Post>, i: nat, n: nat) {
    n < |wire| && wire[n].row == i && wire[n].acked && forall m :: n < m < |wire| ==> wire[m].row != i
  }

  ghost predicate Answered(s: State) {
    && (forall n :: 0 <= n < |s.wire| ==> s.wire[n].row < |s.rows|)
    && (forall n: nat :: n < |s.wire| && s.wire[n].acked ==>
          s.rows[s.wire[n].row].status == Delivered && AckedLast(s.wire, s.wire[n].row, n))
    && (forall i: nat :: i < |s.rows| && s.rows[i].status == Delivered ==> exists n: nat :: AckedLast(s.wire, i, n))
  }

  lemma AttemptKeepsAnswered(s: State, i: nat, now: real, t: Trial)
    requires Answered(s) && Enabled(s, Attempt(i, now, t))
    ensures Answered(AfterAttempt(s, i, now, t))
  {
    var s' := AfterAttempt(s, i, now, t);
    AttemptFollowsTheAnswer(s, i, now, t);
    forall n: nat | n < |s'.wire| && s'.wire[n].acked
      ensures s'.rows[s'.wire[n].row].status == Delivered && AckedLast(s'.wire, s'.wire[n].row, n)
    {
      if n < |s.wire| {
        assert s'.wire[n] == s.wire[n] && AckedLast(s.wire, s.wire[n].row, n) && s.wire[n].row != i;
      }
    }
    forall j: nat | j < |s'.rows| && s'.rows[j].status == Delivered ensures exists n: nat :: AckedLast(s'.wire, j, n) {
      if j == i {
        assert AckedLast(s'.wire, i, |s.wire|);
      } else {
        var n: nat :| AckedLast(s.wire, j, n);
        assert AckedLast(s'.wire, j, n);
      }
    }
  }

  lemma StepKeepsAnswered(s: State, step: Step)
    requires Answered(s) && Enabled(s, step)
    ensures Answered(Do(s, step))
  {
    if step.Attempt? {
      AttemptKeepsAnswered(s, step.row, step.pulledAt, step.trial);
    } else {
      var s' := Do(s, step);
      StepKeepsSettled(s, step);
      assert s'.wire == s.wire;
      forall j: nat | j < |s'.rows| && s'.rows[j].status == Delivered ensures exists n: nat :: AckedLast(s'.wire, j, n) {
        assert j < |s.rows| && s.rows[j].status == Delivered;
      }
    }
  }

  lemma {:induction false} RunKeepsAnswered(s: State, steps: seq<Step>)
    requires Answered(s) && Legal(s, steps)
    ensures Answered(Run(s, steps))
    decreases |steps|
  {
    if steps != [] {
      StepKeepsAnswered(s, steps[0]);
      RunKeepsAnswered(Do(s, steps[0]), steps[1..]);
    }
  }

  /** In every run a row is delivered if and only if one of its posts was acknowledged: then it is
      the last, and the only one. Of a row that is pending, retrying, dead or blocked every post was
      refused. */
  lemma DeliveredIffAcknowledged(steps: seq<Step>, i: nat)
    requires Legal(Empty, steps) && i < |Run(Empty, steps).rows|
    ensures var s := Run(Empty, steps);
            && (s.rows[i].status == Delivered <==> exists n :: 0 <= n < |s.wire| && s.wire[n].row == i && s.wire[n].acked)
            && (forall n, m :: 0 <= n < m < |s.wire| && s.wire[n].row == i && s.wire[n].acked ==> s.wire[m].row != i)
  {
    RunKeepsAnswered(Empty, steps);
    var s := Run(Empty, steps);
    if s.rows[i].status == Delivered {
      var n: nat :| AckedLast(s.wire, i, n);
      assert s.wire[n].row == i;
    }
    forall n, m | 0 <= n < m < |s.wire| && s.wire[n].row == i && s.wire[n].acked ensures s.wire[m].row != i {
      assert AckedLast(s.wire, i, n);
    }
  }

  /* ----- the due list and the replay ----- */

  /** The rows of a tenant, or of one of its endpoints, that a replay re-arms. */
  function DeadRows(rows: seq<Delivery>, tenant: string, only: Option<nat>): set<nat> {
    set i: nat | i < |rows| && rows[i].status == Dead && rows[i].tenant == tenant
                 && (only.None? || rows[i].endpoint == only.value)
  }

  lemma DeadRowsGrow(rows: seq<Delivery>, tenant: string, only: Option<nat>)
    requires rows != []
    ensures var n := |rows| - 1;
            var before := DeadRows(rows[..n], tenant, only);
            n !in before && DeadRows(rows, tenant, only)
            == if Replayable(rows[n], tenant, only) then before + {n} else before
  {
    var n := |rows| - 1;
    assert forall i: nat :: i < n ==> rows[..n][i] == rows[i];
  }

  lemma {:induction false} ReplayCounts(rows: seq<Delivery>, tenant: string, only: Option<nat>)
    ensures ReplayCount(rows, tenant, only) == |DeadRows(rows, tenant, only)|
  {
    if rows != [] {
      ReplayCounts(rows[..|rows| - 1], tenant, only);
      DeadRowsGrow(rows, tenant, only);
    }
  }

  /** A replay re-arms those, with a fresh budget, and no others. */
  lemma ReplayRearms(rows: seq<Delivery>, tenant: string, at: real, only: Option<nat>)
    ensures forall i: nat :: i < |rows| ==>
              ReplayRows(rows, tenant, at, only)[i]
              == if i in DeadRows(rows, tenant, only) then rows[i].(status := Pending, attempt := 0, dueAt := at)
                 else rows[i]
  {
  }
}
