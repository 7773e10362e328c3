/** Fan-out under crashes: a pass may stop between any two of its writes, and is simply run
    again. */
module FanOut {
  import opened Basics
  import opened Sorting
  import opened Ledger
  import opened LedgerSafety

  predicate IsWrite(step: Step) {
    step.Create? || step.Mark?
  }

  ghost predicate Makes(ws: seq<Step>, e: nat, v: nat) {
    exists n :: 0 <= n < |ws| && ws[n].Create? && ws[n].endpoint == e && ws[n].event == v
  }

  ghost predicate Marks(ws: seq<Step>, v: nat) {
    exists n :: 0 <= n < |ws| && ws[n].Mark? && ws[n].event == v
  }

  /** Tables after a list of fan-out writes, read off the list. */
  ghost predicate Written(s: State, ws: seq<Step>, s': State) {
    && s'.endpoints == s.endpoints && s'.wire == s.wire && |s'.events| == |s.events|
    && (forall v :: 0 <= v < |s.events| ==>
          s'.events[v] == s.events[v].(fannedOut := s.events[v].fannedOut || Marks(ws, v)))
    && s.rows <= s'.rows
    && (forall e: nat, v: nat :: HasRow(s'.rows, e, v) <==> HasRow(s.rows, e, v) || Makes(ws, e, v))
    && (forall i :: |s.rows| <= i < |s'.rows| ==>
          && s'.rows[i].status == Pending && s'.rows[i].attempt == 0
          && Makes(ws, s'.rows[i].endpoint, s'.rows[i].event))
  }

  ghost predicate AllEnabled(s: State, ws: seq<Step>) {
    forall n :: 0 <= n < |ws| ==> IsWrite(ws[n]) && Enabled(s, ws[n])
  }

  lemma OneWrite(s: State, w: Step)
    requires IsWrite(w) && Enabled(s, w)
    ensures Written(s, [w], Do(s, w))
  {
    var s' := Do(s, w);
    if w.Mark? {
      assert [w][0].event == w.event;
      assert Marks([w], w.event);
    } else {
      assert [w][0].Create?;
      assert Makes([w], w.endpoint, w.event);
      if !HasRow(s.rows, w.endpoint, w.event) {
        forall e: nat, v: nat ensures HasRow(s'.rows, e, v) <==> HasRow(s.rows, e, v) || Makes([w], e, v) {
          if HasRow(s.rows, e, v) {
            var i :| 0 <= i < |s.rows| && s.rows[i].endpoint == e && s.rows[i].event == v;
            assert s'.rows[i] == s.rows[i];
          }
          if e == w.endpoint && v == w.event {
            assert s'.rows[|s.rows|].endpoint == e;
          }
        }
      }
    }
  }

  lemma MakesSplits(a: seq<Step>, b: seq<Step>, e: nat, v: nat)
    ensures Makes(a + b, e, v) <==> Makes(a, e, v) || Makes(b, e, v)
    ensures Marks(a + b, v) <==> Marks(a, v) || Marks(b, v)
  {
    forall n | 0 <= n < |a| ensures (a + b)[n] == a[n] {}
    forall n | 0 <= n < |b| ensures (a + b)[|a| + n] == b[n] {}
    if Makes(a, e, v) {
      var n :| 0 <= n < |a| && a[n].Create? && a[n].endpoint == e && a[n].event == v;
      assert (a + b)[n] == a[n];
    }
    if Makes(b, e, v) {
      var n :| 0 <= n < |b| && b[n].Create? && b[n].endpoint == e && b[n].event == v;
      assert (a + b)[|a| + n] == b[n];
    }
    if Marks(a, v) {
      var n :| 0 <= n < |a| && a[n].Mark? && a[n].event == v;
      assert (a + b)[n] == a[n];
    }
    if Marks(b, v) {
      var n :| 0 <= n < |b| && b[n].Mark? && b[n].event == v;
      assert (a + b)[|a| + n] == b[n];
    }
  }

  /** Any list of enabled writes runs, and its effect is the union of its writes: the order
      and the repetitions do not matter. */
  lemma {:induction false} WritesRun(s: State, ws: seq<Step>)
    requires AllEnabled(s, ws)
    ensures Legal(s, ws) && Written(s, ws, Run(s, ws))
    decreases |ws|
  {
    if ws != [] {
      var s1 := Do(s, ws[0]);
      OneWrite(s, ws[0]);
      assert AllEnabled(s1, ws[1..]);
      WritesRun(s1, ws[1..]);
      assert ws == [ws[0]] + ws[1..];
      forall e: nat, v: nat
        ensures Makes(ws, e, v) <==> Makes([ws[0]], e, v) || Makes(ws[1..], e, v)
        ensures Marks(ws, v) <==> Marks([ws[0]], v) || Marks(ws[1..], v)
      {
        MakesSplits([ws[0]], ws[1..], e, v);
      }
    }
  }

  /** A list of writes that marks an event only after making every row it wants, makes no
      unwanted row, and works on the events of `batch` alone. */
  ghost predicate Careful(s: State, ws: seq<Step>, batch: seq<nat>) {
    && AllEnabled(s, ws)
    && (forall n :: 0 <= n < |ws| && ws[n].Create? ==> Wanted(s, ws[n].endpoint, ws[n].event) && ws[n].event in batch)
    && (forall n :: 0 <= n < |ws| && ws[n].Mark? ==>
          ws[n].event in batch && forall e: nat :: Wanted(s, e, ws[n].event) ==> Makes(ws[..n], e, ws[n].event))
  }

  /** The writes of one event, after careful ones: its rows, then its mark. */
  lemma EventIsCareful(s: State, done: seq<Step>, batch: seq<nat>, v: nat, clock: Clock)
    requires Careful(s, done, batch) && v in batch && v < |s.events|
    ensures Careful(s, done + Creates(Subscribers(s, v), v, clock) + [Mark(v)], batch)
  {
    var rows := Creates(Subscribers(s, v), v, clock);
    var ws := done + rows + [Mark(v)];
    forall k | 0 <= k < |ws| && ws[k].Create?
      ensures Wanted(s, ws[k].endpoint, ws[k].event) && ws[k].event in batch
    {
      if k >= |done| { assert Subscribers(s, v)[k - |done|] in Subscribers(s, v); }
    }
    forall k | 0 <= k < |ws| && ws[k].Mark?
      ensures ws[k].event in batch
      ensures forall e: nat :: Wanted(s, e, ws[k].event) ==> Makes(ws[..k], e, ws[k].event)
    {
      if k < |done| {
        assert ws[..k] == done[..k];
      } else {
        assert ws[..k] == done + rows;
        forall e: nat | Wanted(s, e, v) ensures Makes(done + rows, e, v) {
          CreatesMakeAll(s, v, clock, e);
          MakesSplits(done, rows, e, v);
        }
      }
    }
  }

  lemma CreatesMakeAll(s: State, v: nat, clock: Clock, e: nat)
    requires Wanted(s, e, v)
    ensures Makes(Creates(Subscribers(s, v), v, clock), e, v)
  {
    assert e in Subscribers(s, v);
    var i :| 0 <= i < |Subscribers(s, v)| && Subscribers(s, v)[i] == e;
    assert Creates(Subscribers(s, v), v, clock)[i] == Create(e, v, clock(e, v));
  }

  lemma {:induction false} FanWritesAreCareful(s: State, batch: seq<nat>, clock: Clock)
    requires forall v :: v in batch ==> v < |s.events|
    ensures Careful(s, FanWrites(s, batch, clock), batch)
    ensures forall v :: v in batch ==> Marks(FanWrites(s, batch, clock), v)
  {
    if batch != [] {
      var n := |batch| - 1;
      assert forall u :: u in batch[..n] ==> u in batch;
      assert batch[n] in batch;
      FanWritesAreCareful(s, batch[..n], clock);
      var done := FanWrites(s, batch[..n], clock);
      EventIsCareful(s, done, batch, batch[n], clock);
      FanWritesMark(s, batch, batch[..n], clock);
    }
  }

  lemma FanWritesMark(s: State, batch: seq<nat>, earlier: seq<nat>, clock: Clock)
    requires batch != [] && earlier == batch[..|batch| - 1]
    requires forall v :: v in earlier ==> Marks(FanWrites(s, earlier, clock), v)
    ensures forall v :: v in batch ==> Marks(FanWrites(s, batch, clock), v)
  {
    var n := |batch| - 1;
    var done := FanWrites(s, batch[..n], clock);
    var rows := Creates(Subscribers(s, batch[n]), batch[n], clock);
    var ws := FanWrites(s, batch, clock);
    assert ws == done + rows + [Mark(batch[n])];
    forall v | v in batch ensures Marks(ws, v) {
      if v == batch[n] {
        assert ws[|ws| - 1] == Mark(v);
      } else {
        assert v in earlier;
        MakesSplits(done, rows, 0, v);
        MakesSplits(done + rows, [Mark(batch[n])], 0, v);
      }
    }
  }

  lemma PrefixIsCareful(s: State, ws: seq<Step>, batch: seq<nat>, k: nat)
    requires Careful(s, ws, batch) && k <= |ws|
    ensures Careful(s, ws[..k], batch)
  {
    forall n | 0 <= n < k && ws[n].Mark?
      ensures forall e: nat :: Wanted(s, e, ws[n].event) ==> Makes(ws[..k][..n], e, ws[n].event)
    {
      assert ws[..k][..n] == ws[..n];
    }
  }

  /** The relation between the state a fan-out started in and any later one. */
  ghost predicate Progress(s0: State, s: State) {
    && s.endpoints == s0.endpoints && s.wire == s0.wire && |s.events| == |s0.events|
    && (forall v :: 0 <= v < |s0.events| ==>
          && s.events[v] == s0.events[v].(fannedOut := s.events[v].fannedOut)
          && (s0.events[v].fannedOut ==> s.events[v].fannedOut))
    && s0.rows <= s.rows
    && (forall v: nat, e: nat :: v < |s0.events| && !s0.events[v].fannedOut && s.events[v].fannedOut && Wanted(s0, e, v)
          ==> HasRow(s.rows, e, v))
    && (forall i :: |s0.rows| <= i < |s.rows| ==>
          && s.rows[i].status == Pending && s.rows[i].attempt == 0
          && Wanted(s0, s.rows[i].endpoint, s.rows[i].event) && !s0.events[s.rows[i].event].fannedOut)
  }

  lemma CarefulWritesProgress(s0: State, s: State, ws: seq<Step>, batch: seq<nat>)
    requires Progress(s0, s) && Careful(s, ws, batch)
    requires forall v :: v in batch ==> v < |s.events| && !s.events[v].fannedOut
    ensures Legal(s, ws) && Progress(s0, Run(s, ws))
  {
    WritesRun(s, ws);
    var s' := Run(s, ws);
    assert forall e: nat, v: nat :: v < |s0.events| ==> Wanted(s, e, v) == Wanted(s0, e, v);
    forall v: nat, e: nat | v < |s0.events| && !s0.events[v].fannedOut && s'.events[v].fannedOut && Wanted(s0, e, v)
      ensures HasRow(s'.rows, e, v)
    {
      assert !s.events[v].fannedOut ==> Marks(ws, v);
    }
    forall i | |s0.rows| <= i < |s'.rows|
      ensures s'.rows[i].status == Pending && s'.rows[i].attempt == 0
      ensures Wanted(s0, s'.rows[i].endpoint, s'.rows[i].event) && !s0.events[s'.rows[i].event].fannedOut
    {
      if i < |s.rows| {
        assert s'.rows[i] == s.rows[i];
      } else {
        MadeIsWanted(s, ws, batch, s'.rows[i].endpoint, s'.rows[i].event);
      }
    }
  }

  lemma MadeIsWanted(s: State, ws: seq<Step>, batch: seq<nat>, e: nat, v: nat)
    requires Careful(s, ws, batch) && Makes(ws, e, v)
    ensures Wanted(s, e, v) && v in batch
  {
    var n :| 0 <= n < |ws| && ws[n].Create? && ws[n].endpoint == e && ws[n].event == v;
  }

  /** The batch is unfanned events, each once, as many as there are or fit; and no unfanned
      event is passed over for a later one. */
  lemma BatchIsUnfanned(s: State, limit: nat)
    ensures var batch := UnfannedBatch(s, limit);
            && Distinct(batch)
            && |batch| == (if |Unfanned(s)| <= limit then |Unfanned(s)| else limit)
            && (forall v :: v in batch ==> v < |s.events| && !s.events[v].fannedOut)
            && (forall v :: v in Unfanned(s) && v !in batch ==>
                  |batch| == limit && forall k :: 0 <= k < |batch| ==> OccurredAt(s, batch[k]) <= OccurredAt(s, v))
  {
    FirstInOrder(Unfanned(s), (a, b) => OccurredAt(s, a) <= OccurredAt(s, b), limit);
    var batch := UnfannedBatch(s, limit);
    forall v | v in batch ensures v in Unfanned(s) {}
  }

  /** The first `writes` writes of a pass: what a crash leaves behind. */
  function PartialPass(s: State, limit: nat, clock: Clock, writes: nat): seq<Step> {
    Limit(FanOutSteps(s, limit, clock), writes)
  }

  lemma PartialPassProgress(s0: State, s: State, limit: nat, clock: Clock, writes: nat)
    requires Progress(s0, s)
    ensures Legal(s, PartialPass(s, limit, clock, writes))
    ensures Progress(s0, Run(s, PartialPass(s, limit, clock, writes)))
  {
    var batch := UnfannedBatch(s, limit);
    BatchIsUnfanned(s, limit);
    FanWritesAreCareful(s, batch, clock);
    var ws := FanOutSteps(s, limit, clock);
    var k := |PartialPass(s, limit, clock, writes)|;
    assert PartialPass(s, limit, clock, writes) == ws[..k];
    PrefixIsCareful(s, ws, batch, k);
    CarefulWritesProgress(s0, s, ws[..k], batch);
  }

  /** One pass: how many writes it gets to make, and its clock. */
  datatype Pass = Pass(writes: nat, clock: Clock)

  function AfterPasses(s: State, limit: nat, passes: seq<Pass>): State
    decreases |passes|
  {
    if passes == [] then s
    else
      var ws := PartialPass(s, limit, passes[0].clock, passes[0].writes);
      if Legal(s, ws) then AfterPasses(Run(s, ws), limit, passes[1..]) else s
  }

  /** How many of the passes ran to their end. */
  function FullPasses(s: State, limit: nat, passes: seq<Pass>): nat
    decreases |passes|
  {
    if passes == [] then 0
    else
      var ws := PartialPass(s, limit, passes[0].clock, passes[0].writes);
      (if IsFull(s, limit, passes[0]) then 1 else 0)
      + if Legal(s, ws) then FullPasses(Run(s, ws), limit, passes[1..]) else 0
  }

  lemma {:induction false} PassesProgress(s0: State, s: State, limit: nat, passes: seq<Pass>)
    requires Progress(s0, s)
    ensures Progress(s0, AfterPasses(s, limit, passes))
    decreases |passes|
  {
    if passes != [] {
      var ws := PartialPass(s, limit, passes[0].clock, passes[0].writes);
      PartialPassProgress(s0, s, limit, passes[0].clock, passes[0].writes);
      PassesProgress(s0, Run(s, ws), limit, passes[1..]);
    }
  }

  /** A run of fan-out passes, each cut after any number of writes, that leaves no event
      unfanned has made, for every event it fanned out and every active subscribed endpoint,
      exactly one row; made no other row; and changed no row that was there. */
  lemma FanOutIsExactlyOnce(s: State, limit: nat, passes: seq<Pass>)
    requires Linked(s)
    requires Unfanned(AfterPasses(s, limit, passes)) == []
    ensures var s' := AfterPasses(s, limit, passes);
            && s.rows <= s'.rows && UniquePairs(s'.rows)
            && (forall v :: 0 <= v < |s'.events| ==> s'.events[v].fannedOut)
            && (forall e: nat, v: nat :: v < |s.events| && !s.events[v].fannedOut && Wanted(s, e, v)
                  ==> HasRow(s'.rows, e, v))
            && (forall i :: |s.rows| <= i < |s'.rows| ==>
                  && Wanted(s, s'.rows[i].endpoint, s'.rows[i].event) && !s.events[s'.rows[i].event].fannedOut
                  && s'.rows[i].status == Pending && s'.rows[i].attempt == 0)
  {
    var s' := AfterPasses(s, limit, passes);
    PassesProgress(s, s, limit, passes);
    PassesKeepLinks(s, limit, passes);
    forall v | 0 <= v < |s'.events| ensures s'.events[v].fannedOut {
      assert v !in Unfanned(s');
    }
  }

  lemma {:induction false} PassesKeepLinks(s: State, limit: nat, passes: seq<Pass>)
    requires Linked(s)
    ensures Linked(AfterPasses(s, limit, passes))
    decreases |passes|
  {
    if passes != [] {
      var ws := PartialPass(s, limit, passes[0].clock, passes[0].writes);
      if Legal(s, ws) {
        RunKeepsLinks(s, ws);
        PassesKeepLinks(Run(s, ws), limit, passes[1..]);
      }
    }
  }

  lemma {:induction false} RunKeepsLinks(s: State, steps: seq<Step>)
    requires Linked(s) && Legal(s, steps)
    ensures Linked(Run(s, steps))
    decreases |steps|
  {
    if steps != [] {
      StepKeepsLinks(s, steps[0]);
      RunKeepsLinks(Do(s, steps[0]), steps[1..]);
    }
  }

  /* ----- the passes come to an end ----- */

  lemma UnfannedShrinks(s: State, s': State)
    requires |s.events| == |s'.events|
    requires forall v :: 0 <= v < |s.events| && s.events[v].fannedOut ==> s'.events[v].fannedOut
    ensures |Unfanned(s')| <= |Unfanned(s)|
  {
    DistinctSize(Unfanned(s));
    DistinctSize(Unfanned(s'));
    forall v | v in Elements(Unfanned(s')) ensures v in Elements(Unfanned(s)) {
      assert v in Unfanned(s');
    }
    SubsetSize(Elements(Unfanned(s')), Elements(Unfanned(s)));
  }

  /** A batch that was fanned out is missing from what is left. */
  lemma BatchIsRetired(s: State, s': State, batch: seq<nat>)
    requires |s.events| == |s'.events| && Distinct(batch)
    requires forall v :: 0 <= v < |s.events| && s.events[v].fannedOut ==> s'.events[v].fannedOut
    requires forall v :: v in batch ==> v in Unfanned(s) && s'.events[v].fannedOut
    ensures |Unfanned(s')| + |batch| <= |Unfanned(s)|
  {
    DistinctSize(Unfanned(s));
    DistinctSize(Unfanned(s'));
    DistinctSize(batch);
    var was, left, gone := Elements(Unfanned(s)), Elements(Unfanned(s')), Elements(batch);
    forall v | v in left ensures v in was - gone {
      assert v in Unfanned(s');
    }
    forall v | v in gone ensures v in was {
      assert v in batch;
    }
    SubsetSize(left, was - gone);
  }

  lemma {:induction false} SubsetSize<T>(b: set<T>, a: set<T>)
    requires b <= a
    ensures |b| <= |a|
  {
    assert a == b + (a - b);
  }

  predicate IsFull(s: State, limit: nat, pass: Pass) {
    pass.writes >= |FanOutSteps(s, limit, pass.clock)|
  }

  /** A full pass retires a whole batch, or all there is; a crashed one undoes nothing. */
  lemma PassShrinks(s: State, limit: nat, pass: Pass)
    ensures var ws := PartialPass(s, limit, pass.clock, pass.writes);
            && Legal(s, ws)
            && |Unfanned(Run(s, ws))| <= |Unfanned(s)|
            && (IsFull(s, limit, pass) ==>
                  Unfanned(Run(s, ws)) == [] || |Unfanned(Run(s, ws))| + limit <= |Unfanned(s)|)
  {
    var ws := PartialPass(s, limit, pass.clock, pass.writes);
    assert Progress(s, s);
    PartialPassProgress(s, s, limit, pass.clock, pass.writes);
    UnfannedShrinks(s, Run(s, ws));
    if IsFull(s, limit, pass) {
      assert ws == FanOutSteps(s, limit, pass.clock);
      FullPassRetires(s, limit, pass.clock);
      BatchIsUnfanned(s, limit);
    }
  }

  lemma FullPassMarks(s: State, limit: nat, clock: Clock)
    ensures var ws := FanOutSteps(s, limit, clock);
            && Legal(s, ws) && |Run(s, ws).events| == |s.events|
            && (forall v :: 0 <= v < |s.events| && s.events[v].fannedOut ==> Run(s, ws).events[v].fannedOut)
            && (forall v :: v in UnfannedBatch(s, limit) ==> v in Unfanned(s) && Run(s, ws).events[v].fannedOut)
  {
    var batch := UnfannedBatch(s, limit);
    var ws := FanOutSteps(s, limit, clock);
    BatchIsUnfanned(s, limit);
    FanWritesAreCareful(s, batch, clock);
    WritesRun(s, ws);
    forall v | v in batch ensures v in Unfanned(s) && Run(s, ws).events[v].fannedOut {
      assert Marks(ws, v);
    }
  }

  lemma FullPassRetires(s: State, limit: nat, clock: Clock)
    ensures var ws := FanOutSteps(s, limit, clock);
            Legal(s, ws) && |Unfanned(Run(s, ws))| + |UnfannedBatch(s, limit)| <= |Unfanned(s)|
  {
    FullPassMarks(s, limit, clock);
    BatchIsUnfanned(s, limit);
    BatchIsRetired(s, Run(s, FanOutSteps(s, limit, clock)), UnfannedBatch(s, limit));
  }

  lemma CreditBatch(was: nat, now: nat, left: nat, limit: nat, later: nat, full: bool)
    requires left <= now <= was && (left == 0 || left + limit * later <= now)
    requires full ==> now == 0 || now + limit <= was
    ensures left == 0 || left + limit * ((if full then 1 else 0) + later) <= was
  {
    assert limit * (1 + later) == limit + limit * later;
  }

  /** However many crashed passes are mixed in, nothing is left as soon as full passes could
      take up all the events, a batch of `limit` each. */
  lemma {:induction false} PassesExhaust(s: State, limit: nat, passes: seq<Pass>)
    ensures var left := |Unfanned(AfterPasses(s, limit, passes))|;
            left == 0 || left + limit * FullPasses(s, limit, passes) <= |Unfanned(s)|
    ensures |Unfanned(AfterPasses(s, limit, passes))| <= |Unfanned(s)|
    decreases |passes|
  {
    if passes != [] {
      var ws := PartialPass(s, limit, passes[0].clock, passes[0].writes);
      PassShrinks(s, limit, passes[0]);
      PassesExhaust(Run(s, ws), limit, passes[1..]);
      CreditBatch(|Unfanned(s)|, |Unfanned(Run(s, ws))|, |Unfanned(AfterPasses(s, limit, passes))|,
                  limit, FullPasses(Run(s, ws), limit, passes[1..]), IsFull(s, limit, passes[0]));
    }
  }
}
