/** Who stands in front of a conversation in the eraser's order, and what a step of another worker
    or a pass of the eraser does to that queue. */
module ErasureQueue {
  import opened Basics
  import opened Lifecycle
  import opened Gate
  import opened Erasure

  /* ----- the queue of the eraser ----- */

  /** Neither closed nor stamped: the eraser will want it once its deadline has passed. */
  predicate Unerased(s: State, c: nat) {
    c < |s.convs| && s.convs[c].erasedAt.None? && !Terminal(s.convs[c].stage)
  }

  /** The conversations in front of `c` that are past their deadline at `t` and not erased. */
  function Queue(s: State, c: nat, t: int): set<nat>
    requires c < |s.convs|
  {
    set d: nat | d < |s.convs| && Unerased(s, d) && EraseAfter(s, d) <= t && Precedes(s, d, c)
  }

  /** Deletes go through but for the `stuck` conversations. */
  function Deletable(stuck: set<nat>): nat -> bool {
    (c: nat) => c !in stuck
  }

  lemma FrontPrecedes(s: State, now: int, j: nat)
    requires j < |InOrder(s, now)| && InOrder(s, now)[j] < |s.convs|
    ensures Elements(InOrder(s, now)[..j]) <= Queue(s, InOrder(s, now)[j], now)
  {
    var all := InOrder(s, now);
    InOrderIsOrdered(s, now);
    forall d | d in all[..j] ensures d in Queue(s, all[j], now) {
      var i :| 0 <= i < j && all[i] == d;
      assert Precedes(s, all[i], all[j]) && d in all;
    }
  }

  lemma PrecedersAreInFront(s: State, now: int, j: nat)
    requires j < |InOrder(s, now)| && InOrder(s, now)[j] < |s.convs| && HasFile(s, InOrder(s, now)[j])
    ensures Queue(s, InOrder(s, now)[j], now) <= Elements(InOrder(s, now)[..j])
  {
    var all := InOrder(s, now);
    InOrderIsOrdered(s, now);
    forall d | d in Queue(s, all[j], now) ensures d in all[..j] {
      assert Erasable(s, d, now) && HasFile(s, d);
      var i :| 0 <= i < |all| && all[i] == d;
      assert !Precedes(s, all[j], all[i]);
      assert all[..j][i] == d;
    }
  }

  /** In the order of the batch, what stands before `c` is its queue. */
  lemma FrontIsQueue(s: State, now: int, c: nat) returns (j: nat)
    requires Erasable(s, c, now) && HasFile(s, c)
    ensures j < |InOrder(s, now)| && InOrder(s, now)[j] == c
    ensures Elements(InOrder(s, now)[..j]) == Queue(s, c, now) && |Queue(s, c, now)| == j
  {
    var all := InOrder(s, now);
    InOrderIsOrdered(s, now);
    assert c in all;
    j :| 0 <= j < |all| && all[j] == c;
    FrontPrecedes(s, now, j);
    PrecedersAreInFront(s, now, j);
    DistinctSize(all[..j]);
  }

  /** A past-deadline conversation is in the batch exactly when fewer than `limit` are in
      front of it; otherwise the batch is filled from those. */
  lemma InBatchIffNearFront(s: State, now: int, limit: nat, c: nat)
    requires Erasable(s, c, now) && HasFile(s, c)
    ensures c in ErasureBatch(s, now, limit) <==> |Queue(s, c, now)| < limit
    ensures |Queue(s, c, now)| >= limit ==>
              |ErasureBatch(s, now, limit)| == limit && Elements(ErasureBatch(s, now, limit)) <= Queue(s, c, now)
  {
    var all, batch := InOrder(s, now), ErasureBatch(s, now, limit);
    var j := FrontIsQueue(s, now, c);
    InOrderIsOrdered(s, now);
    BatchIsFront(s, now, limit);
    if j < limit {
      assert batch[j] == c;
    } else {
      assert batch == all[..j][..limit];
      forall d | d in batch ensures d in all[..j] && d != c {
        var i :| 0 <= i < limit && batch[i] == d;
        assert all[..j][i] == d && all[i] != all[j];
      }
    }
  }

  /** In the file opened first, only its own earlier deadlines count: who is in front does not
      depend on the time. */
  lemma FirstFileQueue(s: State, c: nat, since: int, until: int)
    requires c < |s.convs| && HasFile(s, c) && FileOf(s, c) == 0
    requires s.convs[c].eraseAfter <= since && s.convs[c].eraseAfter <= until
    ensures Queue(s, c, until) == Queue(s, c, since)
    ensures forall d :: d in Queue(s, c, since) ==> s.convs[d].tenant == s.convs[c].tenant
  {
    PlaceFinds(s.files, s.convs[c].tenant);
    forall d | d in Queue(s, c, since) ensures s.convs[d].tenant == s.convs[c].tenant {
      PlaceFinds(s.files, s.convs[d].tenant);
    }
  }

  /* ----- what the other workers' steps do to the queue ----- */

  /** What decides who stands in front of a conversation: the tenants whose files were opened
      before its own, its tenant, and its deadline. */
  datatype Spot = Spot(before: seq<string>, tenant: string, deadline: int)

  function SpotOf(s: State, c: nat): Spot
    requires c < |s.convs|
  {
    Spot(s.files[..FileOf(s, c)], s.convs[c].tenant, s.convs[c].eraseAfter)
  }

  /** A new conversation of an earlier-opened tenant falls due after `until`, and one of the same
      tenant not before the deadline there. Other tenants' do not matter. */
  predicate JoinsBehind(spot: Spot, until: int, step: Step) {
    step.Ingest? ==>
      && (step.tenant in spot.before ==> step.eraseAfter > until)
      && (step.tenant == spot.tenant ==> step.eraseAfter >= spot.deadline)
  }

  predicate AllJoinBehind(spot: Spot, until: int, steps: seq<Step>) {
    forall k :: 0 <= k < |steps| ==> JoinsBehind(spot, until, steps[k])
  }

  /** Handlers, retries, verifications and ingests only. */
  predicate NoErasing(steps: seq<Step>) {
    forall k :: 0 <= k < |steps| ==> !steps[k].Erase? && !steps[k].Sweep?
  }

  predicate NoSweeps(steps: seq<Step>) {
    forall k :: 0 <= k < |steps| ==> !steps[k].Sweep?
  }

  /** No step moves a deadline or takes an erasure back; only erasures and sweeps erase; only
      an ingest adds a conversation. */
  lemma StepOnErasure(s: State, step: Step)
    requires Enabled(s, step)
    ensures var s' := Do(s, step);
            && |s'.convs| >= |s.convs|
            && (forall d :: 0 <= d < |s.convs| ==>
                  s'.convs[d].eraseAfter == s.convs[d].eraseAfter && (Unerased(s', d) ==> Unerased(s, d)))
            && (!step.Erase? && !step.Sweep? ==>
                  forall d :: 0 <= d < |s.convs| ==>
                    (Unerased(s, d) ==> Unerased(s', d)) && (d in s'.audio <==> d in s.audio))
            && (forall d :: |s.convs| <= d < |s'.convs| ==> step.Ingest? && s'.convs[d].eraseAfter == step.eraseAfter)
  {
    if step.Open? && CanMove(s, step.conversation, Dispatching) {
      InsertsKeepThreshold(Move(s, step.conversation, Dispatching), step.conversation,
                           Channels[..step.writes], step.at);
    }
  }

  /** `c` is in both states, in an open file, at the same spot. */
  predicate SameSpot(s: State, s': State, c: nat) {
    && c < |s.convs| && c < |s'.convs| && HasFile(s, c) && HasFile(s', c) && SpotOf(s', c) == SpotOf(s, c)
  }

  /** The queue of `c` at `t` has only shrunk. */
  ghost predicate Onward(s: State, s': State, c: nat, t: int) {
    SameSpot(s, s', c) && (Unerased(s', c) ==> Unerased(s, c)) && Queue(s', c, t) <= Queue(s, c, t)
  }

  /** It has only grown, and the audio of `c` is as it was. */
  ghost predicate Still(s: State, s': State, c: nat, t: int) {
    && SameSpot(s, s', c) && (Unerased(s, c) ==> Unerased(s', c)) && Queue(s, c, t) <= Queue(s', c, t)
    && (c in s'.audio <==> c in s.audio)
  }

  lemma StepKeepsSpot(s: State, step: Step, c: nat)
    requires Enabled(s, step) && c < |s.convs| && HasFile(s, c)
    ensures SameSpot(s, Do(s, step), c)
    ensures forall d: nat :: d < |s.convs| ==> (Precedes(Do(s, step), d, c) <==> Precedes(s, d, c))
  {
    StepOnErasure(s, step);
    StepOnFiles(s, step);
    var s', p := Do(s, step), FileOf(s, c);
    assert s'.files[..p] == s.files[..|s.files|][..p] == s.files[..p];
    forall d: nat | d < |s.convs| ensures Precedes(s', d, c) <==> Precedes(s, d, c) {
      assert EraseAfter(s', d) == EraseAfter(s, d) && EraseAfter(s', c) == EraseAfter(s, c);
    }
  }

  lemma StepGoesOnward(s: State, step: Step, c: nat, t: int)
    requires Enabled(s, step) && c < |s.convs| && HasFile(s, c) && JoinsBehind(SpotOf(s, c), t, step)
    ensures Onward(s, Do(s, step), c, t)
  {
    StepKeepsSpot(s, step, c);
    StepOnErasure(s, step);
    StepOnFiles(s, step);
    var s' := Do(s, step);
    forall d | d in Queue(s', c, t) ensures d in Queue(s, c, t) {
      if d < |s.convs| {
        assert Precedes(s', d, c);
      } else {
        NewcomerIsBehind(s', SpotOf(s, c), step, c, d, t);
      }
    }
  }

  lemma NewcomerIsBehind(s: State, spot: Spot, step: Step, c: nat, d: nat, t: int)
    requires c < d < |s.convs| && HasFile(s, c) && SpotOf(s, c) == spot && step.Ingest? && JoinsBehind(spot, t, step)
    requires s.convs[d].tenant == step.tenant && s.convs[d].eraseAfter == step.eraseAfter
    ensures d !in Queue(s, c, t)
  {
    var p, q := FileOf(s, c), FileOf(s, d);
    PlaceFinds(s.files, step.tenant);
    PlaceFinds(s.files, spot.tenant);
    if q < p {
      assert s.files[..p][q] == step.tenant;
    }
  }

  lemma StepStandsStill(s: State, step: Step, c: nat, t: int)
    requires Enabled(s, step) && c < |s.convs| && HasFile(s, c) && !step.Erase? && !step.Sweep?
    ensures Still(s, Do(s, step), c, t)
  {
    StepKeepsSpot(s, step, c);
    StepOnErasure(s, step);
    var s' := Do(s, step);
    forall d | d in Queue(s, c, t) ensures d in Queue(s', c, t) {
      assert Precedes(s', d, c) && EraseAfter(s', d) == EraseAfter(s, d);
    }
  }

  lemma {:induction false} RunGoesOnward(s: State, steps: seq<Step>, c: nat, t: int)
    requires Legal(s, steps) && c < |s.convs| && HasFile(s, c) && AllJoinBehind(SpotOf(s, c), t, steps)
    ensures Onward(s, Run(s, steps), c, t)
    decreases |steps|
  {
    if steps != [] {
      assert JoinsBehind(SpotOf(s, c), t, steps[0]) && AllJoinBehind(SpotOf(s, c), t, steps[1..]);
      StepGoesOnward(s, steps[0], c, t);
      RunGoesOnward(Do(s, steps[0]), steps[1..], c, t);
    }
  }

  lemma {:induction false} RunStandsStill(s: State, steps: seq<Step>, c: nat, t: int)
    requires Legal(s, steps) && c < |s.convs| && HasFile(s, c) && NoErasing(steps)
    ensures Still(s, Run(s, steps), c, t)
    decreases |steps|
  {
    if steps != [] {
      assert NoErasing(steps[1..]);
      StepStandsStill(s, steps[0], c, t);
      RunStandsStill(Do(s, steps[0]), steps[1..], c, t);
    }
  }

  /* ----- one pass ----- */

  lemma PassIsLegal(s: State, now: int, limit: nat, stuck: set<nat>)
    ensures Legal(s, ErasePass(s, now, limit, Deletable(stuck)))
    ensures NoSweeps(ErasePass(s, now, limit, Deletable(stuck)))
  {
    BatchIsErasable(s, now, limit);
    ErasuresRun(s, ErasureBatch(s, now, limit), now, Deletable(stuck));
  }

  /** A pass takes the deletable conversations of its batch out of every queue. */
  lemma PassOnErasure(s: State, now: int, limit: nat, stuck: set<nat>, c: nat, t: int)
    requires c < |s.convs| && HasFile(s, c)
    ensures Legal(s, ErasePass(s, now, limit, Deletable(stuck)))
    ensures var s' := Run(s, ErasePass(s, now, limit, Deletable(stuck)));
            var gone := Elements(ErasureBatch(s, now, limit)) - stuck;
            && Onward(s, s', c, t) && Queue(s', c, t) == Queue(s, c, t) - gone
            && (Unerased(s', c) <==> Unerased(s, c) && c !in gone)
            && (c !in gone ==> s'.convs[c] == s.convs[c] && (c in s'.audio <==> c in s.audio))
  {
    var batch := ErasureBatch(s, now, limit);
    BatchIsErasable(s, now, limit);
    ErasuresRun(s, batch, now, Deletable(stuck));
    var s' := Run(s, ErasePass(s, now, limit, Deletable(stuck)));
    forall d: nat | d < |s.convs|
      ensures Unerased(s', d) <==> Unerased(s, d) && (d !in batch || d in stuck)
      ensures FileOf(s', d) == FileOf(s, d) && EraseAfter(s', d) == EraseAfter(s, d)
    {
    }
    QueueAfterErasing(s, s', Elements(batch) - stuck, c, t);
  }

  lemma QueueAfterErasing(s: State, s': State, gone: set<nat>, c: nat, t: int)
    requires c < |s.convs| && |s'.convs| == |s.convs|
    requires forall d: nat :: d < |s.convs| ==>
               && (Unerased(s', d) <==> Unerased(s, d) && d !in gone)
               && FileOf(s', d) == FileOf(s, d) && EraseAfter(s', d) == EraseAfter(s, d)
    ensures Queue(s', c, t) == Queue(s, c, t) - gone
  {
    forall d: nat ensures d in Queue(s', c, t) <==> d in Queue(s, c, t) - gone {
      assert d < |s.convs| ==> (Precedes(s', d, c) <==> Precedes(s, d, c));
    }
  }

  /** A deletable conversation near the front is erased by the next pass. */
  lemma PassErasesTheFront(s: State, now: int, limit: nat, stuck: set<nat>, c: nat)
    requires Erasable(s, c, now) && HasFile(s, c) && c !in stuck && |Queue(s, c, now)| < limit
    ensures Legal(s, ErasePass(s, now, limit, Deletable(stuck)))
    ensures !Unerased(Run(s, ErasePass(s, now, limit, Deletable(stuck))), c)
  {
    InBatchIffNearFront(s, now, limit, c);
    PassOnErasure(s, now, limit, stuck, c, now);
  }

  /** Further back, a pass does not reach it, and takes nothing stuck out of any queue. */
  lemma PassSparesTheBack(s: State, now: int, limit: nat, stuck: set<nat>, c: nat, t: int)
    requires Erasable(s, c, now) && HasFile(s, c) && |Queue(s, c, now)| >= limit
    ensures Legal(s, ErasePass(s, now, limit, Deletable(stuck)))
    ensures var s' := Run(s, ErasePass(s, now, limit, Deletable(stuck)));
            && SameSpot(s, s', c) && Unerased(s', c) && (c in s'.audio <==> c in s.audio)
            && Queue(s', c, t) * stuck == Queue(s, c, t) * stuck
  {
    InBatchIffNearFront(s, now, limit, c);
    PassOnErasure(s, now, limit, stuck, c, t);
  }

  /** It erases at least the part of its batch that cannot be stuck: of the queue as it is, and
      as it will be at any later `t`. */
  lemma PassShortensTheQueue(s: State, now: int, limit: nat, stuck: set<nat>, c: nat, t: int)
    requires Erasable(s, c, now) && HasFile(s, c) && |Queue(s, c, now)| >= limit && now <= t
    ensures Legal(s, ErasePass(s, now, limit, Deletable(stuck)))
    ensures var s' := Run(s, ErasePass(s, now, limit, Deletable(stuck)));
            c < |s'.convs|
            && |Queue(s', c, t) - stuck| + limit <= |Queue(s, c, t) - stuck| + |Queue(s, c, t) * stuck|
  {
    InBatchIffNearFront(s, now, limit, c);
    PassOnErasure(s, now, limit, stuck, c, t);
    var batch := ErasureBatch(s, now, limit);
    BatchIsErasable(s, now, limit);
    DistinctSize(batch);
    assert Queue(s, c, now) <= Queue(s, c, t);
    TakeOut(Queue(s, c, t), Elements(batch), stuck);
  }

  lemma TakeOut(all: set<nat>, batch: set<nat>, stuck: set<nat>)
    requires batch <= all
    ensures |(all - (batch - stuck)) - stuck| + |batch| <= |all - stuck| + |all * stuck|
  {
    var free, held := batch - stuck, batch * stuck;
    assert batch == free + held;
    assert all - stuck == ((all - free) - stuck) + free;
    assert all * stuck == held + (all * stuck - held);
  }
}
