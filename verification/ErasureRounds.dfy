/** Erasure over time: passes of the eraser among the steps of all other workers, with some
    conversations whose audio cannot be deleted. Who is erased in the end, and who waits. */
module ErasureRounds {
  import opened Basics
  import opened Lifecycle
  import opened Gate
  import opened Erasure
  import opened ErasureQueue

  /* ----- rounds ----- */

  /** A stretch of the other workers' steps, then one erasure pass at the given time. */
  datatype Round = Round(others: seq<Step>, at: int)

  predicate Fits(s: State, round: Round) {
    Legal(s, round.others)
  }

  function PassOf(s: State, limit: nat, stuck: set<nat>, round: Round): seq<Step>
    requires Fits(s, round)
  {
    ErasePass(Run(s, round.others), round.at, limit, Deletable(stuck))
  }

  function AfterRound(s: State, limit: nat, stuck: set<nat>, round: Round): State
    requires Fits(s, round)
  {
    PassIsLegal(Run(s, round.others), round.at, limit, stuck);
    Run(Run(s, round.others), PassOf(s, limit, stuck, round))
  }

  predicate Playable(s: State, limit: nat, stuck: set<nat>, rounds: seq<Round>)
    decreases |rounds|
  {
    rounds == [] ||
    (Fits(s, rounds[0]) && Playable(AfterRound(s, limit, stuck, rounds[0]), limit, stuck, rounds[1..]))
  }

  function AfterRounds(s: State, limit: nat, stuck: set<nat>, rounds: seq<Round>): State
    requires Playable(s, limit, stuck, rounds)
    decreases |rounds|
  {
    if rounds == [] then s else AfterRounds(AfterRound(s, limit, stuck, rounds[0]), limit, stuck, rounds[1..])
  }

  /** All steps of the rounds, in order. */
  function RoundSteps(s: State, limit: nat, stuck: set<nat>, rounds: seq<Round>): seq<Step>
    requires Playable(s, limit, stuck, rounds)
    decreases |rounds|
  {
    if rounds == [] then []
    else rounds[0].others + (PassOf(s, limit, stuck, rounds[0])
                             + RoundSteps(AfterRound(s, limit, stuck, rounds[0]), limit, stuck, rounds[1..]))
  }

  /** Passes between `since` and `until`, and no newcomer in front of the spot meanwhile. */
  predicate Timely(spot: Spot, since: int, until: int, rounds: seq<Round>) {
    forall k :: 0 <= k < |rounds| ==> OnTime(spot, since, until, rounds[k])
  }

  predicate OnTime(spot: Spot, since: int, until: int, round: Round) {
    since <= round.at <= until && AllJoinBehind(spot, until, round.others)
  }

  /** Only the passes erase, and none is made before `since`. */
  predicate Quiet(since: int, rounds: seq<Round>) {
    forall k :: 0 <= k < |rounds| ==> since <= rounds[k].at && NoErasing(rounds[k].others)
  }

  lemma {:induction false} RoundsAreARun(s: State, limit: nat, stuck: set<nat>, rounds: seq<Round>)
    requires Playable(s, limit, stuck, rounds)
    ensures Legal(s, RoundSteps(s, limit, stuck, rounds))
    ensures Run(s, RoundSteps(s, limit, stuck, rounds)) == AfterRounds(s, limit, stuck, rounds)
    decreases |rounds|
  {
    if rounds != [] {
      var s2 := AfterRound(s, limit, stuck, rounds[0]);
      var pass := PassOf(s, limit, stuck, rounds[0]);
      PassIsLegal(Run(s, rounds[0].others), rounds[0].at, limit, stuck);
      RoundsAreARun(s2, limit, stuck, rounds[1..]);
      var rest := RoundSteps(s2, limit, stuck, rounds[1..]);
      RunSplits(Run(s, rounds[0].others), pass, rest);
      RunSplits(s, rounds[0].others, pass + rest);
    }
  }

  lemma PassOnQueue(s: State, now: int, until: int, limit: nat, stuck: set<nat>, c: nat)
    requires c < |s.convs| && HasFile(s, c) && s.convs[c].eraseAfter <= now <= until && c !in stuck
    ensures Legal(s, ErasePass(s, now, limit, Deletable(stuck)))
    ensures var s' := Run(s, ErasePass(s, now, limit, Deletable(stuck)));
            && Onward(s, s', c, until)
            && (Unerased(s', c) ==>
                  |Queue(s', c, until) - stuck| + limit <= |Queue(s, c, until) - stuck| + |Queue(s, c, until) * stuck|)
  {
    PassOnErasure(s, now, limit, stuck, c, until);
    if Unerased(s, c) {
      if |Queue(s, c, now)| < limit {
        PassErasesTheFront(s, now, limit, stuck, c);
      } else {
        PassShortensTheQueue(s, now, limit, stuck, c, until);
      }
    }
  }

  /** One round erases `c`, or takes a batch out of its queue less what is stuck there. */
  lemma RoundOnQueue(s: State, since: int, until: int, limit: nat, stuck: set<nat>, round: Round, c: nat)
    requires Fits(s, round) && c < |s.convs| && HasFile(s, c)
    requires OnTime(SpotOf(s, c), since, until, round) && s.convs[c].eraseAfter <= since && c !in stuck
    ensures var s' := AfterRound(s, limit, stuck, round);
            && Onward(s, s', c, until)
            && (Unerased(s', c) ==>
                  && |Queue(s', c, until) * stuck| <= |Queue(s, c, until) * stuck|
                  && |Queue(s', c, until) - stuck| + limit <= |Queue(s, c, until) - stuck| + |Queue(s, c, until) * stuck|)
  {
    var s1 := Run(s, round.others);
    RunGoesOnward(s, round.others, c, until);
    SubsetSizes(Queue(s1, c, until), Queue(s, c, until), stuck);
    PassOnQueue(s1, round.at, until, limit, stuck, c);
    SubsetSizes(Queue(AfterRound(s, limit, stuck, round), c, until), Queue(s, c, until), stuck);
  }

  /** Erased; or `spare` places of every batch cannot be stuck in front of `c`, and `n` passes
      offer more of them than there are deletable conversations there, counting those that fall
      due up to `until`. */
  predicate InReach(s: State, spot: Spot, until: int, limit: nat, stuck: set<nat>, c: nat, spare: nat, n: nat) {
    && c < |s.convs| && HasFile(s, c) && SpotOf(s, c) == spot && c !in stuck
    && (Unerased(s, c) ==>
          |Queue(s, c, until) * stuck| + spare <= limit && |Queue(s, c, until) - stuck| < n * spare)
  }

  lemma RoundBringsNearer(s: State, spot: Spot, since: int, until: int, limit: nat, stuck: set<nat>, round: Round,
                          c: nat, spare: nat, n: nat)
    requires Fits(s, round) && n > 0 && InReach(s, spot, until, limit, stuck, c, spare, n)
    requires OnTime(spot, since, until, round) && spot.deadline <= since
    ensures InReach(AfterRound(s, limit, stuck, round), spot, until, limit, stuck, c, spare, n - 1)
  {
    assert n * spare == (n - 1) * spare + spare;
    RoundOnQueue(s, since, until, limit, stuck, round, c);
  }

  lemma TimelyRest(spot: Spot, since: int, until: int, rounds: seq<Round>)
    requires rounds != [] && Timely(spot, since, until, rounds)
    ensures OnTime(spot, since, until, rounds[0]) && Timely(spot, since, until, rounds[1..])
  {
  }

  lemma {:induction false} RoundsReachIt(s: State, spot: Spot, since: int, until: int, limit: nat, stuck: set<nat>,
                                         rounds: seq<Round>, c: nat, spare: nat, n: nat)
    requires n == |rounds| && Playable(s, limit, stuck, rounds) && InReach(s, spot, until, limit, stuck, c, spare, n)
    requires Timely(spot, since, until, rounds) && spot.deadline <= since
    ensures InReach(AfterRounds(s, limit, stuck, rounds), spot, until, limit, stuck, c, spare, 0)
    decreases |rounds|
  {
    if rounds != [] {
      TimelyRest(spot, since, until, rounds);
      RoundBringsNearer(s, spot, since, until, limit, stuck, rounds[0], c, spare, n);
      RoundsReachIt(AfterRound(s, limit, stuck, rounds[0]), spot, since, until, limit, stuck, rounds[1..],
                    c, spare, n - 1);
    }
  }

  /** While `spare` places of every batch cannot be stuck, each pass retires that many of the
      deletable conversations in front of `c`, and `c` after them. */
  lemma FewStuckMeansErased(s: State, since: int, until: int, limit: nat, stuck: set<nat>,
                            rounds: seq<Round>, c: nat, spare: nat)
    requires Playable(s, limit, stuck, rounds) && Erasable(s, c, since) && HasFile(s, c) && c !in stuck
    requires Timely(SpotOf(s, c), since, until, rounds)
    requires |Queue(s, c, until) * stuck| + spare <= limit && |Queue(s, c, until) - stuck| < |rounds| * spare
    ensures c < |AfterRounds(s, limit, stuck, rounds).convs|
    ensures !Unerased(AfterRounds(s, limit, stuck, rounds), c)
  {
    RoundsReachIt(s, SpotOf(s, c), since, until, limit, stuck, rounds, c, spare, |rounds|);
  }

  lemma SubsetSizes(small: set<nat>, large: set<nat>, stuck: set<nat>)
    requires small <= large
    ensures |small - stuck| <= |large - stuck| && |small * stuck| <= |large * stuck|
  {
    assert large - stuck == (small - stuck) + (large - small - stuck);
    assert large * stuck == (small * stuck) + ((large - small) * stuck);
  }

  /** Unerased, past its deadline, with a full batch of due stuck conversations in front of it. */
  predicate Starved(s: State, since: int, limit: nat, stuck: set<nat>, c: nat) {
    Unerased(s, c) && HasFile(s, c) && s.convs[c].eraseAfter <= since && |Queue(s, c, since) * stuck| >= limit
  }

  lemma RoundStarves(s: State, since: int, limit: nat, stuck: set<nat>, round: Round, c: nat)
    requires Fits(s, round) && since <= round.at && NoErasing(round.others)
    requires Starved(s, since, limit, stuck, c)
    ensures var s' := AfterRound(s, limit, stuck, round);
            Starved(s', since, limit, stuck, c) && (c in s'.audio <==> c in s.audio)
  {
    var s1 := Run(s, round.others);
    RunStandsStill(s, round.others, c, since);
    SubsetSizes(Queue(s, c, since), Queue(s1, c, since), stuck);
    assert Queue(s1, c, since) <= Queue(s1, c, round.at);
    assert Queue(s1, c, round.at) == Queue(s1, c, since) * stuck + (Queue(s1, c, round.at) - Queue(s1, c, since) * stuck);
    PassSparesTheBack(s1, round.at, limit, stuck, c, since);
  }

  /** Such a conversation is never reached, whatever is ingested. */
  lemma {:induction false} ManyStuckMeansStarved(s: State, since: int, limit: nat, stuck: set<nat>,
                                                 rounds: seq<Round>, c: nat)
    requires Playable(s, limit, stuck, rounds) && Quiet(since, rounds) && Starved(s, since, limit, stuck, c)
    ensures var s' := AfterRounds(s, limit, stuck, rounds);
            Starved(s', since, limit, stuck, c) && (c in s'.audio <==> c in s.audio)
    decreases |rounds|
  {
    if rounds != [] {
      assert since <= rounds[0].at && NoErasing(rounds[0].others);
      RoundStarves(s, since, limit, stuck, rounds[0], c);
      ManyStuckMeansStarved(AfterRound(s, limit, stuck, rounds[0]), since, limit, stuck, rounds[1..], c);
    }
  }

  /* ----- how a conversation ends ----- */

  /** Closed, stamped, and its audio destroyed. */
  predicate Gone(s: State, c: nat) {
    c < |s.convs| && Terminal(s.convs[c].stage) && s.convs[c].erasedAt.Some? && c !in s.audio
  }

  lemma {:induction false} EndsClean(s: State, steps: seq<Step>, c: nat)
    requires Legal(s, steps) && AllSweptClean(s, steps) && (Unerased(s, c) || Gone(s, c))
    ensures Unerased(Run(s, steps), c) || Gone(Run(s, steps), c)
    decreases |steps|
  {
    if steps != [] {
      StepEndsClean(s, steps[0], c);
      EndsClean(Do(s, steps[0]), steps[1..], c);
    }
  }

  lemma StepEndsClean(s: State, step: Step, c: nat)
    requires Enabled(s, step) && SweptClean(s, step) && (Unerased(s, c) || Gone(s, c))
    ensures Unerased(Do(s, step), c) || Gone(Do(s, step), c)
  {
    StepOnErasure(s, step);
    StepClimbs(s, step);
    if step.Open? && CanMove(s, step.conversation, Dispatching) {
      InsertsKeepThreshold(Move(s, step.conversation, Dispatching), step.conversation,
                           Channels[..step.writes], step.at);
    }
  }

  lemma {:induction false} NoSweepsIsClean(s: State, steps: seq<Step>)
    requires Legal(s, steps) && NoSweeps(steps)
    ensures AllSweptClean(s, steps)
    decreases |steps|
  {
    if steps != [] {
      NoSweepsIsClean(Do(s, steps[0]), steps[1..]);
    }
  }

  lemma {:induction false} QuietRoundsDoNotSweep(s: State, since: int, limit: nat, stuck: set<nat>, rounds: seq<Round>)
    requires Playable(s, limit, stuck, rounds) && Quiet(since, rounds)
    ensures NoSweeps(RoundSteps(s, limit, stuck, rounds))
    decreases |rounds|
  {
    if rounds != [] {
      PassIsLegal(Run(s, rounds[0].others), rounds[0].at, limit, stuck);
      assert NoErasing(rounds[0].others);
      QuietRoundsDoNotSweep(AfterRound(s, limit, stuck, rounds[0]), since, limit, stuck, rounds[1..]);
    }
  }

  /** A conversation that is not erased after quiet rounds is unerased; otherwise it is gone. */
  lemma QuietRoundsEndClean(s: State, since: int, limit: nat, stuck: set<nat>, rounds: seq<Round>, c: nat)
    requires Playable(s, limit, stuck, rounds) && Quiet(since, rounds) && Unerased(s, c)
    ensures Unerased(AfterRounds(s, limit, stuck, rounds), c) || Gone(AfterRounds(s, limit, stuck, rounds), c)
  {
    RoundsAreARun(s, limit, stuck, rounds);
    QuietRoundsDoNotSweep(s, since, limit, stuck, rounds);
    NoSweepsIsClean(s, RoundSteps(s, limit, stuck, rounds));
    EndsClean(s, RoundSteps(s, limit, stuck, rounds), c);
  }

  /** The last stage of `c` before it was closed. */
  function LastOpenStage(s: State, steps: seq<Step>, c: nat): Stage
    requires Legal(s, steps) && c < |s.convs|
    decreases |steps|
  {
    if steps == [] then s.convs[c].stage else
      var s' := Do(s, steps[0]);
      if c < |s'.convs| && !Terminal(s'.convs[c].stage) then LastOpenStage(s', steps[1..], c) else s.convs[c].stage
  }

  /** Without sweeps a conversation ends `Purged` if it was dispatching when it was closed and
      `ErrorPurged` otherwise. */
  lemma {:induction false} ClosedByItsStage(s: State, steps: seq<Step>, c: nat)
    requires Legal(s, steps) && NoSweeps(steps) && c < |s.convs| && !Terminal(s.convs[c].stage)
    ensures var s' := Run(s, steps);
            && c < |s'.convs|
            && (Terminal(s'.convs[c].stage) ==>
                  s'.convs[c].stage == if LastOpenStage(s, steps, c) == Dispatching then Purged else ErrorPurged)
    ensures s.convs[c].stage == Dispatching ==> LastOpenStage(s, steps, c) == Dispatching
    decreases |steps|
  {
    if steps != [] {
      var s' := Do(s, steps[0]);
      StepClimbs(s, steps[0]);
      assert NoSweeps(steps[1..]);
      if Terminal(s'.convs[c].stage) {
        AtMostFiveChanges(s', steps[1..], c);
        OnlyErasureCloses(s, steps[0], c);
      } else {
        ClosedByItsStage(s', steps[1..], c);
      }
    }
  }

  lemma OnlyErasureCloses(s: State, step: Step, c: nat)
    requires Enabled(s, step) && !step.Sweep? && c < |s.convs| && !Terminal(s.convs[c].stage)
    requires c < |Do(s, step).convs| && Terminal(Do(s, step).convs[c].stage)
    ensures Do(s, step).convs[c].stage == if s.convs[c].stage == Dispatching then Purged else ErrorPurged
  {
    if step.Open? && CanMove(s, step.conversation, Dispatching) {
      InsertsKeepThreshold(Move(s, step.conversation, Dispatching), step.conversation,
                           Channels[..step.writes], step.at);
    }
  }

  /* ----- the promise of the eraser ----- */

  /** Enough passes whose deletes go through, at any times from `since` to `until` and with any
      steps of the other workers between them, sweeps that delete what is there included, erase
      every conversation due at `since` that no newcomer gets in front of: closed, stamped, its
      audio gone. */
  lemma PassesEraseEverythingDue(s: State, since: int, until: int, limit: nat, rounds: seq<Round>, c: nat)
    requires Playable(s, limit, {}, rounds) && Erasable(s, c, since) && HasFile(s, c) && since <= until
    requires Timely(SpotOf(s, c), since, until, rounds) && |DueErasures(s, until)| <= |rounds| * limit
    requires Legal(s, RoundSteps(s, limit, {}, rounds)) && AllSweptClean(s, RoundSteps(s, limit, {}, rounds))
    ensures Gone(AfterRounds(s, limit, {}, rounds), c)
  {
    BacklogIsTakenUp(s, since, until, limit, rounds, c);
    RoundsAreARun(s, limit, {}, rounds);
    EndsClean(s, RoundSteps(s, limit, {}, rounds), c);
  }

  lemma BacklogIsTakenUp(s: State, since: int, until: int, limit: nat, rounds: seq<Round>, c: nat)
    requires Playable(s, limit, {}, rounds) && Erasable(s, c, since) && HasFile(s, c) && since <= until
    requires Timely(SpotOf(s, c), since, until, rounds) && |DueErasures(s, until)| <= |rounds| * limit
    ensures !Unerased(AfterRounds(s, limit, {}, rounds), c)
  {
    BacklogBoundsQueue(s, until, c);
    assert Queue(s, c, until) * {} == {} && Queue(s, c, until) - {} == Queue(s, c, until);
    FewStuckMeansErased(s, since, until, limit, {}, rounds, c, limit);
  }

  lemma BacklogBoundsQueue(s: State, until: int, c: nat)
    requires Erasable(s, c, until)
    ensures |Queue(s, c, until)| < |DueErasures(s, until)|
  {
    var due := DueErasures(s, until);
    DistinctSize(due);
    assert c in due && Elements(due) == Queue(s, c, until) + (Elements(due) - Queue(s, c, until));
    assert c in Elements(due) - Queue(s, c, until);
  }

  /** If only the passes erase, it ends `Purged` if it was dispatching when its turn came, as
      it is if it was dispatching at the start, and `ErrorPurged` otherwise. */
  lemma ErasedByItsStage(s: State, since: int, until: int, limit: nat, rounds: seq<Round>, c: nat)
    requires Playable(s, limit, {}, rounds) && Quiet(since, rounds) && Erasable(s, c, since) && HasFile(s, c)
    requires Timely(SpotOf(s, c), since, until, rounds) && |DueErasures(s, until)| <= |rounds| * limit
    requires since <= until
    ensures Legal(s, RoundSteps(s, limit, {}, rounds))
    ensures AfterRounds(s, limit, {}, rounds) == Run(s, RoundSteps(s, limit, {}, rounds))
    ensures var s' := AfterRounds(s, limit, {}, rounds);
            && Gone(s', c)
            && s'.convs[c].stage
               == if LastOpenStage(s, RoundSteps(s, limit, {}, rounds), c) == Dispatching then Purged else ErrorPurged
    ensures s.convs[c].stage == Dispatching ==> AfterRounds(s, limit, {}, rounds).convs[c].stage == Purged
  {
    RoundsAreARun(s, limit, {}, rounds);
    QuietRoundsDoNotSweep(s, since, limit, {}, rounds);
    BacklogIsTakenUp(s, since, until, limit, rounds, c);
    QuietRoundsEndClean(s, since, limit, {}, rounds, c);
    ClosedByItsStage(s, RoundSteps(s, limit, {}, rounds), c);
  }

  /** When some conversations can never be deleted, and none of those in front falls due only
      between `since` and `until`: after more rounds than there are deletable conversations in
      front of it, a deletable conversation due at `since` has been erased if and only if fewer
      than `limit` undeletable ones were in front of it. Otherwise it waits, with its audio,
      however many passes there are. */
  lemma ErasedIffFewStuckAhead(s: State, since: int, until: int, limit: nat, stuck: set<nat>,
                               rounds: seq<Round>, c: nat)
    requires Playable(s, limit, stuck, rounds) && Quiet(since, rounds) && Erasable(s, c, since) && HasFile(s, c)
    requires Timely(SpotOf(s, c), since, until, rounds) && |rounds| > |Queue(s, c, until) - stuck|
    requires c !in stuck && Queue(s, c, until) * stuck == Queue(s, c, since) * stuck
    ensures var s' := AfterRounds(s, limit, stuck, rounds);
            && (Gone(s', c) <==> |Queue(s, c, since) * stuck| < limit)
            && (!Gone(s', c) ==> Unerased(s', c) && (c in s'.audio <==> c in s.audio))
  {
    if |Queue(s, c, since) * stuck| < limit {
      var spare := limit - |Queue(s, c, since) * stuck|;
      AtLeastOnce(|rounds|, spare);
      FewStuckMeansErased(s, since, until, limit, stuck, rounds, c, spare);
      QuietRoundsEndClean(s, since, limit, stuck, rounds, c);
    } else {
      ManyStuckMeansStarved(s, since, limit, stuck, rounds, c);
    }
  }

  lemma AtLeastOnce(n: nat, spare: nat)
    requires spare >= 1
    ensures n * spare >= n
  {
    assert n * spare == n * (spare - 1) + n;
  }
}
