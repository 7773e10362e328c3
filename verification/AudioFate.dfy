/** What becomes of a conversation whose turn was cut: by how many writes it got to make, it
    can be retried, or it is never taken up again and its audio stays as it is. */
module AudioFate {
  import opened Pipeline
  import opened AudioSafety
  import opened QueueBudget

  ghost predicate VaultSame(s: State, s': State, c: nat) {
    forall k: nat ::
      && (Vault(c, k) in s'.files <==> Vault(c, k) in s.files)
      && (Vault(c, k) in s.files ==> s'.files[Vault(c, k)] == s.files[Vault(c, k)])
  }

  predicate AllThere(s: State, c: nat, n: nat) {
    forall k: nat :: k < n ==> Vault(c, k) in s.files
  }

  /* ----- writes that leave a vault alone ----- */

  predicate TouchesVault(w: Write, c: nat) {
    (w.Put? && w.conversation == c) || (w.Shred? && w.path.Vault? && w.path.conversation == c)
  }

  lemma {:induction false} VaultUntouched(s: State, ws: seq<Write>, cut: nat, c: nat)
    requires forall k :: 0 <= k < |ws| ==> !TouchesVault(ws[k], c)
    ensures VaultSame(s, Execute(s, ws, cut).0, c)
    decreases |ws|
  {
    if ws != [] && cut > 0 && Possible(s, ws[0]) {
      VaultUntouched(Apply(s, ws[0]), ws[1..], cut - 1, c);
    }
  }

  lemma {:induction false} PartsLeaveOthers(d: nat, i: nat, n: nat, c: nat)
    ensures forall k :: 0 <= k < |Stages(d, i, n)| ==> !TouchesVault(Stages(d, i, n)[k], c)
    ensures forall k :: 0 <= k < |ShredWork(d, i, n)| ==> !TouchesVault(ShredWork(d, i, n)[k], c)
    ensures d != c ==> forall k :: 0 <= k < |ShredVault(d, i, n)| ==> !TouchesVault(ShredVault(d, i, n)[k], c)
    decreases n - i
  {
    if i < n { PartsLeaveOthers(d, i + 1, n, c); }
  }

  lemma OtherTurnsLeaveTheVault(s: State, job: nat, d: nat, n: nat, cut: nat, c: nat)
    requires d != c
    ensures VaultSame(s, Execute(s, ProcessWrites(job, d, n), cut).0, c)
  {
    PartsLeaveOthers(d, 0, n, c);
    VaultUntouched(s, ProcessWrites(job, d, n), cut, c);
  }

  /** Staging stops at a missing part, before anything is shredded. */
  lemma {:induction false} StagingStops(s: State, c: nat, i: nat, n: nat, rest: seq<Write>, cut: nat, missing: nat)
    requires i <= missing < n && Vault(c, missing) !in s.files
    ensures var (s', whole) := Execute(s, Stages(c, i, n) + rest, cut);
            !whole && VaultSame(s, s', c)
    decreases n - i
  {
    var ws := Stages(c, i, n) + rest;
    assert ws[0] == Stage(c, i) && ws[1..] == Stages(c, i + 1, n) + rest;
    if cut > 0 && Vault(c, i) in s.files {
      StagingStops(Apply(s, Stage(c, i)), c, i + 1, n, rest, cut - 1, missing);
    }
  }

  lemma TurnStopsAtMissingPart(s: State, job: nat, c: nat, n: nat, cut: nat, missing: nat)
    requires missing < n && Vault(c, missing) !in s.files
    ensures var (s', whole) := Execute(s, ProcessWrites(job, c, n), cut);
            !whole && VaultSame(s, s', c)
  {
    var ws := ProcessWrites(job, c, n);
    assert ws[0] == ClearWork(c);
    if cut > 0 {
      StagingStops(Apply(s, ClearWork(c)), c, 0, n, ws[1..][|Stages(c, 0, n)|..], cut - 1, missing);
      assert ws[1..] == Stages(c, 0, n) + ws[1..][|Stages(c, 0, n)|..];
    }
  }

  /* ----- conversations that are never taken up again ----- */

  predicate MissesPart(s: State, c: nat) {
    c < |s.uploads| && exists k: nat :: k < |s.uploads[c].chunks| && Vault(c, k) !in s.files
  }

  /** Its job is leased, and no worker is at it. */
  predicate LeasedOut(s: State, c: nat) {
    c < |s.uploads| && exists j :: 0 <= j < |s.jobs| && s.jobs[j].conversation == c && s.jobs[j].status == Leased
  }

  predicate Stalled(s: State, c: nat) {
    MissesPart(s, c) || LeasedOut(s, c)
  }

  /** Some turn of the run returned the conversation's document. */
  predicate Returns(s: State, maxAttempts: int, steps: seq<Step>, c: nat)
    decreases |steps|
  {
    steps != []
    && ((steps[0].Process? && AfterProcess(s, maxAttempts, steps[0].cut, steps[0].killed).1 == Returned(c))
        || Returns(Do(s, maxAttempts, steps[0]), maxAttempts, steps[1..], c))
  }

  /** No step takes up a job left leased: nothing lets a lease expire. */
  lemma StepKeepsLease(s: State, maxAttempts: int, step: Step, j: nat)
    requires j < |s.jobs| && s.jobs[j].status == Leased
    ensures var s' := Do(s, maxAttempts, step);
            j < |s'.jobs| && s'.jobs[j] == s.jobs[j]
  {
    match step {
      case Submit(u, cut) =>
        if !Known(s, u.ref) {
          PutsTouchNoJob(|s.uploads|, 0, |u.chunks|);
          SubmitJobs(s.(uploads := s.uploads + [u]), SubmitWrites(|s.uploads|, u), cut);
          var jobs := Do(s, maxAttempts, step).jobs;
          assert jobs == s.jobs || jobs[..|s.jobs|][j] == s.jobs[j];
        }
      case Process(cut, killed) => TurnOutcome(s, maxAttempts, cut, killed);
      case Requeue(c) =>
      case DeleteOnDemand(c) =>
    }
  }

  lemma SubmitLeavesTheVault(s: State, u: Upload, cut: nat, c: nat)
    requires Inv(s) && c < |s.uploads|
    ensures var s' := AfterSubmit(s, u, cut);
            && VaultSame(s, s', c) && c < |s'.uploads| && s'.uploads[c] == s.uploads[c]
  {
    if !Known(s, u.ref) {
      var put := SubmitCases(s, u, cut);
    }
  }

  lemma ProcessLeavesTheVault(s: State, maxAttempts: int, cut: nat, killed: bool, c: nat)
    requires Inv(s) && Stalled(s, c)
    ensures var (s', turn) := AfterProcess(s, maxAttempts, cut, killed);
            VaultSame(s, s', c) && s'.uploads == s.uploads && turn != Returned(c)
  {
    var j := FirstPending(s.jobs);
    if j < |s.jobs| {
      var d, n := s.jobs[j].conversation, s.jobs[j].parts;
      var leased := Lease(s, j);
      assert JobOk(s, s.jobs[j]);
      StatusChangeKeepsInv(s, j, Leased, s.jobs[j].attempts + 1);
      ProcessWritesAreSafe(j, d, n);
      WritesKeepInv(leased, ProcessWrites(j, d, n), cut, {});
      if d != c {
        OtherTurnsLeaveTheVault(leased, j, d, n, cut, c);
      } else {
        assert !LeasedOut(s, c);
        var missing: nat :| missing < n && Vault(c, missing) !in s.files;
        TurnStopsAtMissingPart(leased, j, c, n, cut, missing);
      }
    }
  }

  lemma StepKeepsStalled(s: State, maxAttempts: int, step: Step, c: nat)
    requires Inv(s) && Stalled(s, c)
    ensures var s' := Do(s, maxAttempts, step);
            VaultSame(s, s', c) && Stalled(s', c)
    ensures step.Process? ==> AfterProcess(s, maxAttempts, step.cut, step.killed).1 != Returned(c)
  {
    var s' := Do(s, maxAttempts, step);
    if step.Submit? {
      SubmitLeavesTheVault(s, step.upload, step.cut, c);
    } else if step.Process? {
      ProcessLeavesTheVault(s, maxAttempts, step.cut, step.killed, c);
    }
    assert VaultSame(s, s', c) && c < |s'.uploads| && s'.uploads[c] == s.uploads[c];
    if LeasedOut(s, c) {
      var j :| 0 <= j < |s.jobs| && s.jobs[j].conversation == c && s.jobs[j].status == Leased;
      StepKeepsLease(s, maxAttempts, step, j);
      assert s'.jobs[j].conversation == c;
    } else {
      var missing: nat :| missing < |s.uploads[c].chunks| && Vault(c, missing) !in s.files;
      assert Vault(c, missing) !in s'.files;
    }
  }

  /** A conversation that misses a part, or whose job was left leased, is never returned in any
      later run, and its vault is never touched again. */
  lemma {:induction false} StalledForGood(s: State, maxAttempts: int, steps: seq<Step>, c: nat)
    requires Inv(s) && Stalled(s, c)
    ensures VaultSame(s, Run(s, maxAttempts, steps), c)
    ensures !Returns(s, maxAttempts, steps, c)
    decreases |steps|
  {
    if steps != [] {
      StepKeepsStalled(s, maxAttempts, steps[0], c);
      StepKeepsInv(s, maxAttempts, steps[0]);
      StalledForGood(Do(s, maxAttempts, steps[0]), maxAttempts, steps[1..], c);
    }
  }

  /** A killed turn leaves its job leased, and so it stays, row and all, in every later run:
      the accepted upload is never processed again. */
  lemma {:induction false} LeasedForGood(s: State, maxAttempts: int, steps: seq<Step>, j: nat)
    requires Inv(s) && j < |s.jobs| && s.jobs[j].status == Leased
    ensures var s' := Run(s, maxAttempts, steps);
            j < |s'.jobs| && s'.jobs[j] == s.jobs[j]
    ensures !Returns(s, maxAttempts, steps, s.jobs[j].conversation)
    decreases |steps|
  {
    assert JobOk(s, s.jobs[j]);
    StalledForGood(s, maxAttempts, steps, s.jobs[j].conversation);
    if steps != [] {
      StepKeepsLease(s, maxAttempts, steps[0], j);
      StepKeepsInv(s, maxAttempts, steps[0]);
      LeasedForGood(Do(s, maxAttempts, steps[0]), maxAttempts, steps[1..], j);
    }
  }

  /* ----- one turn, by the writes it made ----- */

  /** How `n` present parts fare when the first vault shred comes after `before` writes, the
      last of them the save: shredded one write each, and complete two writes later. */
  ghost predicate Fate(s: State, r: (State, bool), c: nat, n: nat, cut: nat, before: nat) {
    && (r.1 <==> cut >= before + n + 2)
    && (forall k: nat :: k < n ==> (Vault(c, k) in r.0.files <==> cut <= before + k))
    && (c in r.0.insights <==> c in s.insights || (before >= 1 && cut >= before))
  }

  lemma {:induction false} Lengths(c: nat, i: nat, n: nat)
    requires i <= n
    ensures |Stages(c, i, n)| == |ShredWork(c, i, n)| == |ShredVault(c, i, n)| == n - i
    decreases n - i
  {
    if i < n { Lengths(c, i + 1, n); }
  }

  lemma {:induction false} StagesRun(s: State, c: nat, i: nat, n: nat, cut: nat)
    requires i <= n && AllThere(s, c, n)
    ensures var (s', whole) := Execute(s, Stages(c, i, n), cut);
            (whole <==> cut >= n - i) && VaultSame(s, s', c) && s'.insights == s.insights
    decreases n - i
  {
    if i < n && cut > 0 {
      StagesRun(Apply(s, Stage(c, i)), c, i + 1, n, cut - 1);
    }
  }

  lemma {:induction false} ShredWorkRun(s: State, c: nat, i: nat, n: nat, cut: nat)
    requires i <= n
    ensures var (s', whole) := Execute(s, ShredWork(c, i, n), cut);
            (whole <==> cut >= n - i) && VaultSame(s, s', c) && s'.insights == s.insights
    decreases n - i
  {
    if i < n && cut > 0 {
      ShredWorkRun(Apply(s, Shred(Work(c, i))), c, i + 1, n, cut - 1);
    }
  }

  lemma {:induction false} ShredVaultRun(s: State, c: nat, i: nat, n: nat, cut: nat)
    requires i <= n
    ensures var (s', whole) := Execute(s, ShredVault(c, i, n), cut);
            && (whole <==> cut >= n - i) && s'.insights == s.insights && s'.jobs == s.jobs
            && (forall k: nat :: Vault(c, k) in s'.files <==> Vault(c, k) in s.files && !(i <= k < n && k < i + cut))
    decreases n - i
  {
    if i < n && cut > 0 {
      ShredVaultRun(Apply(s, Shred(Vault(c, i))), c, i + 1, n, cut - 1);
    }
  }

  /** From the vault shreds on. */
  lemma PurgeByCut(s: State, job: nat, c: nat, n: nat, cut: nat)
    requires AllThere(s, c, n) && job < |s.jobs|
    ensures Fate(s, Execute(s, ShredVault(c, 0, n) + [ClearWork(c), Finish(job)], cut), c, n, cut, 0)
  {
    var tail := [ClearWork(c), Finish(job)];
    Lengths(c, 0, n);
    ShredVaultRun(s, c, 0, n, cut);
    ExecuteSplits(s, ShredVault(c, 0, n), tail, cut);
    if cut >= n {
      EndByCut(Execute(s, ShredVault(c, 0, n), cut).0, job, c, cut - n);
    }
  }

  lemma EndByCut(s: State, job: nat, c: nat, cut: nat)
    requires job < |s.jobs|
    ensures var (s', whole) := Execute(s, [ClearWork(c), Finish(job)], cut);
            && (whole <==> cut >= 2) && s'.insights == s.insights
            && forall k: nat :: Vault(c, k) in s'.files <==> Vault(c, k) in s.files
  {
    assert [ClearWork(c), Finish(job)][1..] == [Finish(job)] && [Finish(job)][1..] == [];
    if cut > 0 {
      var cleared := Apply(s, ClearWork(c));
      assert cleared.jobs == s.jobs;
      assert Execute(s, [ClearWork(c), Finish(job)], cut) == Execute(cleared, [Finish(job)], cut - 1);
      if cut > 1 {
        assert Execute(cleared, [Finish(job)], cut - 1) == Execute(Apply(cleared, Finish(job)), [], cut - 2);
      }
    }
  }

  /** From the save on. */
  lemma SaveByCut(s: State, job: nat, c: nat, n: nat, cut: nat)
    requires AllThere(s, c, n) && job < |s.jobs|
    ensures Fate(s, Execute(s, [Save(c)] + (ShredVault(c, 0, n) + [ClearWork(c), Finish(job)]), cut), c, n, cut, 1)
  {
    var purge := ShredVault(c, 0, n) + [ClearWork(c), Finish(job)];
    assert ([Save(c)] + purge)[1..] == purge;
    if cut > 0 {
      PurgeByCut(Apply(s, Save(c)), job, c, n, cut - 1);
    }
  }

  /** After staging: the pipeline, the save, the purge. */
  lemma PipelineByCut(s: State, job: nat, c: nat, n: nat, cut: nat)
    requires AllThere(s, c, n) && job < |s.jobs|
    ensures Fate(s, Execute(s, ShredWork(c, 0, n)
                               + ([Save(c)] + (ShredVault(c, 0, n) + [ClearWork(c), Finish(job)])), cut), c, n, cut, n + 1)
  {
    var rest := [Save(c)] + (ShredVault(c, 0, n) + [ClearWork(c), Finish(job)]);
    Lengths(c, 0, n);
    PartsTouchNoJob(s, c, n, cut);
    ShredWorkRun(s, c, 0, n, cut);
    ExecuteSplits(s, ShredWork(c, 0, n), rest, cut);
    if cut >= n {
      SaveByCut(Execute(s, ShredWork(c, 0, n), cut).0, job, c, n, cut - n);
    }
  }

  lemma PartsTouchNoJob(s: State, c: nat, n: nat, cut: nat)
    ensures Execute(s, ShredWork(c, 0, n), cut).0.jobs == s.jobs
    ensures Execute(s, Stages(c, 0, n), cut).0.jobs == s.jobs
  {
    StagesTouchNoJob(c, 0, n);
    JobsUntouched(s, ShredWork(c, 0, n), cut);
    JobsUntouched(s, Stages(c, 0, n), cut);
  }

  /** From staging on. */
  lemma StagingByCut(s: State, job: nat, c: nat, n: nat, cut: nat)
    requires AllThere(s, c, n) && job < |s.jobs|
    ensures Fate(s, Execute(s, ProcessWrites(job, c, n)[1..], cut), c, n, cut, 2 * n + 1)
  {
    var run := ShredWork(c, 0, n) + ([Save(c)] + (ShredVault(c, 0, n) + [ClearWork(c), Finish(job)]));
    assert ProcessWrites(job, c, n)[1..] == Stages(c, 0, n) + run;
    Lengths(c, 0, n);
    PartsTouchNoJob(s, c, n, cut);
    StagesRun(s, c, 0, n, cut);
    ExecuteSplits(s, Stages(c, 0, n), run, cut);
    if cut >= n {
      PipelineByCut(Execute(s, Stages(c, 0, n), cut).0, job, c, n, cut - n);
    }
  }

  lemma WritesByCut(s: State, job: nat, c: nat, n: nat, cut: nat)
    requires AllThere(s, c, n) && job < |s.jobs|
    ensures Fate(s, Execute(s, ProcessWrites(job, c, n), cut), c, n, cut, 2 * n + 2)
  {
    assert ProcessWrites(job, c, n)[0] == ClearWork(c);
    if cut > 0 {
      StagingByCut(Apply(s, ClearWork(c)), job, c, n, cut - 1);
    }
  }

  /** The next job of the queue, with all its parts in the vault: its turn returns if it makes
      all `3n + 4` writes, commits the insight with write `2n + 2`, and shreds part `k` with
      write `2n + 3 + k`. */
  lemma TurnByCut(s: State, maxAttempts: int, cut: nat, killed: bool)
    requires FirstPending(s.jobs) < |s.jobs|
    requires var job := s.jobs[FirstPending(s.jobs)]; AllThere(s, job.conversation, job.parts)
    ensures var job := s.jobs[FirstPending(s.jobs)];
            var c, n := job.conversation, job.parts;
            var (s', turn) := AfterProcess(s, maxAttempts, cut, killed);
            && (turn.Returned? <==> cut >= 3 * n + 4)
            && (turn.Returned? ==> turn == Returned(c))
            && (c in s'.insights <==> c in s.insights || cut >= 2 * n + 2)
            && (forall k: nat :: k < n ==> (Vault(c, k) in s'.files <==> cut <= 2 * n + 2 + k))
  {
    var j := FirstPending(s.jobs);
    WritesByCut(Lease(s, j), j, s.jobs[j].conversation, s.jobs[j].parts, cut);
    TurnJobs(Lease(s, j), j, s.jobs[j].conversation, s.jobs[j].parts, cut);
  }

  /** When a turn returns a document its insight is committed and none of the conversation's
      vault audio is left. */
  lemma ReturnedMeansPurged(s: State, maxAttempts: int, cut: nat, killed: bool, part: nat)
    requires Inv(s) && AfterProcess(s, maxAttempts, cut, killed).1.Returned?
    ensures var (s', turn) := AfterProcess(s, maxAttempts, cut, killed);
            var c := turn.conversation;
            && c in s'.insights && c < |s'.uploads|
            && (part < |s'.uploads[c].chunks| ==> Vault(c, part) !in s'.files)
  {
    var j := FirstPending(s.jobs);
    var c, n := s.jobs[j].conversation, s.jobs[j].parts;
    assert JobOk(s, s.jobs[j]);
    forall k: nat | k < n ensures Vault(c, k) in s.files {
      if Vault(c, k) !in s.files {
        TurnStopsAtMissingPart(Lease(s, j), j, c, n, cut, k);
      }
    }
    TurnByCut(s, maxAttempts, cut, killed);
    StatusChangeKeepsInv(s, j, Leased, s.jobs[j].attempts + 1);
    ProcessWritesAreSafe(j, c, n);
    WritesKeepInv(Lease(s, j), ProcessWrites(j, c, n), cut, {});
  }

  /* ----- when a cut turn can be made good ----- */

  /** The next job, all of whose parts, at least one, are in the vault. */
  ghost predicate NextIsWhole(s: State, c: nat, n: nat) {
    var j := FirstPending(s.jobs);
    && Inv(s) && j < |s.jobs| && s.jobs[j].conversation == c && s.jobs[j].parts == n >= 1 && AllThere(s, c, n)
  }

  /** A turn that raised, requeued by hand if that was its last attempt. */
  function Rearmed(s: State, turn: Turn, c: nat): State {
    if turn.Raised? then AfterRequeue(s, c) else s
  }

  lemma TurnKeepsTheRest(s: State, maxAttempts: int, cut: nat, killed: bool, c: nat, n: nat)
    requires NextIsWhole(s, c, n)
    ensures var s1 := AfterProcess(s, maxAttempts, cut, killed).0;
            Inv(s1) && s1.uploads == s.uploads && c < |s.uploads| && |s.uploads[c].chunks| == n
  {
    var j := FirstPending(s.jobs);
    assert JobOk(s, s.jobs[j]);
    ProcessKeepsInv(s, maxAttempts, cut, killed);
    StatusChangeKeepsInv(s, j, Leased, s.jobs[j].attempts + 1);
    ProcessWritesAreSafe(j, c, n);
    WritesKeepInv(Lease(s, j), ProcessWrites(j, c, n), cut, {});
  }

  lemma RaisedTurn(s: State, maxAttempts: int, cut: nat, c: nat, n: nat)
    requires NextIsWhole(s, c, n) && cut < 3 * n + 4
    ensures var (s1, turn) := AfterProcess(s, maxAttempts, cut, false);
            var j := FirstPending(s.jobs);
            && j < |s1.jobs| == |s.jobs| && (forall k :: 0 <= k < j ==> s1.jobs[k] == s.jobs[k])
            && s1.jobs[j].conversation == c && s1.jobs[j].parts == n
            && ((turn.Retried? && s1.jobs[j].status == Pending) || (turn.Raised? && s1.jobs[j].status == Dead))
  {
    TurnByCut(s, maxAttempts, cut, false);
    TurnOutcome(s, maxAttempts, cut, false);
  }

  /** Retried or requeued, the job is the next one again. */
  lemma RearmedIsNext(s: State, maxAttempts: int, cut: nat, c: nat, n: nat)
    requires NextIsWhole(s, c, n) && cut < 3 * n + 4
    ensures var (s1, turn) := AfterProcess(s, maxAttempts, cut, false);
            var s2 := Rearmed(s1, turn, c);
            && Inv(s2) && s2.files == s1.files && s2.uploads == s1.uploads && s2.insights == s1.insights
            && FirstPending(s2.jobs) == FirstPending(s.jobs) < |s2.jobs|
            && s2.jobs[FirstPending(s2.jobs)].conversation == c && s2.jobs[FirstPending(s2.jobs)].parts == n
  {
    var j := FirstPending(s.jobs);
    RaisedTurn(s, maxAttempts, cut, c, n);
    TurnKeepsTheRest(s, maxAttempts, cut, false, c, n);
    var (s1, turn) := AfterProcess(s, maxAttempts, cut, false);
    if turn.Raised? {
      assert LatestDead(s1.jobs, c) == j;
      StatusChangeKeepsInv(s1, j, JobStatus.Pending, 0);
    }
    FirstPendingIs(Rearmed(s1, turn, c).jobs, j);
  }

  lemma FirstPendingIs(jobs: seq<Job>, j: nat)
    requires j < |jobs| && jobs[j].status == JobStatus.Pending
    requires forall k :: 0 <= k < j ==> jobs[k].status != JobStatus.Pending
    ensures FirstPending(jobs) == j
  {
  }

  /** A turn that raised after `cut` writes can be made good exactly when it shredded nothing
      in the vault: then an uncut retry returns the document, and otherwise none does. */
  lemma RetryReturnsIffNothingShredded(s: State, maxAttempts: int, cut: nat, c: nat, n: nat, again: nat)
    requires NextIsWhole(s, c, n) && cut < 3 * n + 4 <= again
    ensures var (s1, turn) := AfterProcess(s, maxAttempts, cut, false);
            AfterProcess(Rearmed(s1, turn, c), maxAttempts, again, false).1 == Returned(c) <==> cut <= 2 * n + 2
  {
    RearmedIsNext(s, maxAttempts, cut, c, n);
    TurnByCut(s, maxAttempts, cut, false);
    var (s1, turn) := AfterProcess(s, maxAttempts, cut, false);
    var s2 := Rearmed(s1, turn, c);
    if cut <= 2 * n + 2 {
      TurnByCut(s2, maxAttempts, again, false);
    } else {
      TurnKeepsTheRest(s, maxAttempts, cut, false, c, n);
      assert Vault(c, 0) !in s2.files && MissesPart(s2, c);
      ProcessLeavesTheVault(s2, maxAttempts, again, false, c);
    }
  }

  lemma CutStalls(s: State, maxAttempts: int, cut: nat, killed: bool, c: nat, n: nat)
    requires NextIsWhole(s, c, n) && cut < 3 * n + 4 && (killed || cut > 2 * n + 2)
    ensures var s1 := AfterProcess(s, maxAttempts, cut, killed).0;
            Inv(s1) && Stalled(s1, c)
  {
    var j := FirstPending(s.jobs);
    TurnByCut(s, maxAttempts, cut, killed);
    TurnOutcome(s, maxAttempts, cut, killed);
    TurnKeepsTheRest(s, maxAttempts, cut, killed, c, n);
    var s1 := AfterProcess(s, maxAttempts, cut, killed).0;
    if killed {
      assert s1.jobs[j].status == Leased && s1.jobs[j].conversation == c;
      assert LeasedOut(s1, c);
    } else {
      assert Vault(c, 0) !in s1.files;
      assert MissesPart(s1, c);
    }
  }

  /** A turn cut after its first vault shred, or killed anywhere, is the conversation's last:
      no later run returns its document, and every part not yet shredded stays for ever. */
  lemma CutTurnIsTheLast(s: State, maxAttempts: int, cut: nat, killed: bool, c: nat, n: nat, later: seq<Step>)
    requires NextIsWhole(s, c, n) && cut < 3 * n + 4 && (killed || cut > 2 * n + 2)
    ensures var s1 := AfterProcess(s, maxAttempts, cut, killed).0;
            && !Returns(s1, maxAttempts, later, c)
            && (c in s1.insights <==> c in s.insights || cut >= 2 * n + 2)
            && (forall k: nat :: k < n ==>
                  (Vault(c, k) in Run(s1, maxAttempts, later).files <==> cut <= 2 * n + 2 + k))
  {
    CutStalls(s, maxAttempts, cut, killed, c, n);
    TurnByCut(s, maxAttempts, cut, killed);
    StalledForGood(AfterProcess(s, maxAttempts, cut, killed).0, maxAttempts, later, c);
  }

  /** Some part of the audio is in the vault after every further run. */
  ghost predicate LeftForGood(s: State, maxAttempts: int, c: nat, n: nat) {
    exists k: nat :: k < n && KeptForGood(s, maxAttempts, Vault(c, k))
  }

  ghost predicate KeptForGood(s: State, maxAttempts: int, p: Path) {
    forall steps :: p in Run(s, maxAttempts, steps).files
  }

  /** Audio outlives a committed insight for good exactly when the turn was killed, or had shredded
      a part, before it had shredded the last one, and the insight was committed by then: by this
      turn, or by an earlier one whose job was retried. */
  lemma AudioOutlivesInsightIff(s: State, maxAttempts: int, cut: nat, killed: bool, c: nat, n: nat)
    requires NextIsWhole(s, c, n)
    ensures var s1 := AfterProcess(s, maxAttempts, cut, killed).0;
            (c in s1.insights && LeftForGood(s1, maxAttempts, c, n))
            <==> cut <= 3 * n + 1 && (killed || cut > 2 * n + 2) && (c in s.insights || cut >= 2 * n + 2)
  {
    var s1 := AfterProcess(s, maxAttempts, cut, killed).0;
    TurnByCut(s, maxAttempts, cut, killed);
    if cut <= 3 * n + 1 && (killed || cut > 2 * n + 2) {
      forall steps ensures Vault(c, n - 1) in Run(s1, maxAttempts, steps).files {
        CutTurnIsTheLast(s, maxAttempts, cut, killed, c, n, steps);
      }
      assert KeptForGood(s1, maxAttempts, Vault(c, n - 1));
    } else if cut > 3 * n + 1 {
      forall k: nat | k < n ensures !KeptForGood(s1, maxAttempts, Vault(c, k)) {
        assert Run(s1, maxAttempts, []) == s1;
      }
    } else {
      var steps := HealingSteps(s, maxAttempts, cut, c, n);
      forall k: nat | k < n ensures !KeptForGood(s1, maxAttempts, Vault(c, k)) {
        assert Vault(c, k) !in Run(s1, maxAttempts, steps).files;
      }
    }
  }

  /** The steps that make a raised turn good. */
  lemma HealingSteps(s: State, maxAttempts: int, cut: nat, c: nat, n: nat) returns (steps: seq<Step>)
    requires NextIsWhole(s, c, n) && cut <= 2 * n + 2
    ensures var s1 := AfterProcess(s, maxAttempts, cut, false).0;
            forall k: nat :: k < n ==> Vault(c, k) !in Run(s1, maxAttempts, steps).files
  {
    RearmedIsNext(s, maxAttempts, cut, c, n);
    TurnByCut(s, maxAttempts, cut, false);
    var (s1, turn) := AfterProcess(s, maxAttempts, cut, false);
    var s2 := Rearmed(s1, turn, c);
    TurnByCut(s2, maxAttempts, 3 * n + 4, false);
    var process := Process(3 * n + 4, false);
    if turn.Raised? {
      steps := [Requeue(c), process];
      TwoSteps(s1, maxAttempts, Requeue(c), process);
    } else {
      steps := [process];
      OneStep(s1, maxAttempts, process);
    }
  }

  lemma OneStep(s: State, maxAttempts: int, a: Step)
    ensures Run(s, maxAttempts, [a]) == Do(s, maxAttempts, a)
  {
    assert [a][1..] == [];
  }

  lemma TwoSteps(s: State, maxAttempts: int, a: Step, b: Step)
    ensures Run(s, maxAttempts, [a, b]) == Do(Do(s, maxAttempts, a), maxAttempts, b)
  {
    assert [a, b][1..] == [b];
    OneStep(Do(s, maxAttempts, a), maxAttempts, b);
  }

  /** A complete upload without a reference, into nothing: its job is the next and whole. */
  lemma FreshUploadIsWhole(u: Upload)
    requires |u.chunks| >= 1 && u.ref == ""
    ensures NextIsWhole(AfterSubmit(Nothing, u, |u.chunks| + 1), 0, |u.chunks|)
    ensures 0 !in AfterSubmit(Nothing, u, |u.chunks| + 1).insights
  {
    var put := SubmitCases(Nothing, u, |u.chunks| + 1);
    SubmitKeepsInv(Nothing, u, |u.chunks| + 1);
    var s := AfterSubmit(Nothing, u, |u.chunks| + 1);
    assert s.jobs == [Job(0, |u.chunks|, JobStatus.Pending, 0)];
    FirstPendingIs(s.jobs, 0);
  }

  /** It happens: an upload of two parts or more, and a turn that raises right after its first
      vault shred. The insight is committed, and the last part is there after any further run. */
  lemma AudioIsLeftBehind(maxAttempts: int, u: Upload, later: seq<Step>)
    requires |u.chunks| >= 2 && u.ref == ""
    ensures var n := |u.chunks|;
            var s := Run(Nothing, maxAttempts, [Submit(u, n + 1), Process(2 * n + 3, false)]);
            && 0 in s.insights && Vault(0, 0) !in s.files
            && Vault(0, n - 1) in Run(s, maxAttempts, later).files && !Returns(s, maxAttempts, later, 0)
  {
    var n := |u.chunks|;
    FreshUploadIsWhole(u);
    var s0 := AfterSubmit(Nothing, u, n + 1);
    TwoSteps(Nothing, maxAttempts, Submit(u, n + 1), Process(2 * n + 3, false));
    var s := AfterProcess(s0, maxAttempts, 2 * n + 3, false).0;
    assert Run(Nothing, maxAttempts, [Submit(u, n + 1), Process(2 * n + 3, false)]) == s;
    TurnByCut(s0, maxAttempts, 2 * n + 3, false);
    CutTurnIsTheLast(s0, maxAttempts, 2 * n + 3, false, 0, n, later);
  }
}
