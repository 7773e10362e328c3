/** The job queue: rows are conserved, leases are bounded per arming, and draining ends. */
module QueueBudget {
  import opened Pipeline

  lemma {:induction false} ExecuteSplits(s: State, a: seq<Write>, b: seq<Write>, cut: nat)
    ensures var (mid, whole) := Execute(s, a, cut);
            if whole && cut >= |a| then Execute(s, a + b, cut) == Execute(mid, b, cut - |a|)
            else Execute(s, a + b, cut) == (mid, false)
    decreases |a|
  {
    if a == [] {
      assert a + b == b;
    } else {
      assert (a + b)[0] == a[0] && (a + b)[1..] == a[1..] + b;
      if cut > 0 && Possible(s, a[0]) {
        ExecuteSplits(Apply(s, a[0]), a[1..], b, cut - 1);
      }
    }
  }

  lemma {:induction false} WholeTakesAll(s: State, a: seq<Write>, cut: nat)
    requires Execute(s, a, cut).1
    ensures cut >= |a|
    decreases |a|
  {
    if a != [] { WholeTakesAll(Apply(s, a[0]), a[1..], cut - 1); }
  }

  predicate TouchesNoJob(w: Write) {
    !w.Finish? && !w.Enqueue?
  }

  lemma {:induction false} JobsUntouched(s: State, ws: seq<Write>, cut: nat)
    requires forall k :: 0 <= k < |ws| ==> TouchesNoJob(ws[k])
    ensures Execute(s, ws, cut).0.jobs == s.jobs
    decreases |ws|
  {
    if ws != [] && cut > 0 && Possible(s, ws[0]) {
      JobsUntouched(Apply(s, ws[0]), ws[1..], cut - 1);
    }
  }

  lemma {:induction false} StagesTouchNoJob(c: nat, i: nat, n: nat)
    ensures forall k :: 0 <= k < |Stages(c, i, n)| ==> TouchesNoJob(Stages(c, i, n)[k])
    ensures forall k :: 0 <= k < |ShredWork(c, i, n)| ==> TouchesNoJob(ShredWork(c, i, n)[k])
    ensures forall k :: 0 <= k < |ShredVault(c, i, n)| ==> TouchesNoJob(ShredVault(c, i, n)[k])
    decreases n - i
  {
    if i < n { StagesTouchNoJob(c, i + 1, n); }
  }

  /** Files of other conversations are out of a turn's reach. */
  predicate OnlyFilesOf(w: Write, c: nat) {
    match w
    case ClearWork(d) => d == c
    case Stage(d, _) => d == c
    case Shred(p) => p.conversation == c
    case Save(_) => true
    case Finish(_) => true
    case _ => false
  }

  lemma {:induction false} OtherFilesUntouched(s: State, ws: seq<Write>, cut: nat, c: nat, p: Path)
    requires (forall k :: 0 <= k < |ws| ==> OnlyFilesOf(ws[k], c)) && p.conversation != c
    ensures var s' := Execute(s, ws, cut).0;
            (p in s'.files <==> p in s.files) && (p in s.files ==> s'.files[p] == s.files[p])
    decreases |ws|
  {
    if ws != [] && cut > 0 && Possible(s, ws[0]) {
      assert OnlyFilesOf(ws[0], c);
      OtherFilesUntouched(Apply(s, ws[0]), ws[1..], cut - 1, c, p);
    }
  }

  lemma {:induction false} ListsAreOf(c: nat, i: nat, n: nat)
    ensures forall k :: 0 <= k < |Stages(c, i, n)| ==> OnlyFilesOf(Stages(c, i, n)[k], c)
    ensures forall k :: 0 <= k < |ShredWork(c, i, n)| ==> OnlyFilesOf(ShredWork(c, i, n)[k], c)
    ensures forall k :: 0 <= k < |ShredVault(c, i, n)| ==> OnlyFilesOf(ShredVault(c, i, n)[k], c)
    decreases n - i
  {
    if i < n { ListsAreOf(c, i + 1, n); }
  }

  /** A turn leaves the files of every other conversation as they are, wherever it is cut; one that
      returns leaves none of its own working copies. */
  lemma TurnFiles(s: State, maxAttempts: int, cut: nat, killed: bool, p: Path)
    requires FirstPending(s.jobs) < |s.jobs|
    ensures var c := s.jobs[FirstPending(s.jobs)].conversation;
            var (s', turn) := AfterProcess(s, maxAttempts, cut, killed);
            && (p.conversation != c ==> (p in s'.files <==> p in s.files) && (p in s.files ==> s'.files[p] == s.files[p]))
            && (turn.Returned? && p.conversation == c && p.Work? ==> p !in s'.files)
  {
    var j := FirstPending(s.jobs);
    var leased := Lease(s, j);
    var c, n := s.jobs[j].conversation, s.jobs[j].parts;
    ListsAreOf(c, 0, n);
    if p.conversation != c {
      OtherFilesUntouched(leased, ProcessWrites(j, c, n), cut, c, p);
    } else {
      CopiesAreCleared(leased, j, c, n, cut, p);
    }
  }

  lemma CopiesAreCleared(s: State, j: nat, c: nat, n: nat, cut: nat, p: Path)
    requires j < |s.jobs|
    ensures var (after, complete) := Execute(s, ProcessWrites(j, c, n), cut);
            complete && p.conversation == c && p.Work? ==> p !in after.files
  {
    var body := [ClearWork(c)] + Stages(c, 0, n) + ShredWork(c, 0, n) + [Save(c)] + ShredVault(c, 0, n);
    var tail := [ClearWork(c), Finish(j)];
    assert ProcessWrites(j, c, n) == body + tail;
    ExecuteSplits(s, body, tail, cut);
    var (mid, whole) := Execute(s, body, cut);
    if whole && cut >= |body| {
      assert tail[0] == ClearWork(c) && tail[1..] == [Finish(j)] && [Finish(j)][1..] == [];
      var left, cleared := cut - |body|, Apply(mid, ClearWork(c));
      if left >= 1 {
        assert Execute(mid, tail, left) == Execute(cleared, [Finish(j)], left - 1);
        assert Execute(cleared, [Finish(j)], left - 1).0.files == cleared.files;
      }
    }
  }

  /** All the writes of a turn but the last leave the queue alone; the last finishes the job. */
  lemma TurnJobs(s: State, j: nat, c: nat, n: nat, cut: nat)
    requires j < |s.jobs|
    ensures var (after, complete) := Execute(s, ProcessWrites(j, c, n), cut);
            after.jobs == if complete then s.jobs[j := s.jobs[j].(status := Done)] else s.jobs
  {
    var body := [ClearWork(c)] + Stages(c, 0, n) + ShredWork(c, 0, n) + [Save(c)] + ShredVault(c, 0, n) + [ClearWork(c)];
    assert ProcessWrites(j, c, n) == body + [Finish(j)];
    StagesTouchNoJob(c, 0, n);
    JobsUntouched(s, body, cut);
    ExecuteSplits(s, body, [Finish(j)], cut);
    var (mid, whole) := Execute(s, body, cut);
    if whole && cut > |body| {
      assert [Finish(j)][1..] == [];
      assert Execute(mid, [Finish(j)], cut - |body|) == Execute(Apply(mid, Finish(j)), [], cut - |body| - 1);
    }
  }

  /** A turn changes one job: leased, then done, dead, or pending with one more attempt. */
  lemma TurnOutcome(s: State, maxAttempts: int, cut: nat, killed: bool)
    ensures var j := FirstPending(s.jobs);
            var (s', turn) := AfterProcess(s, maxAttempts, cut, killed);
            && |s'.jobs| == |s.jobs|
            && (turn.Idle? <==> j == |s.jobs|)
            && (turn.Idle? ==> s' == s)
            && (!turn.Idle? ==>
                  var k := s.jobs[j].attempts + 1;
                  && s'.jobs == s.jobs[j := s.jobs[j].(attempts := k, status := s'.jobs[j].status)]
                  && (turn.Returned? ==> s'.jobs[j].status == Done && turn.conversation == s.jobs[j].conversation)
                  && (turn.Retried? ==> s'.jobs[j].status == Pending && k < maxAttempts)
                  && (turn.Raised? ==> turn.job == j && s'.jobs[j].status == Dead && k >= maxAttempts)
                  && (turn.Killed? ==> killed && s'.jobs[j].status == Leased))
  {
    var j := FirstPending(s.jobs);
    if j < |s.jobs| {
      TurnJobs(Lease(s, j), j, s.jobs[j].conversation, s.jobs[j].parts, cut);
    }
  }

  /* ----- budgets ----- */

  function Budget(maxAttempts: int): nat {
    if maxAttempts >= 1 then maxAttempts else 1
  }

  /** Leases a job may still get before it leaves the pending state for good. */
  function Remaining(job: Job, maxAttempts: int): nat {
    if job.status != Pending then 0
    else if job.attempts < maxAttempts then maxAttempts - job.attempts
    else 1
  }

  function OpenWork(jobs: seq<Job>, maxAttempts: int): nat {
    if jobs == [] then 0
    else OpenWork(jobs[..|jobs| - 1], maxAttempts) + Remaining(jobs[|jobs| - 1], maxAttempts)
  }

  lemma {:induction false} WorkAfterUpdate(jobs: seq<Job>, j: nat, job: Job, maxAttempts: int)
    requires j < |jobs|
    ensures OpenWork(jobs[j := job], maxAttempts)
            == OpenWork(jobs, maxAttempts) - Remaining(jobs[j], maxAttempts) + Remaining(job, maxAttempts)
    decreases |jobs|
  {
    var n := |jobs| - 1;
    if j == n {
      assert jobs[j := job][..n] == jobs[..n];
    } else {
      assert jobs[j := job][..n] == jobs[..n][j := job];
      WorkAfterUpdate(jobs[..n], j, job, maxAttempts);
    }
  }

  /** Every turn that finds a job uses up part of the queue's remaining work. */
  lemma TurnShrinksWork(s: State, maxAttempts: int, cut: nat, killed: bool)
    requires FirstPending(s.jobs) < |s.jobs|
    ensures OpenWork(AfterProcess(s, maxAttempts, cut, killed).0.jobs, maxAttempts) < OpenWork(s.jobs, maxAttempts)
  {
    var j := FirstPending(s.jobs);
    var s' := AfterProcess(s, maxAttempts, cut, killed).0;
    TurnOutcome(s, maxAttempts, cut, killed);
    WorkAfterUpdate(s.jobs, j, s'.jobs[j], maxAttempts);
  }

  function RemainingAt(jobs: seq<Job>, i: nat, maxAttempts: int): nat {
    if i < |jobs| then Remaining(jobs[i], maxAttempts) else 0
  }

  /** One when the step leases job `i`. */
  function Leases(s: State, step: Step, i: nat): nat {
    if step.Process? && i < |s.jobs| && FirstPending(s.jobs) == i then 1 else 0
  }

  /** One when the step arms job `i`: queues it, or requeues it from the dead. */
  function Arms(s: State, maxAttempts: int, step: Step, i: nat): nat {
    match step
    case Submit(_, _) => if |s.jobs| == i < |Do(s, maxAttempts, step).jobs| then 1 else 0
    case Requeue(c) => if i < |s.jobs| && LatestDead(s.jobs, c) == i then 1 else 0
    case _ => 0
  }

  function LeasesIn(s: State, maxAttempts: int, steps: seq<Step>, i: nat): nat
    decreases |steps|
  {
    if steps == [] then 0
    else Leases(s, steps[0], i) + LeasesIn(Do(s, maxAttempts, steps[0]), maxAttempts, steps[1..], i)
  }

  function ArmsIn(s: State, maxAttempts: int, steps: seq<Step>, i: nat): nat
    decreases |steps|
  {
    if steps == [] then 0
    else Arms(s, maxAttempts, steps[0], i) + ArmsIn(Do(s, maxAttempts, steps[0]), maxAttempts, steps[1..], i)
  }

  /** A submission appends at most one pending job and touches no other. */
  lemma {:induction false} SubmitJobs(s: State, ws: seq<Write>, cut: nat)
    requires forall k :: 0 <= k < |ws| - 1 ==> TouchesNoJob(ws[k])
    requires forall k :: 0 <= k < |ws| ==> !ws[k].Finish?
    ensures var jobs := Execute(s, ws, cut).0.jobs;
            || jobs == s.jobs
            || (|jobs| == |s.jobs| + 1 && jobs[..|s.jobs|] == s.jobs
                && jobs[|s.jobs|].status == Pending && jobs[|s.jobs|].attempts == 0)
    decreases |ws|
  {
    if ws != [] && cut > 0 && Possible(s, ws[0]) {
      if |ws| == 1 {
        assert ws[1..] == [];
      } else {
        SubmitJobs(Apply(s, ws[0]), ws[1..], cut - 1);
      }
    }
  }

  lemma {:induction false} PutsTouchNoJob(c: nat, i: nat, n: nat)
    ensures forall k :: 0 <= k < |Puts(c, i, n)| ==> TouchesNoJob(Puts(c, i, n)[k])
    decreases n - i
  {
    if i < n { PutsTouchNoJob(c, i + 1, n); }
  }

  /** Job rows are conserved: every step keeps each job's conversation and parts in place,
      and adds at most one job. */
  lemma JobsAreConserved(s: State, maxAttempts: int, step: Step)
    ensures var jobs := Do(s, maxAttempts, step).jobs;
            && |s.jobs| <= |jobs| <= |s.jobs| + 1 && (|jobs| > |s.jobs| ==> step.Submit?)
            && (forall j :: 0 <= j < |s.jobs| ==>
                  jobs[j].conversation == s.jobs[j].conversation && jobs[j].parts == s.jobs[j].parts)
            && (forall j :: 0 <= j < |s.jobs| && s.jobs[j].status == Done ==> jobs[j] == s.jobs[j])
  {
    match step {
      case Submit(u, cut) =>
        if !Known(s, u.ref) {
          PutsTouchNoJob(|s.uploads|, 0, |u.chunks|);
          SubmitJobs(s.(uploads := s.uploads + [u]), SubmitWrites(|s.uploads|, u), cut);
        }
      case Process(cut, killed) => TurnOutcome(s, maxAttempts, cut, killed);
      case _ =>
    }
  }

  lemma StepSpendsLeases(s: State, maxAttempts: int, step: Step, i: nat)
    ensures Leases(s, step, i) + RemainingAt(Do(s, maxAttempts, step).jobs, i, maxAttempts)
            <= RemainingAt(s.jobs, i, maxAttempts) + Budget(maxAttempts) * Arms(s, maxAttempts, step, i)
  {
    match step {
      case Submit(u, cut) =>
        if !Known(s, u.ref) {
          PutsTouchNoJob(|s.uploads|, 0, |u.chunks|);
          SubmitJobs(s.(uploads := s.uploads + [u]), SubmitWrites(|s.uploads|, u), cut);
          var jobs := Do(s, maxAttempts, step).jobs;
          if i < |s.jobs| { assert jobs == s.jobs || jobs[..|s.jobs|][i] == s.jobs[i]; }
        }
      case Process(cut, killed) => TurnOutcome(s, maxAttempts, cut, killed);
      case Requeue(c) =>
      case DeleteOnDemand(c) =>
    }
  }

  /** A job is leased at most `maxAttempts` times for each time it was armed. */
  lemma {:induction false} LeasesPerArming(s: State, maxAttempts: int, steps: seq<Step>, i: nat)
    ensures LeasesIn(s, maxAttempts, steps, i) + RemainingAt(Run(s, maxAttempts, steps).jobs, i, maxAttempts)
            <= RemainingAt(s.jobs, i, maxAttempts) + Budget(maxAttempts) * ArmsIn(s, maxAttempts, steps, i)
    decreases |steps|
  {
    if steps != [] {
      var s' := Do(s, maxAttempts, steps[0]);
      StepSpendsLeases(s, maxAttempts, steps[0], i);
      LeasesPerArming(s', maxAttempts, steps[1..], i);
      Distribute(Budget(maxAttempts), Arms(s, maxAttempts, steps[0], i), ArmsIn(s', maxAttempts, steps[1..], i));
    }
  }

  lemma Distribute(b: nat, x: nat, y: nat)
    ensures b * (x + y) == b * x + b * y
  {
  }

  function DoneCount(jobs: seq<Job>): nat {
    if jobs == [] then 0
    else DoneCount(jobs[..|jobs| - 1]) + if jobs[|jobs| - 1].status == Done then 1 else 0
  }

  lemma {:induction false} DoneAfterUpdate(jobs: seq<Job>, j: nat, job: Job)
    requires j < |jobs|
    ensures DoneCount(jobs[j := job])
            == DoneCount(jobs) - (if jobs[j].status == Done then 1 else 0) + if job.status == Done then 1 else 0
    decreases |jobs|
  {
    var n := |jobs| - 1;
    if j == n {
      assert jobs[j := job][..n] == jobs[..n];
    } else {
      assert jobs[j := job][..n] == jobs[..n][j := job];
      DoneAfterUpdate(jobs[..n], j, job);
    }
  }

  lemma TurnCountsDone(s: State, maxAttempts: int, cut: nat, killed: bool)
    ensures var (s', turn) := AfterProcess(s, maxAttempts, cut, killed);
            DoneCount(s'.jobs) == DoneCount(s.jobs) + if turn.Returned? then 1 else 0
  {
    var j := FirstPending(s.jobs);
    TurnOutcome(s, maxAttempts, cut, killed);
    if j < |s.jobs| {
      DoneAfterUpdate(s.jobs, j, AfterProcess(s, maxAttempts, cut, killed).0.jobs[j]);
    }
  }
}
