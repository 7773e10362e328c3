/** No accepted conversation loses its audio before its insight is committed, and no client
    reference ever has two jobs. */
module AudioSafety {
  import opened Pipeline

  /** A conversation is accepted when its job is in the queue. */
  predicate Accepted(s: State, c: nat) {
    exists j :: 0 <= j < |s.jobs| && s.jobs[j].conversation == c
  }

  ghost predicate Intact(s: State, c: nat) {
    c < |s.uploads| && forall i :: 0 <= i < |s.uploads[c].chunks| ==>
      Vault(c, i) in s.files && s.files[Vault(c, i)] == s.uploads[c].chunks[i]
  }

  ghost predicate Safe(s: State, c: nat) {
    Intact(s, c) || c in s.insights || c in s.wiped
  }

  ghost predicate JobOk(s: State, job: Job) {
    && job.conversation < |s.uploads| && job.parts == |s.uploads[job.conversation].chunks|
    && Safe(s, job.conversation)
  }

  /** A remembered reference names the submission that carried it. */
  ghost predicate RefsOk(s: State) {
    && (forall r :: r in s.idempotency ==> s.idempotency[r] < |s.uploads| && s.uploads[s.idempotency[r]].ref == r)
    && (forall j :: 0 <= j < |s.jobs| ==>
          s.jobs[j].conversation < |s.uploads|
          && var r := s.uploads[s.jobs[j].conversation].ref;
             r != "" ==> r in s.idempotency && s.idempotency[r] == s.jobs[j].conversation)
    && (forall i, j :: 0 <= i < j < |s.jobs| ==> s.jobs[i].conversation != s.jobs[j].conversation)
  }

  ghost predicate Inv(s: State) {
    && (forall j :: 0 <= j < |s.jobs| ==> JobOk(s, s.jobs[j]))
    && RefsOk(s)
    && (forall p :: p in s.files ==> p.conversation < |s.uploads|)
  }

  /** The writes of a turn shred vault audio only of conversations already committed. */
  ghost predicate SafeFrom(saved: set<nat>, ws: seq<Write>)
    decreases |ws|
  {
    ws == [] ||
    match ws[0]
    case Save(c) => SafeFrom(saved + {c}, ws[1..])
    case Shred(p) => (p.Vault? ==> p.conversation in saved) && SafeFrom(saved, ws[1..])
    case ClearWork(_) => SafeFrom(saved, ws[1..])
    case Stage(_, _) => SafeFrom(saved, ws[1..])
    case Finish(_) => SafeFrom(saved, ws[1..])
    case Put(_, _) => false
    case Remember(_, _) => false
    case Enqueue(_) => false
  }

  ghost predicate SameJobs(a: seq<Job>, b: seq<Job>) {
    && |a| == |b|
    && forall j :: 0 <= j < |a| ==> a[j].conversation == b[j].conversation && a[j].parts == b[j].parts
  }

  lemma WriteKeepsInv(s: State, w: Write, saved: set<nat>)
    requires Inv(s) && Possible(s, w) && saved <= s.insights
    requires SafeFrom(saved, [w])
    ensures Inv(Apply(s, w)) && SameJobs(s.jobs, Apply(s, w).jobs)
    ensures s.insights <= Apply(s, w).insights && Apply(s, w).uploads == s.uploads
    ensures Apply(s, w).idempotency == s.idempotency && Apply(s, w).wiped == s.wiped
  {
    var s' := Apply(s, w);
    forall j | 0 <= j < |s'.jobs| ensures JobOk(s', s'.jobs[j]) {
      assert JobOk(s, s.jobs[j]);
      var c := s.jobs[j].conversation;
      if Intact(s, c) && c !in s'.insights {
        assert Intact(s', c);
      }
    }
  }

  lemma {:induction false} WritesKeepInv(s: State, ws: seq<Write>, cut: nat, saved: set<nat>)
    requires Inv(s) && saved <= s.insights && SafeFrom(saved, ws)
    ensures var s' := Execute(s, ws, cut).0;
            && Inv(s') && SameJobs(s.jobs, s'.jobs) && s.insights <= s'.insights
            && s'.uploads == s.uploads && s'.idempotency == s.idempotency && s'.wiped == s.wiped
    decreases |ws|
  {
    if ws != [] && cut > 0 && Possible(s, ws[0]) {
      assert SafeFrom(saved, [ws[0]]) by {
        assert [ws[0]][1..] == [];
      }
      WriteKeepsInv(s, ws[0], saved);
      WritesKeepInv(Apply(s, ws[0]), ws[1..], cut - 1, if ws[0].Save? then saved + {ws[0].conversation} else saved);
    }
  }

  lemma {:induction false} StagesThen(saved: set<nat>, c: nat, i: nat, n: nat, rest: seq<Write>)
    requires SafeFrom(saved, rest)
    ensures SafeFrom(saved, Stages(c, i, n) + rest)
    decreases n - i
  {
    if i >= n {
      assert [] + rest == rest;
    } else {
      StagesThen(saved, c, i + 1, n, rest);
      assert (Stages(c, i, n) + rest)[1..] == Stages(c, i + 1, n) + rest;
    }
  }

  lemma {:induction false} ShredWorkThen(saved: set<nat>, c: nat, i: nat, n: nat, rest: seq<Write>)
    requires SafeFrom(saved, rest)
    ensures SafeFrom(saved, ShredWork(c, i, n) + rest)
    decreases n - i
  {
    if i >= n {
      assert [] + rest == rest;
    } else {
      ShredWorkThen(saved, c, i + 1, n, rest);
      assert (ShredWork(c, i, n) + rest)[1..] == ShredWork(c, i + 1, n) + rest;
    }
  }

  /** The vault may be shredded once the insight is saved. */
  lemma {:induction false} ShredVaultThen(saved: set<nat>, c: nat, i: nat, n: nat, rest: seq<Write>)
    requires SafeFrom(saved, rest) && c in saved
    ensures SafeFrom(saved, ShredVault(c, i, n) + rest)
    decreases n - i
  {
    if i >= n {
      assert [] + rest == rest;
    } else {
      ShredVaultThen(saved, c, i + 1, n, rest);
      assert (ShredVault(c, i, n) + rest)[1..] == ShredVault(c, i + 1, n) + rest;
    }
  }

  lemma ProcessWritesAreSafe(job: nat, c: nat, n: nat)
    ensures SafeFrom({}, ProcessWrites(job, c, n))
  {
    var tail := [ClearWork(c), Finish(job)];
    assert tail[1..] == [Finish(job)] && [Finish(job)][1..] == [];
    assert SafeFrom({c}, tail);
    ShredVaultThen({c}, c, 0, n, tail);
    var purge := ShredVault(c, 0, n) + tail;
    assert {} + {c} == {c};
    assert ([Save(c)] + purge)[1..] == purge;
    assert SafeFrom({}, [Save(c)] + purge);
    ShredWorkThen({}, c, 0, n, [Save(c)] + purge);
    StagesThen({}, c, 0, n, ShredWork(c, 0, n) + ([Save(c)] + purge));
    assert ProcessWrites(job, c, n)[1..] == Stages(c, 0, n) + (ShredWork(c, 0, n) + ([Save(c)] + purge));
  }

  lemma StatusChangeKeepsInv(s: State, j: nat, status: JobStatus, attempts: nat)
    requires Inv(s) && j < |s.jobs|
    ensures Inv(s.(jobs := s.jobs[j := s.jobs[j].(status := status, attempts := attempts)]))
  {
    var s' := s.(jobs := s.jobs[j := s.jobs[j].(status := status, attempts := attempts)]);
    forall k | 0 <= k < |s'.jobs| ensures JobOk(s', s'.jobs[k]) {
      assert JobOk(s, s.jobs[k]);
    }
  }

  lemma ProcessKeepsInv(s: State, maxAttempts: int, cut: nat, killed: bool)
    requires Inv(s)
    ensures Inv(AfterProcess(s, maxAttempts, cut, killed).0)
  {
    var j := FirstPending(s.jobs);
    if j < |s.jobs| {
      var leased := Lease(s, j);
      var job := leased.jobs[j];
      StatusChangeKeepsInv(s, j, Leased, s.jobs[j].attempts + 1);
      ProcessWritesAreSafe(j, job.conversation, job.parts);
      WritesKeepInv(leased, ProcessWrites(j, job.conversation, job.parts), cut, {});
      var after := Execute(leased, ProcessWrites(j, job.conversation, job.parts), cut).0;
      StatusChangeKeepsInv(after, j, FailStatus(job.attempts, maxAttempts), after.jobs[j].attempts);
    }
  }

  /* ----- submitting ----- */

  /** After the first `i` puts of a submission: earlier conversations untouched, those parts there. */
  ghost predicate PutSoFar(s: State, s': State, c: nat, i: nat)
    requires c < |s.uploads|
  {
    && s' == s.(files := s'.files)
    && (forall p :: p in s'.files ==> p in s.files || p.conversation == c)
    && (forall p :: p in s.files && p.conversation != c ==> p in s'.files && s'.files[p] == s.files[p])
    && (forall k :: 0 <= k < i && k < |s.uploads[c].chunks| ==>
          Vault(c, k) in s'.files && s'.files[Vault(c, k)] == s.uploads[c].chunks[k])
  }

  /** Where the puts of a submission lead: cut short, or on to the rest of the writes. */
  lemma {:induction false} PutsRun(s: State, s0: State, c: nat, i: nat, rest: seq<Write>, cut: nat) returns (s1: State)
    requires c < |s0.uploads| && i <= |s0.uploads[c].chunks| && PutSoFar(s0, s, c, i)
    ensures var n := |s0.uploads[c].chunks|;
            var r := Execute(s, Puts(c, i, n) + rest, cut);
            && (cut < n - i ==> PutSoFar(s0, s1, c, 0) && r == (s1, false))
            && (cut >= n - i ==> PutSoFar(s0, s1, c, n) && r == Execute(s1, rest, cut - (n - i)))
    decreases |s0.uploads[c].chunks| - i
  {
    var n := |s0.uploads[c].chunks|;
    s1 := s;
    if i == n {
      assert [] + rest == rest;
    } else if cut > 0 {
      var ws := Puts(c, i, n) + rest;
      assert ws[0] == Put(c, i) && ws[1..] == Puts(c, i + 1, n) + rest;
      s1 := PutsRun(Apply(s, Put(c, i)), s0, c, i + 1, rest, cut - 1);
    }
  }

  /** The four ways a submission of a new reference can end, by the number of writes made. */
  lemma SubmitCases(s: State, u: Upload, cut: nat) returns (put: State)
    requires Inv(s) && !Known(s, u.ref)
    ensures PutSoFar(s.(uploads := s.uploads + [u]), put, |s.uploads|, 0)
    ensures var n := |u.chunks|;
            var c := |s.uploads|;
            var s' := AfterSubmit(s, u, cut);
            && (cut < n ==> s' == put)
            && (cut >= n ==> PutSoFar(s.(uploads := s.uploads + [u]), put, c, n))
            && (u.ref == "" && cut == n ==> s' == put)
            && (u.ref == "" && cut > n ==> s' == Apply(put, Enqueue(c)))
            && (u.ref != "" && cut == n ==> s' == put)
            && (u.ref != "" && cut == n + 1 ==> s' == Apply(put, Remember(u.ref, c)))
            && (u.ref != "" && cut > n + 1 ==> s' == Apply(Apply(put, Remember(u.ref, c)), Enqueue(c)))
  {
    var s0 := s.(uploads := s.uploads + [u]);
    var c := |s.uploads|;
    var n := |u.chunks|;
    var rest := (if u.ref != "" then [Remember(u.ref, c)] else []) + [Enqueue(c)];
    assert SubmitWrites(c, u) == Puts(c, 0, n) + rest;
    put := PutsRun(s0, s0, c, 0, rest, cut);
    if u.ref != "" {
      assert rest[0] == Remember(u.ref, c) && rest[1..] == [Enqueue(c)] && [Enqueue(c)][1..] == [];
      if cut > n + 1 {
        var told := Apply(put, Remember(u.ref, c));
        assert Execute(put, rest, cut - n) == Execute(told, [Enqueue(c)], cut - n - 1);
        assert Execute(told, [Enqueue(c)], cut - n - 1) == Execute(Apply(told, Enqueue(c)), [], cut - n - 2);
      }
    } else {
      assert rest == [Enqueue(c)] && rest[1..] == [];
    }
  }

  lemma PutKeepsInv(s: State, u: Upload, put: State, i: nat)
    requires Inv(s) && PutSoFar(s.(uploads := s.uploads + [u]), put, |s.uploads|, i)
    ensures Inv(put)
  {
    forall j | 0 <= j < |put.jobs| ensures JobOk(put, put.jobs[j]) {
      assert JobOk(s, s.jobs[j]);
      var c := s.jobs[j].conversation;
      if Intact(s, c) {
        forall k | 0 <= k < |put.uploads[c].chunks|
          ensures Vault(c, k) in put.files && put.files[Vault(c, k)] == put.uploads[c].chunks[k]
        {
          assert Vault(c, k) in s.files;
        }
      }
    }
  }

  lemma RememberKeepsInv(s: State, put: State, u: Upload)
    requires Inv(put) && u.ref !in put.idempotency && |s.uploads| < |put.uploads|
    requires put.uploads[|s.uploads|] == u
    ensures Inv(Apply(put, Remember(u.ref, |s.uploads|)))
  {
    var s' := Apply(put, Remember(u.ref, |s.uploads|));
    forall j | 0 <= j < |s'.jobs| ensures JobOk(s', s'.jobs[j]) {
      assert JobOk(put, put.jobs[j]);
    }
  }

  lemma EnqueueKeepsInv(s: State, c: nat)
    requires Inv(s) && c < |s.uploads| && Intact(s, c) && !Accepted(s, c)
    requires s.uploads[c].ref != "" ==> s.uploads[c].ref in s.idempotency && s.idempotency[s.uploads[c].ref] == c
    ensures Inv(Apply(s, Enqueue(c)))
  {
    var s' := Apply(s, Enqueue(c));
    assert Intact(s', c);
    forall j | 0 <= j < |s'.jobs| ensures JobOk(s', s'.jobs[j]) {
      if j < |s.jobs| {
        assert JobOk(s, s.jobs[j]);
        if Intact(s, s.jobs[j].conversation) { assert Intact(s', s.jobs[j].conversation); }
      }
    }
  }

  lemma SubmitKeepsInv(s: State, u: Upload, cut: nat)
    requires Inv(s)
    ensures Inv(AfterSubmit(s, u, cut))
  {
    if !Known(s, u.ref) {
      var c := |s.uploads|;
      var n := |u.chunks|;
      var put := SubmitCases(s, u, cut);
      PutKeepsInv(s, u, put, 0);
      assert put.uploads[c] == u;
      if cut >= n {
        assert Intact(put, c);
        assert !Accepted(put, c) by {
          forall j | 0 <= j < |s.jobs| ensures s.jobs[j].conversation != c { assert JobOk(s, s.jobs[j]); }
        }
        if u.ref == "" {
          EnqueueKeepsInv(put, c);
        } else {
          RememberKeepsInv(s, put, u);
          var told := Apply(put, Remember(u.ref, c));
          assert Intact(told, c);
          EnqueueKeepsInv(told, c);
        }
      }
    }
  }

  lemma StepKeepsInv(s: State, maxAttempts: int, step: Step)
    requires Inv(s)
    ensures Inv(Do(s, maxAttempts, step))
  {
    match step {
      case Submit(u, cut) => SubmitKeepsInv(s, u, cut);
      case Process(cut, killed) => ProcessKeepsInv(s, maxAttempts, cut, killed);
      case Requeue(c) =>
        if LatestDead(s.jobs, c) < |s.jobs| { StatusChangeKeepsInv(s, LatestDead(s.jobs, c), Pending, 0); }
      case DeleteOnDemand(c) =>
        var s' := Do(s, maxAttempts, step);
        forall j | 0 <= j < |s'.jobs| ensures JobOk(s', s'.jobs[j]) {
          assert JobOk(s, s.jobs[j]);
          if Intact(s, s.jobs[j].conversation) { assert Intact(s', s.jobs[j].conversation); }
        }
    }
  }

  lemma {:induction false} RunKeepsInv(s: State, maxAttempts: int, steps: seq<Step>)
    requires Inv(s)
    ensures Inv(Run(s, maxAttempts, steps))
    decreases |steps|
  {
    if steps != [] {
      StepKeepsInv(s, maxAttempts, steps[0]);
      RunKeepsInv(Do(s, maxAttempts, steps[0]), maxAttempts, steps[1..]);
    }
  }

  /** Whatever failed or was killed wherever, and however often it was retried: an accepted
      conversation has all its audio in the vault, unless its insight was committed. */
  lemma AcceptedAudioIsNeverLost(maxAttempts: int, steps: seq<Step>, c: nat)
    requires Accepted(Run(Nothing, maxAttempts, steps), c)
    ensures var s := Run(Nothing, maxAttempts, steps);
            Intact(s, c) || c in s.insights || c in s.wiped
  {
    RunKeepsInv(Nothing, maxAttempts, steps);
    var s := Run(Nothing, maxAttempts, steps);
    var j :| 0 <= j < |s.jobs| && s.jobs[j].conversation == c;
    assert JobOk(s, s.jobs[j]);
  }

  /** No client reference ever has two jobs, however its uploads were cut and repeated. */
  lemma OneJobPerReference(maxAttempts: int, steps: seq<Step>, i: nat, j: nat)
    requires var s := Run(Nothing, maxAttempts, steps);
             && i < |s.jobs| && j < |s.jobs|
             && s.jobs[i].conversation < |s.uploads| && s.jobs[j].conversation < |s.uploads|
             && s.uploads[s.jobs[i].conversation].ref == s.uploads[s.jobs[j].conversation].ref != ""
    ensures i == j
  {
    RunKeepsInv(Nothing, maxAttempts, steps);
  }

  /** Repeating a cut upload under the same reference gets it queued, except when the first
      try was cut just between remembering the reference and queueing the job: then the
      retry is answered with a conversation that has no job, and the upload is lost. */
  lemma RetryQueuesUnlessCutBetween(s: State, u: Upload, cut: nat)
    requires Inv(s) && u.ref != "" && !Known(s, u.ref)
    ensures var first := AfterSubmit(s, u, cut);
            var again := AfterSubmit(first, u, |u.chunks| + 2);
            && u.ref in again.idempotency
            && (Accepted(again, again.idempotency[u.ref]) <==> cut != |u.chunks| + 1)
  {
    var put := SubmitCases(s, u, cut);
    var first := AfterSubmit(s, u, cut);
    SubmitKeepsInv(s, u, cut);
    var c := |s.uploads|;
    if cut <= |u.chunks| {
      var put' := SubmitCases(first, u, |u.chunks| + 2);
      var again := AfterSubmit(first, u, |u.chunks| + 2);
      assert again.jobs[|put'.jobs|].conversation == |first.uploads|;
    } else if cut == |u.chunks| + 1 {
      assert !Accepted(first, c) by {
        forall j | 0 <= j < |s.jobs| ensures s.jobs[j].conversation != c { assert JobOk(s, s.jobs[j]); }
      }
    } else {
      assert first.jobs[|put.jobs|].conversation == c;
    }
  }
}
