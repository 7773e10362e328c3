/** The ingestion service, the job queue and the pipeline worker as objects. A method takes
    the number of writes it gets to make, so that any of its statements may be the one that
    raises; it is proved to leave exactly what `Pipeline` says it leaves. */
module Worker {
  import opened Basics
  import opened Chunking
  import opened Pipeline
  import opened AudioSafety
  import opened QueueBudget

  class JobQueue {
    const maxAttempts: int
    var jobs: seq<Job>

    constructor (maxAttempts: int := 3)
      ensures this.maxAttempts == maxAttempts && jobs == []
    {
      this.maxAttempts := maxAttempts;
      jobs := [];
    }

    method EnqueueJob(conversation: nat, parts: nat)
      modifies this`jobs
      ensures jobs == old(jobs) + [Job(conversation, parts, Pending, 0)]
    {
      jobs := jobs + [Job(conversation, parts, Pending, 0)];
    }

    /** Leases the oldest pending job. */
    method Dequeue() returns (job: Option<nat>)
      modifies this`jobs
      ensures job.None? <==> FirstPending(old(jobs)) == |old(jobs)|
      ensures job.None? ==> jobs == old(jobs)
      ensures job.Some? ==>
                var j := FirstPending(old(jobs));
                && job.value == j < |jobs|
                && jobs == old(jobs)[j := old(jobs)[j].(status := Leased, attempts := old(jobs)[j].attempts + 1)]
    {
      var j := FirstPending(jobs);
      if j == |jobs| {
        return None;
      }
      jobs := jobs[j := jobs[j].(status := Leased, attempts := jobs[j].attempts + 1)];
      job := Some(j);
    }

    method SetStatus(j: nat, status: JobStatus)
      requires j < |jobs|
      modifies this`jobs
      ensures jobs == old(jobs)[j := old(jobs)[j].(status := status)]
    {
      jobs := jobs[j := jobs[j].(status := status)];
    }

    /** Back to the queue, or parked as dead after too many attempts. */
    method FailJob(j: nat, attempts: nat) returns (status: JobStatus)
      requires j < |jobs|
      modifies this`jobs
      ensures status == if attempts < maxAttempts then Pending else Dead
      ensures jobs == old(jobs)[j := old(jobs)[j].(status := status)]
    {
      status := if attempts < maxAttempts then Pending else Dead;
      SetStatus(j, status);
    }

    method RequeueDead(c: nat) returns (found: bool)
      modifies this`jobs
      ensures var j := LatestDead(old(jobs), c);
              && found == (j < |old(jobs)|)
              && jobs == if found then old(jobs)[j := old(jobs)[j].(status := Pending, attempts := 0)] else old(jobs)
    {
      var j := LatestDead(jobs, c);
      found := j < |jobs|;
      if found {
        jobs := jobs[j := jobs[j].(status := Pending, attempts := 0)];
      }
    }
  }

  /** The vault, the insight table and the reference table, with the submissions so far. */
  class Shelves {
    var uploads: seq<Upload>
    var idempotency: map<string, nat>
    var files: map<Path, Bytes>
    var insights: set<nat>
    var wiped: set<nat>

    constructor ()
      ensures uploads == [] && idempotency == map[] && files == map[] && insights == {} && wiped == {}
    {
      uploads, idempotency, files, insights, wiped := [], map[], map[], {}, {};
    }

    method ClearWorkDir(c: nat)
      modifies this`files
      ensures files == map p | p in old(files) && !(p.Work? && p.conversation == c) :: old(files)[p]
    {
      files := map p | p in files && !(p.Work? && p.conversation == c) :: files[p];
    }
  }

  function View(s: Shelves, q: JobQueue): State
    reads s, q
  {
    State(s.uploads, s.idempotency, q.jobs, s.files, s.insights, s.wiped)
  }

  datatype Submission =
    | NoConsent | EmptyUpload | TooLarge | UnknownTenant | FieldTooLong
    | Accepted(conversation: nat) | Interrupted

  predicate Refused(r: Submission) {
    !r.Accepted? && !r.Interrupted?
  }

  /** The metadata as the service judges it. */
  datatype Metadata = Metadata(consent: bool, knownTenant: bool, fieldsFit: bool, ref: string)

  class IngestionService {
    const shelves: Shelves
    const queue: JobQueue
    const chunkBytes: nat
    const maxUploadBytes: nat

    constructor (shelves: Shelves, queue: JobQueue, chunkBytes: nat, maxUploadBytes: nat)
      ensures this.shelves == shelves && this.queue == queue
      ensures this.chunkBytes == chunkBytes && this.maxUploadBytes == maxUploadBytes
    {
      this.shelves, this.queue, this.chunkBytes, this.maxUploadBytes := shelves, queue, chunkBytes, maxUploadBytes;
    }

    /** Refuses without consent, without bytes, over the limit, for an unknown tenant or with
        an over-long field, before anything is written; answers a known reference with its
        conversation; otherwise chunks, stores, remembers and queues. */
    method SubmitUpload(audio: Bytes, meta: Metadata, audioLike: bool, cut: nat)
      returns (r: Submission, ghost chunks: seq<Bytes>)
      requires chunkBytes >= 1
      modifies shelves, queue
      ensures Refused(r) <==>
                !meta.consent || audio == [] || |audio| > maxUploadBytes || !meta.knownTenant || !meta.fieldsFit
      ensures (r.NoConsent? <==> !meta.consent) && (r.EmptyUpload? <==> meta.consent && audio == [])
      ensures r.TooLarge? <==> meta.consent && audio != [] && |audio| > maxUploadBytes
      ensures Refused(r) ==> View(shelves, queue) == old(View(shelves, queue))
      ensures !Refused(r) ==>
                && Joined(chunks) == audio
                && View(shelves, queue) == AfterSubmit(old(View(shelves, queue)), Upload(meta.ref, chunks), cut)
      ensures r.Accepted? ==>
                r.conversation == if Known(old(View(shelves, queue)), meta.ref) then old(shelves.idempotency[meta.ref])
                                  else old(|shelves.uploads|)
    {
      chunks := [];
      if !meta.consent {
        return NoConsent, [];
      }
      if audio == [] {
        return EmptyUpload, [];
      }
      if |audio| > maxUploadBytes {
        return TooLarge, [];
      }
      if !meta.knownTenant {
        return UnknownTenant, [];
      }
      if !meta.fieldsFit {
        return FieldTooLong, [];
      }
      var ref := meta.ref;
      var parts := Chunk(audio, chunkBytes, audioLike);
      chunks := parts;
      if ref != "" && ref in shelves.idempotency {
        return Accepted(shelves.idempotency[ref]), parts;
      }
      var done := WriteUpload(Upload(ref, parts), cut);
      r := if done then Accepted(|shelves.uploads| - 1) else Interrupted;
    }

    method WriteUpload(u: Upload, cut: nat) returns (done: bool)
      modifies shelves, queue
      ensures var s := old(View(shelves, queue)).(uploads := old(shelves.uploads) + [u]);
              (View(shelves, queue), done) == Execute(s, SubmitWrites(old(|shelves.uploads|), u), cut)
      ensures |shelves.uploads| == old(|shelves.uploads|) + 1
    {
      var c := |shelves.uploads|;
      shelves.uploads := shelves.uploads + [u];
      ghost var s := View(shelves, queue);
      ghost var tail := (if u.ref != "" then [Remember(u.ref, c)] else []) + [Enqueue(c)];
      assert SubmitWrites(c, u) == Puts(c, 0, |u.chunks|) + tail;
      var i := 0;
      while i < |u.chunks|
        invariant 0 <= i <= |u.chunks| && i <= cut
        invariant shelves.uploads == s.uploads && c < |shelves.uploads| && shelves.uploads[c] == u
        invariant Execute(View(shelves, queue), Puts(c, i, |u.chunks|) + tail, cut - i)
                  == Execute(s, SubmitWrites(c, u), cut)
      {
        assert (Puts(c, i, |u.chunks|) + tail)[0] == Put(c, i);
        assert (Puts(c, i, |u.chunks|) + tail)[1..] == Puts(c, i + 1, |u.chunks|) + tail;
        if i == cut {
          return false;
        }
        shelves.files := shelves.files[Vault(c, i) := u.chunks[i]];
        i := i + 1;
      }
      assert Puts(c, i, |u.chunks|) + tail == tail;
      done := FinishUpload(c, u.ref, |u.chunks|, cut - i);
    }

    method FinishUpload(c: nat, ref: string, parts: nat, left: nat) returns (done: bool)
      requires c < |shelves.uploads| && parts == |shelves.uploads[c].chunks|
      modifies shelves`idempotency, queue`jobs
      ensures (View(shelves, queue), done)
              == Execute(old(View(shelves, queue)), (if ref != "" then [Remember(ref, c)] else []) + [Enqueue(c)], left)
    {
      ghost var s := View(shelves, queue);
      LastWrites(s, ref, c, left);
      var budget := left;
      if ref != "" {
        if budget == 0 {
          return false;
        }
        if ref !in shelves.idempotency {
          shelves.idempotency := shelves.idempotency[ref := c];
        }
        assert View(shelves, queue) == Apply(s, Remember(ref, c));
        budget := budget - 1;
      }
      if budget == 0 {
        return false;
      }
      queue.EnqueueJob(c, parts);
      done := true;
    }
  }

  /** How remembering the reference and queueing the job end, write by write. */
  lemma LastWrites(s: State, ref: string, c: nat, left: nat)
    requires c < |s.uploads|
    ensures var remembered := if ref == "" then s else Apply(s, Remember(ref, c));
            var needed := if ref == "" then 1 else 2;
            Execute(s, (if ref != "" then [Remember(ref, c)] else []) + [Enqueue(c)], left)
            == if left >= needed then (Apply(remembered, Enqueue(c)), true)
               else if left == 1 then (remembered, false) else (s, false)
  {
    LastWrite(s, c, left);
    var tail := [Enqueue(c)];
    var ws := (if ref != "" then [Remember(ref, c)] else []) + tail;
    if ref != "" {
      assert ws[0] == Remember(ref, c) && ws[1..] == tail;
      if left > 0 {
        LastWrite(Apply(s, Remember(ref, c)), c, left - 1);
      }
    } else {
      assert ws == tail;
    }
  }

  lemma LastWrite(s: State, c: nat, left: nat)
    requires c < |s.uploads|
    ensures Execute(s, [Enqueue(c)], left) == if left > 0 then (Apply(s, Enqueue(c)), true) else (s, false)
  {
    assert [Enqueue(c)][1..] == [];
  }

  class PipelineWorker {
    const shelves: Shelves
    const queue: JobQueue

    constructor (shelves: Shelves, queue: JobQueue)
      ensures this.shelves == shelves && this.queue == queue
    {
      this.shelves, this.queue := shelves, queue;
    }

    /** Copies vault audio to the work directory; stops at the cut or at a missing file. */
    method StageAudio(c: nat, n: nat, left: nat, ghost rest: seq<Write>) returns (ok: bool, remaining: nat)
      modifies shelves`files
      ensures ok ==> Execute(View(shelves, queue), rest, remaining)
                     == Execute(old(View(shelves, queue)), Stages(c, 0, n) + rest, left)
      ensures !ok ==> (View(shelves, queue), false) == Execute(old(View(shelves, queue)), Stages(c, 0, n) + rest, left)
      ensures forall p: Path :: p.Vault? ==> (p in shelves.files <==> p in old(shelves.files))
      ensures ok ==> forall k: nat :: k < n ==>
                Work(c, k) in shelves.files && Vault(c, k) in old(shelves.files)
                && shelves.files[Work(c, k)] == old(shelves.files)[Vault(c, k)]
    {
      ghost var s := View(shelves, queue);
      remaining := left;
      var i := 0;
      while i < n
        invariant 0 <= i <= n
        invariant Execute(View(shelves, queue), Stages(c, i, n) + rest, remaining)
                  == Execute(s, Stages(c, 0, n) + rest, left)
        invariant forall p: Path :: p.Vault? ==>
                    (p in shelves.files <==> p in s.files) && (p in s.files ==> shelves.files[p] == s.files[p])
        invariant forall k: nat :: k < i ==>
                    Work(c, k) in shelves.files && Vault(c, k) in s.files
                    && shelves.files[Work(c, k)] == s.files[Vault(c, k)]
      {
        assert (Stages(c, i, n) + rest)[0] == Stage(c, i);
        assert (Stages(c, i, n) + rest)[1..] == Stages(c, i + 1, n) + rest;
        if remaining == 0 || Vault(c, i) !in shelves.files {
          return false, remaining;
        }
        shelves.files := shelves.files[Work(c, i) := shelves.files[Vault(c, i)]];
        remaining := remaining - 1;
        i := i + 1;
      }
      assert Stages(c, i, n) + rest == rest;
      ok := true;
    }

    /** The pipeline: its audio-deletion stage shreds the staged copies. */
    method RunPipeline(c: nat, n: nat, left: nat, ghost rest: seq<Write>) returns (ok: bool, remaining: nat)
      modifies shelves`files
      ensures ok ==> Execute(View(shelves, queue), rest, remaining)
                     == Execute(old(View(shelves, queue)), ShredWork(c, 0, n) + rest, left)
      ensures !ok ==> (View(shelves, queue), false) == Execute(old(View(shelves, queue)), ShredWork(c, 0, n) + rest, left)
    {
      ghost var s := View(shelves, queue);
      remaining := left;
      var i := 0;
      while i < n
        invariant 0 <= i <= n
        invariant Execute(View(shelves, queue), ShredWork(c, i, n) + rest, remaining)
                  == Execute(s, ShredWork(c, 0, n) + rest, left)
      {
        assert (ShredWork(c, i, n) + rest)[0] == Shred(Work(c, i));
        assert (ShredWork(c, i, n) + rest)[1..] == ShredWork(c, i + 1, n) + rest;
        if remaining == 0 {
          return false, remaining;
        }
        shelves.files := shelves.files - {Work(c, i)};
        remaining := remaining - 1;
        i := i + 1;
      }
      assert ShredWork(c, i, n) + rest == rest;
      ok := true;
    }

    method PurgeVaultAudio(c: nat, n: nat, left: nat, ghost rest: seq<Write>) returns (ok: bool, remaining: nat)
      modifies shelves`files
      ensures ok ==> Execute(View(shelves, queue), rest, remaining)
                     == Execute(old(View(shelves, queue)), ShredVault(c, 0, n) + rest, left)
      ensures !ok ==> (View(shelves, queue), false) == Execute(old(View(shelves, queue)), ShredVault(c, 0, n) + rest, left)
    {
      ghost var s := View(shelves, queue);
      remaining := left;
      var i := 0;
      while i < n
        invariant 0 <= i <= n
        invariant Execute(View(shelves, queue), ShredVault(c, i, n) + rest, remaining)
                  == Execute(s, ShredVault(c, 0, n) + rest, left)
      {
        assert (ShredVault(c, i, n) + rest)[0] == Shred(Vault(c, i));
        assert (ShredVault(c, i, n) + rest)[1..] == ShredVault(c, i + 1, n) + rest;
        if remaining == 0 {
          return false, remaining;
        }
        shelves.files := shelves.files - {Vault(c, i)};
        remaining := remaining - 1;
        i := i + 1;
      }
      assert ShredVault(c, i, n) + rest == rest;
      ok := true;
    }

    /** The body of the worker's try block; `false` when one of its statements raised. */
    method TryJob(j: nat, c: nat, n: nat, cut: nat) returns (complete: bool)
      requires j < |queue.jobs|
      modifies shelves`files, shelves`insights, queue`jobs
      ensures (View(shelves, queue), complete) == Execute(old(View(shelves, queue)), ProcessWrites(j, c, n), cut)
      ensures |queue.jobs| == |old(queue.jobs)|
    {
      ghost var purge := ShredVault(c, 0, n) + [ClearWork(c), Finish(j)];
      ghost var save := [Save(c)] + purge;
      ghost var run := ShredWork(c, 0, n) + save;
      assert ProcessWrites(j, c, n)[0] == ClearWork(c);
      assert ProcessWrites(j, c, n)[1..] == Stages(c, 0, n) + run;
      assert save[0] == Save(c) && save[1..] == purge;
      if cut == 0 {
        return false;
      }
      shelves.ClearWorkDir(c);
      var ok, left := StageAudio(c, n, cut - 1, run);
      if !ok {
        return false;
      }
      ok, left := RunPipeline(c, n, left, save);
      if !ok || left == 0 {
        return false;
      }
      shelves.insights := shelves.insights + {c};
      ok, left := PurgeVaultAudio(c, n, left - 1, [ClearWork(c), Finish(j)]);
      if !ok {
        return false;
      }
      complete := Conclude(j, c, left);
    }

    method Conclude(j: nat, c: nat, left: nat) returns (complete: bool)
      requires j < |queue.jobs|
      modifies shelves`files, queue`jobs
      ensures (View(shelves, queue), complete) == Execute(old(View(shelves, queue)), [ClearWork(c), Finish(j)], left)
      ensures |queue.jobs| == |old(queue.jobs)|
    {
      assert [ClearWork(c), Finish(j)][1..] == [Finish(j)] && [Finish(j)][1..] == [];
      if left == 0 {
        return false;
      }
      shelves.ClearWorkDir(c);
      assert Execute(View(shelves, queue), [Finish(j)], left - 1)
             == Execute(old(View(shelves, queue)), [ClearWork(c), Finish(j)], left);
      if left == 1 {
        return false;
      }
      queue.SetStatus(j, Done);
      complete := true;
    }

    /** One turn of the worker. */
    method ProcessOne(cut: nat) returns (turn: Turn)
      modifies shelves`files, shelves`insights, queue`jobs
      ensures (View(shelves, queue), turn) == AfterProcess(old(View(shelves, queue)), queue.maxAttempts, cut, false)
    {
      var job := queue.Dequeue();
      if job.None? {
        return Idle;
      }
      var j := job.value;
      var leased := queue.jobs[j];
      var complete := TryJob(j, leased.conversation, leased.parts, cut);
      if complete {
        return Returned(leased.conversation);
      }
      var status := queue.FailJob(j, leased.attempts);
      turn := if status == Dead then Raised(j) else Retried;
    }

    /** A turn after the turns `done` from `start` on. */
    method NextTurn(cut: nat, ghost start: State, ghost done: seq<Step>) returns (turn: Turn)
      requires View(shelves, queue) == Run(start, queue.maxAttempts, done)
      modifies shelves`files, shelves`insights, queue`jobs
      ensures View(shelves, queue) == Run(start, queue.maxAttempts, done + [Process(cut, false)])
      ensures |queue.jobs| == |old(queue.jobs)|
      ensures DoneCount(queue.jobs) == DoneCount(old(queue.jobs)) + if turn.Returned? then 1 else 0
      ensures turn.Idle? ==> FirstPending(queue.jobs) == |queue.jobs|
      ensures !turn.Idle? ==>
                OpenWork(queue.jobs, queue.maxAttempts) < OpenWork(old(queue.jobs), queue.maxAttempts)
      ensures turn.Raised? ==> turn.job < |queue.jobs| && queue.jobs[turn.job].status == Dead
    {
      TurnFacts(View(shelves, queue), queue.maxAttempts, cut);
      OneMoreTurn(start, queue.maxAttempts, done, cut);
      turn := ProcessOne(cut);
    }

    /** Processes until nothing is pending, and returns how many jobs were completed; a job
        that dies raises out of it. It always ends, and is a run of turns. */
    method Drain(world: nat -> nat) returns (n: nat, raised: Option<nat>, ghost turns: seq<Step>)
      modifies shelves`files, shelves`insights, queue`jobs
      ensures AreTurns(turns, world)
      ensures View(shelves, queue) == Run(old(View(shelves, queue)), queue.maxAttempts, turns)
      ensures Inv(old(View(shelves, queue))) ==> Inv(View(shelves, queue))
      ensures raised.None? ==> FirstPending(queue.jobs) == |queue.jobs|
      ensures raised.Some? ==> raised.value < |queue.jobs| && queue.jobs[raised.value].status == Dead
      ensures n == DoneCount(queue.jobs) - DoneCount(old(queue.jobs))
      ensures |queue.jobs| == |old(queue.jobs)|
    {
      ghost var start := View(shelves, queue);
      n, raised, turns := 0, None, [];
      var k := 0;
      while true
        invariant |turns| == k && AreTurns(turns, world)
        invariant View(shelves, queue) == Run(start, queue.maxAttempts, turns)
        invariant n == DoneCount(queue.jobs) - DoneCount(start.jobs)
        invariant |queue.jobs| == |start.jobs|
        decreases OpenWork(queue.jobs, queue.maxAttempts)
      {
        var turn := NextTurn(world(k), start, turns);
        turns := turns + [Process(world(k), false)];
        k := k + 1;
        if turn.Raised? {
          RunKeepsInvIf(start, queue.maxAttempts, turns);
          return n, Some(turn.job), turns;
        }
        if !turn.Returned? && FirstPending(queue.jobs) == |queue.jobs| {
          RunKeepsInvIf(start, queue.maxAttempts, turns);
          return n, None, turns;
        }
        if turn.Returned? {
          n := n + 1;
        }
      }
    }
  }

  /** Turns of a worker that raises but is not killed, turn `k` cut after `world(k)` writes. */
  ghost predicate AreTurns(turns: seq<Step>, world: nat -> nat) {
    forall k :: 0 <= k < |turns| ==> turns[k] == Process(world(k), false)
  }

  lemma OneMoreTurn(s: State, maxAttempts: int, turns: seq<Step>, cut: nat)
    ensures Run(s, maxAttempts, turns + [Process(cut, false)])
            == AfterProcess(Run(s, maxAttempts, turns), maxAttempts, cut, false).0
  {
    RunSplits(s, maxAttempts, turns, [Process(cut, false)]);
    assert [Process(cut, false)][1..] == [];
  }

  lemma RunKeepsInvIf(s: State, maxAttempts: int, steps: seq<Step>)
    ensures Inv(s) ==> Inv(Run(s, maxAttempts, steps))
  {
    if Inv(s) {
      RunKeepsInv(s, maxAttempts, steps);
    }
  }

  /** What a turn that raises rather than dies does to the queue. */
  lemma TurnFacts(s: State, maxAttempts: int, cut: nat)
    ensures var (s', turn) := AfterProcess(s, maxAttempts, cut, false);
            && |s'.jobs| == |s.jobs|
            && DoneCount(s'.jobs) == DoneCount(s.jobs) + (if turn.Returned? then 1 else 0)
            && (turn.Idle? <==> FirstPending(s.jobs) == |s.jobs|) && (turn.Idle? ==> s' == s)
            && (!turn.Idle? ==> OpenWork(s'.jobs, maxAttempts) < OpenWork(s.jobs, maxAttempts))
            && (turn.Raised? ==> turn.job < |s'.jobs| && s'.jobs[turn.job].status == Dead)
  {
    TurnOutcome(s, maxAttempts, cut, false);
    TurnCountsDone(s, maxAttempts, cut, false);
    if FirstPending(s.jobs) < |s.jobs| {
      TurnShrinksWork(s, maxAttempts, cut, false);
    }
  }
}
