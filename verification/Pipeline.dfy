/** Uploads, the job queue, the audio vault and the insight table as one value, and every
    write of submitting and processing. A step may be cut between any two of its writes, by
    an exception or by the death of the process. */
module Pipeline {
  import opened Chunking

  datatype Path = Vault(conversation: nat, part: nat) | Work(conversation: nat, part: nat)

  datatype JobStatus = Pending | Leased | Done | Dead

  datatype Job = Job(conversation: nat, parts: nat, status: JobStatus, attempts: nat)

  /** One submission: its client reference (may be empty) and the chunks of its audio. */
  datatype Upload = Upload(ref: string, chunks: seq<Bytes>)

  datatype State = State(uploads: seq<Upload>, idempotency: map<string, nat>, jobs: seq<Job>,
                         files: map<Path, Bytes>, insights: set<nat>, wiped: set<nat>)

  const Nothing := State([], map[], [], map[], {}, {})

  datatype Write =
    | Put(conversation: nat, part: nat)
    | Remember(ref: string, conversation: nat)
    | Enqueue(conversation: nat)
    | ClearWork(conversation: nat)
    | Stage(conversation: nat, part: nat)
    | Shred(path: Path)
    | Save(conversation: nat)
    | Finish(job: nat)

  /** Staging reads the vault, so it raises when the file is gone. */
  predicate Possible(s: State, w: Write) {
    match w
    case Put(c, i) => c < |s.uploads| && i < |s.uploads[c].chunks|
    case Enqueue(c) => c < |s.uploads|
    case Stage(c, i) => Vault(c, i) in s.files
    case Finish(j) => j < |s.jobs|
    case _ => true
  }

  function Apply(s: State, w: Write): State
    requires Possible(s, w)
  {
    match w
    case Put(c, i) => s.(files := s.files[Vault(c, i) := s.uploads[c].chunks[i]])
    case Remember(ref, c) => s.(idempotency := if ref in s.idempotency then s.idempotency else s.idempotency[ref := c])
    case Enqueue(c) => s.(jobs := s.jobs + [Job(c, |s.uploads[c].chunks|, Pending, 0)])
    case ClearWork(c) => s.(files := map p | p in s.files && !(p.Work? && p.conversation == c) :: s.files[p])
    case Stage(c, i) => s.(files := s.files[Work(c, i) := s.files[Vault(c, i)]])
    case Shred(p) => s.(files := s.files - {p})
    case Save(c) => s.(insights := s.insights + {c})
    case Finish(j) => s.(jobs := s.jobs[j := s.jobs[j].(status := Done)])
  }

  /** Runs the writes until the cut or the first impossible one; tells whether all were made. */
  function Execute(s: State, ws: seq<Write>, cut: nat): (State, bool)
    decreases |ws|
  {
    if ws == [] then (s, true)
    else if cut == 0 || !Possible(s, ws[0]) then (s, false)
    else Execute(Apply(s, ws[0]), ws[1..], cut - 1)
  }

  /* ----- submitting ----- */

  function Puts(c: nat, i: nat, n: nat): seq<Write>
    decreases n - i
  {
    if i >= n then [] else [Put(c, i)] + Puts(c, i + 1, n)
  }

  function SubmitWrites(c: nat, u: Upload): seq<Write> {
    Puts(c, 0, |u.chunks|) + (if u.ref != "" then [Remember(u.ref, c)] else []) + [Enqueue(c)]
  }

  /** A known client reference is answered with the conversation it named before. */
  predicate Known(s: State, ref: string) {
    ref != "" && ref in s.idempotency
  }

  /** Draws a conversation id, then writes. */
  function AfterSubmit(s: State, u: Upload, cut: nat): State {
    if Known(s, u.ref) then s
    else Execute(s.(uploads := s.uploads + [u]), SubmitWrites(|s.uploads|, u), cut).0
  }

  /* ----- processing ----- */

  function Stages(c: nat, i: nat, n: nat): seq<Write>
    decreases n - i
  {
    if i >= n then [] else [Stage(c, i)] + Stages(c, i + 1, n)
  }

  function ShredWork(c: nat, i: nat, n: nat): seq<Write>
    decreases n - i
  {
    if i >= n then [] else [Shred(Work(c, i))] + ShredWork(c, i + 1, n)
  }

  function ShredVault(c: nat, i: nat, n: nat): seq<Write>
    decreases n - i
  {
    if i >= n then [] else [Shred(Vault(c, i))] + ShredVault(c, i + 1, n)
  }

  /** Stage copies, shred the copies inside the pipeline, commit the insight, purge the
      vault, finish the job. */
  function ProcessWrites(job: nat, c: nat, n: nat): seq<Write> {
    [ClearWork(c)] + (Stages(c, 0, n) + (ShredWork(c, 0, n)
      + ([Save(c)] + (ShredVault(c, 0, n) + [ClearWork(c), Finish(job)]))))
  }

  function FirstPending(jobs: seq<Job>): (j: nat)
    ensures j <= |jobs|
    ensures j < |jobs| ==> jobs[j].status == Pending
    ensures forall k :: 0 <= k < j ==> jobs[k].status != Pending
  {
    if jobs == [] then 0
    else if jobs[0].status == Pending then 0
    else FirstPending(jobs[1..]) + 1
  }

  function Lease(s: State, j: nat): State
    requires j < |s.jobs|
  {
    s.(jobs := s.jobs[j := s.jobs[j].(status := Leased, attempts := s.jobs[j].attempts + 1)])
  }

  function FailStatus(attempts: nat, maxAttempts: int): JobStatus {
    if attempts < maxAttempts then Pending else Dead
  }

  function Fail(s: State, j: nat, attempts: nat, maxAttempts: int): State
    requires j < |s.jobs|
  {
    s.(jobs := s.jobs[j := s.jobs[j].(status := FailStatus(attempts, maxAttempts))])
  }

  /** How one turn of the worker ended. */
  datatype Turn = Idle | Returned(conversation: nat) | Retried | Raised(job: nat) | Killed

  /** One turn: lease the oldest pending job and process it; `cut` says how many writes it
      gets to make, `killed` whether the process dies there instead of raising. */
  function AfterProcess(s: State, maxAttempts: int, cut: nat, killed: bool): (State, Turn) {
    var j := FirstPending(s.jobs);
    if j == |s.jobs| then (s, Idle)
    else
      var leased := Lease(s, j);
      var job := leased.jobs[j];
      var (after, complete) := Execute(leased, ProcessWrites(j, job.conversation, job.parts), cut);
      if complete then (after, Returned(job.conversation))
      else if killed || j >= |after.jobs| then (after, Killed)
      else (Fail(after, j, job.attempts, maxAttempts),
            if FailStatus(job.attempts, maxAttempts) == Dead then Raised(j) else Retried)
  }

  /** The newest dead job of a conversation, or the length of the table. */
  function LatestDead(jobs: seq<Job>, c: nat): (j: nat)
    ensures j <= |jobs|
    ensures j < |jobs| ==> jobs[j].status == Dead && jobs[j].conversation == c
    ensures forall k :: 0 <= k < |jobs| && (j == |jobs| || k > j) ==> jobs[k].status != Dead || jobs[k].conversation != c
  {
    LatestDeadBelow(jobs, c, |jobs|)
  }

  function LatestDeadBelow(jobs: seq<Job>, c: nat, n: nat): (j: nat)
    requires n <= |jobs|
    ensures j <= |jobs| && (j < |jobs| ==> j < n && jobs[j].status == Dead && jobs[j].conversation == c)
    ensures forall k :: 0 <= k < n && (j == |jobs| || k > j) ==> jobs[k].status != Dead || jobs[k].conversation != c
  {
    if n == 0 then |jobs|
    else if jobs[n - 1].status == Dead && jobs[n - 1].conversation == c then n - 1
    else LatestDeadBelow(jobs, c, n - 1)
  }

  function AfterRequeue(s: State, c: nat): State {
    var j := LatestDead(s.jobs, c);
    if j < |s.jobs| then s.(jobs := s.jobs[j := s.jobs[j].(status := Pending, attempts := 0)]) else s
  }

  datatype Step =
    | Submit(upload: Upload, cut: nat)
    | Process(cut: nat, killed: bool)
    | Requeue(conversation: nat)
    | DeleteOnDemand(conversation: nat)

  function Do(s: State, maxAttempts: int, step: Step): State {
    match step
    case Submit(u, cut) => AfterSubmit(s, u, cut)
    case Process(cut, killed) => AfterProcess(s, maxAttempts, cut, killed).0
    case Requeue(c) => AfterRequeue(s, c)
    case DeleteOnDemand(c) =>
      s.(insights := s.insights - {c}, wiped := if c in s.insights then s.wiped + {c} else s.wiped)
  }

  function Run(s: State, maxAttempts: int, steps: seq<Step>): State
    decreases |steps|
  {
    if steps == [] then s else Run(Do(s, maxAttempts, steps[0]), maxAttempts, steps[1..])
  }

  /** A run may be cut anywhere. */
  lemma {:induction false} RunSplits(s: State, maxAttempts: int, a: seq<Step>, b: seq<Step>)
    ensures Run(s, maxAttempts, a + b) == Run(Run(s, maxAttempts, a), maxAttempts, b)
    decreases |a|
  {
    if a == [] {
      assert a + b == b;
    } else {
      assert (a + b)[0] == a[0] && (a + b)[1..] == a[1..] + b;
      RunSplits(Do(s, maxAttempts, a[0]), maxAttempts, a[1..], b);
    }
  }
}
