/** Conversation stages only climb, and past-deadline audio is destroyed. */
module Erasure {
  import opened Basics
  import opened Sorting
  import opened Lifecycle
  import opened Gate

  function Rank(s: Stage): nat {
    match s
    case ConsentLogged => 0
    case AudioUploaded => 1
    case Transcribing => 2
    case Extracting => 3
    case Dispatching => 4
    case Purged => 5
    case ErrorPurged => 5
  }

  /** The transition table: stay, climb one rung, or fall out to `ErrorPurged` from any rung. */
  lemma TableIsALadder(from: Stage, to: Stage)
    ensures Allowed(from, to) <==>
              || from == to
              || (Rank(from) < 5 && (to == ErrorPurged || (to != ErrorPurged && Rank(to) == Rank(from) + 1)))
  {
  }

  /** Every step moves every conversation along the transition table. */
  lemma StepClimbs(s: State, step: Step)
    requires Enabled(s, step)
    ensures var s' := Do(s, step);
            && |s'.convs| >= |s.convs|
            && forall c :: 0 <= c < |s.convs| ==> Allowed(s.convs[c].stage, s'.convs[c].stage)
  {
    if step.Open? && CanMove(s, step.conversation, Dispatching) {
      InsertsKeepThreshold(Move(s, step.conversation, Dispatching), step.conversation,
                           Channels[..step.writes], step.at);
    }
  }

  function StageChanges(s: State, steps: seq<Step>, c: nat): nat
    requires Legal(s, steps)
    decreases |steps|
  {
    if steps == [] then 0 else
      var s' := Do(s, steps[0]);
      (if c < |s.convs| && c < |s'.convs| && s'.convs[c].stage != s.convs[c].stage then 1 else 0)
      + StageChanges(s', steps[1..], c)
  }

  /** A conversation changes stage at most five times in its life, and never once terminal. */
  lemma {:induction false} AtMostFiveChanges(s: State, steps: seq<Step>, c: nat)
    requires Legal(s, steps) && c < |s.convs|
    ensures c < |Run(s, steps).convs|
    ensures StageChanges(s, steps, c) <= Rank(Run(s, steps).convs[c].stage) - Rank(s.convs[c].stage) <= 5
    ensures Terminal(s.convs[c].stage) ==> Run(s, steps).convs[c].stage == s.convs[c].stage
    decreases |steps|
  {
    if steps != [] {
      var s' := Do(s, steps[0]);
      StepClimbs(s, steps[0]);
      AtMostFiveChanges(s', steps[1..], c);
    }
  }

  /* ----- terminal means erased ----- */

  ghost predicate ConvErased(s: State, c: nat)
    requires c < |s.convs|
  {
    && (Terminal(s.convs[c].stage) <==> s.convs[c].erasedAt.Some?)
    && (Terminal(s.convs[c].stage) ==> c !in s.audio)
  }

  ghost predicate ErasedInv(s: State) {
    (forall c :: c in s.audio ==> c < |s.convs|) && forall c :: 0 <= c < |s.convs| ==> ConvErased(s, c)
  }

  /** An orphan sweep whose delete went through, or that had nothing to delete. */
  predicate SweptClean(s: State, step: Step) {
    step.Sweep? ==> step.deleted || step.conversation !in s.audio
  }

  lemma StepKeepsErased(s: State, step: Step)
    requires ErasedInv(s) && Enabled(s, step) && SweptClean(s, step)
    ensures ErasedInv(Do(s, step))
  {
    var s' := Do(s, step);
    if step.Open? && CanMove(s, step.conversation, Dispatching) {
      InsertsKeepThreshold(Move(s, step.conversation, Dispatching), step.conversation,
                           Channels[..step.writes], step.at);
    }
    forall c | 0 <= c < |s'.convs| ensures ConvErased(s', c) {
      if c < |s.convs| { assert ConvErased(s, c); }
    }
  }

  ghost predicate AllSweptClean(s: State, steps: seq<Step>)
    requires Legal(s, steps)
    decreases |steps|
  {
    steps == [] || (SweptClean(s, steps[0]) && AllSweptClean(Do(s, steps[0]), steps[1..]))
  }

  /** In every run whose sweeps deleted what they had to, a terminal conversation has no
      audio left, whatever else failed. */
  lemma {:induction false} TerminalMeansErased(s: State, steps: seq<Step>)
    requires ErasedInv(s) && Legal(s, steps) && AllSweptClean(s, steps)
    ensures ErasedInv(Run(s, steps))
    decreases |steps|
  {
    if steps != [] {
      StepKeepsErased(s, steps[0]);
      TerminalMeansErased(Do(s, steps[0]), steps[1..]);
    }
  }

  /** The orphan sweep breaks this exactly when its delete fails on audio that is there. */
  lemma SweepErasesIffDeleted(s: State, c: nat, now: int, deleted: bool)
    requires ErasedInv(s) && Enabled(s, Sweep(c, now, deleted))
    ensures ErasedInv(Do(s, Sweep(c, now, deleted))) <==> (deleted || c !in s.audio)
  {
    var s' := Do(s, Sweep(c, now, deleted));
    if deleted || c !in s.audio {
      StepKeepsErased(s, Sweep(c, now, deleted));
    } else {
      assert !ConvErased(s', c);
    }
  }

  /* ----- every conversation is in an open file ----- */

  predicate HasFile(s: State, c: nat) {
    FileOf(s, c) < |s.files|
  }

  lemma PlaceInPrefix(a: seq<string>, b: seq<string>, tenant: string)
    requires a <= b
    ensures Place(a, tenant) < |a| ==> Place(b, tenant) == Place(a, tenant)
    ensures Place(a, tenant) == |a| ==> Place(b, tenant) >= |a|
  {
    PlaceFinds(a, tenant);
    PlaceFinds(b, tenant);
  }

  /** A step may open a file, and an ingest adds a conversation in an open one. */
  lemma StepOnTenants(s: State, step: Step)
    requires Enabled(s, step)
    ensures var s' := Do(s, step);
            && s.files <= s'.files && |s'.convs| >= |s.convs|
            && (forall c :: 0 <= c < |s.convs| ==> s'.convs[c].tenant == s.convs[c].tenant)
            && (forall c :: |s.convs| <= c < |s'.convs| ==>
                  step.Ingest? && s'.convs[c].tenant == step.tenant && step.tenant in s'.files)
  {
    if step.Open? && CanMove(s, step.conversation, Dispatching) {
      InsertsKeepThreshold(Move(s, step.conversation, Dispatching), step.conversation,
                           Channels[..step.writes], step.at);
    }
  }

  /** Files are only ever added behind those that are open, and conversations keep theirs. */
  lemma StepOnFiles(s: State, step: Step)
    requires Enabled(s, step)
    ensures var s' := Do(s, step);
            && s.files <= s'.files && |s'.convs| >= |s.convs|
            && (forall c: nat :: c < |s.convs| ==>
                  && s'.convs[c].tenant == s.convs[c].tenant
                  && (HasFile(s, c) ==> FileOf(s', c) == FileOf(s, c))
                  && (!HasFile(s, c) ==> FileOf(s', c) >= |s.files|))
            && (forall c: nat :: |s.convs| <= c < |s'.convs| ==>
                  step.Ingest? && s'.convs[c].tenant == step.tenant && HasFile(s', c))
  {
    StepOnTenants(s, step);
    FilesGrow(s, Do(s, step));
    var s' := Do(s, step);
    forall c: nat | |s.convs| <= c < |s'.convs| ensures HasFile(s', c) {
      PlaceFinds(s'.files, s'.convs[c].tenant);
    }
  }

  lemma FilesGrow(s: State, s': State)
    requires s.files <= s'.files && |s'.convs| >= |s.convs|
    requires forall c :: 0 <= c < |s.convs| ==> s'.convs[c].tenant == s.convs[c].tenant
    ensures forall c: nat :: c < |s.convs| ==>
              && (HasFile(s, c) ==> FileOf(s', c) == FileOf(s, c))
              && (!HasFile(s, c) ==> FileOf(s', c) >= |s.files|)
  {
    forall c: nat | c < |s.convs|
      ensures HasFile(s, c) ==> FileOf(s', c) == FileOf(s, c)
      ensures !HasFile(s, c) ==> FileOf(s', c) >= |s.files|
    {
      PlaceInPrefix(s.files, s'.files, s.convs[c].tenant);
    }
  }

  lemma {:induction false} FilesStayOpen(s: State, steps: seq<Step>, c: nat)
    requires Legal(s, steps) && forall d: nat :: d < |s.convs| ==> HasFile(s, d)
    requires c < |Run(s, steps).convs|
    ensures HasFile(Run(s, steps), c)
    decreases |steps|
  {
    if steps != [] {
      StepOnFiles(s, steps[0]);
      FilesStayOpen(Do(s, steps[0]), steps[1..], c);
    }
  }

  /** In every run the file of every conversation is open. */
  lemma EveryConversationHasAFile(threshold: real, steps: seq<Step>, c: nat)
    requires Legal(Start(threshold), steps) && c < |Run(Start(threshold), steps).convs|
    ensures HasFile(Run(Start(threshold), steps), c)
  {
    FilesStayOpen(Start(threshold), steps, c);
  }

  /* ----- erasure passes ----- */

  /** In a file opened earlier; or in the same file with an earlier deadline, or the same and
      inserted earlier. */
  predicate Precedes(s: State, d: nat, c: nat) {
    || FileOf(s, d) < FileOf(s, c)
    || (FileOf(s, d) == FileOf(s, c)
        && (EraseAfter(s, d) < EraseAfter(s, c) || (EraseAfter(s, d) == EraseAfter(s, c) && d < c)))
  }

  /** All due conversations, file after file. */
  function InOrder(s: State, now: int): seq<nat> {
    Concat(|s.files|, DueErasureFiles(s, now))
  }

  lemma FileInOrder(s: State, f: nat, now: int)
    ensures var due := DueErasuresIn(s, f, now);
            && (forall d :: d in due <==> FileOf(s, d) == f && Erasable(s, d, now))
            && Ordered(due, (a: nat, b: nat) => Precedes(s, a, b))
  {
    var le := (a: nat, b: nat) => EraseAfter(s, a) <= EraseAfter(s, b);
    var rows := Where(|s.convs|, (c: nat) => FileOf(s, c) == f && Erasable(s, c, now));
    SortKeepsElements(rows, le);
    SortBreaksTies(rows, le);
    var due := DueErasuresIn(s, f, now);
    forall i, j | 0 <= i < j < |due| ensures Precedes(s, due[i], due[j]) {
      assert Ahead(due[i], due[j], le) && due[i] in due && due[j] in due;
    }
  }

  lemma AllAreInOrder(s: State, now: int, d: nat)
    ensures d in InOrder(s, now) <==> Erasable(s, d, now) && HasFile(s, d)
  {
    var part := DueErasureFiles(s, now);
    ConcatHas(|s.files|, part, d);
    FileInOrder(s, FileOf(s, d), now);
    assert Erasable(s, d, now) ==> d in part(FileOf(s, d));
    if f: nat :| f < |s.files| && d in part(f) {
      FileInOrder(s, f, now);
    }
  }

  lemma InOrderIsOrdered(s: State, now: int)
    ensures var all := InOrder(s, now);
            && Distinct(all) && (forall d :: d in all <==> Erasable(s, d, now) && HasFile(s, d))
            && Ordered(all, (a: nat, b: nat) => Precedes(s, a, b))
  {
    var before := (a: nat, b: nat) => Precedes(s, a, b);
    forall f: nat ensures Ordered(DueErasuresIn(s, f, now), before)
      ensures forall d :: d in DueErasuresIn(s, f, now) <==> FileOf(s, d) == f && Erasable(s, d, now)
    {
      FileInOrder(s, f, now);
    }
    ConcatOrders(|s.files|, DueErasureFiles(s, now), before);
    var all := InOrder(s, now);
    forall d: nat ensures d in all <==> Erasable(s, d, now) && HasFile(s, d) {
      AllAreInOrder(s, now, d);
    }
    forall i, j | 0 <= i < j < |all| ensures all[i] != all[j] {
      assert before(all[i], all[j]);
    }
  }

  /** Cutting each file's list as well makes no difference to the batch. */
  lemma BatchIsFront(s: State, now: int, limit: nat)
    ensures ErasureBatch(s, now, limit) == Limit(InOrder(s, now), limit)
  {
    CutPartsCutWhole(|s.files|, DueErasureFiles(s, now), CutErasureFiles(s, now, limit), limit);
  }

  /** What one pass does to a conversation of its batch whose delete went through. */
  function Erased(conv: Conversation, now: int): Conversation {
    conv.(stage := if conv.stage == Dispatching then Purged else ErrorPurged, erasedAt := Some(now))
  }

  lemma {:induction false} ErasuresRun(s: State, batch: seq<nat>, now: int, world: nat -> bool)
    requires Distinct(batch) && forall c :: c in batch ==> Erasable(s, c, now)
    ensures Legal(s, Erasures(batch, now, world))
    ensures var s' := Run(s, Erasures(batch, now, world));
            && |s'.convs| == |s.convs|
            && (forall c :: 0 <= c < |s.convs| ==>
                  s'.convs[c] == if c in batch && world(c) then Erased(s.convs[c], now) else s.convs[c])
            && (forall c: nat :: c in s'.audio <==> c in s.audio && !(c in batch && world(c)))
            && s'.outbox == s.outbox && s'.dlq == s.dlq && s'.log == s.log && s'.bus == s.bus
            && s'.threshold == s.threshold && s'.files == s.files
    decreases |batch|
  {
    var steps := Erasures(batch, now, world);
    if batch != [] {
      var c0 := batch[0];
      assert c0 in batch;
      var s1 := Do(s, steps[0]);
      forall c | c in batch[1..] ensures Erasable(s1, c, now) {
        var k :| 0 <= k < |batch[1..]| && batch[1..][k] == c;
        assert batch[k + 1] == c && c in batch;
      }
      assert steps[1..] == Erasures(batch[1..], now, world);
      ErasuresRun(s1, batch[1..], now, world);
      assert forall c :: c in batch <==> c == c0 || c in batch[1..];
      forall k | 0 <= k < |batch[1..]| ensures batch[1..][k] != c0 {
        assert batch[k + 1] != batch[0];
      }
    }
  }

  /** How many deletes of a batch go through. */
  function Deletes(batch: seq<nat>, world: nat -> bool): nat {
    if batch == [] then 0
    else Deletes(batch[..|batch| - 1], world) + if world(batch[|batch| - 1]) then 1 else 0
  }

  function ErasePass(s: State, now: int, limit: nat, world: nat -> bool): seq<Step> {
    Erasures(ErasureBatch(s, now, limit), now, world)
  }

  /** The batch is erasable conversations, each once, as many as there are or fit; and none is
      passed over for one of a file opened later, or one of the same file with a later deadline. */
  lemma BatchIsErasable(s: State, now: int, limit: nat)
    ensures var batch := ErasureBatch(s, now, limit);
            && Distinct(batch) && |batch| <= limit
            && (forall c :: c in batch ==> Erasable(s, c, now) && HasFile(s, c))
            && (forall c :: Erasable(s, c, now) && HasFile(s, c) && c !in batch ==>
                  |batch| == limit && forall k :: 0 <= k < limit ==> Precedes(s, batch[k], c))
  {
    var all, batch := InOrder(s, now), ErasureBatch(s, now, limit);
    BatchIsFront(s, now, limit);
    InOrderIsOrdered(s, now);
    forall c | c in batch ensures Erasable(s, c, now) && HasFile(s, c) {
      assert c in all;
    }
    forall c | Erasable(s, c, now) && HasFile(s, c) && c !in batch
      ensures |batch| == limit && forall k :: 0 <= k < limit ==> Precedes(s, batch[k], c)
    {
      LimitTakesFirst(all, (a: nat, b: nat) => Precedes(s, a, b), limit, c);
    }
  }

  /** What is due at `now` in the files opened before file `f`, and what was due in that file at
      `since`: a front part of the order. */
  function Backlog(s: State, f: nat, since: int, now: int): seq<nat> {
    Where(|s.convs|, (c: nat) => Erasable(s, c, if FileOf(s, c) == f then since else now) && FileOf(s, c) <= f)
  }

  /** A pass at `now` works off such a backlog first: `limit` of it are gone, or all. */
  lemma PassWorksOffTheBacklog(s: State, f: nat, since: int, now: int, limit: nat)
    requires since <= now && f < |s.files|
    ensures Legal(s, ErasePass(s, now, limit, _ => true))
    ensures var s' := Run(s, ErasePass(s, now, limit, _ => true));
            var was, left := |Backlog(s, f, since, now)|, |Backlog(s', f, since, now)|;
            left + limit <= if was <= limit then limit else was
  {
    var batch := ErasureBatch(s, now, limit);
    BatchIsErasable(s, now, limit);
    ErasuresRun(s, batch, now, _ => true);
    TakesTheFront(s, f, since, now, limit);
    var s' := Run(s, ErasePass(s, now, limit, _ => true));
    forall c: nat ensures c in Backlog(s', f, since, now) <==> c in Backlog(s, f, since, now) && c !in batch {
      assert c < |s.convs| ==> FileOf(s', c) == FileOf(s, c);
    }
    ShrinkBy(Backlog(s, f, since, now), batch, Backlog(s', f, since, now), limit);
  }

  /** A full batch of the backlog, or all of it. */
  lemma TakesTheFront(s: State, f: nat, since: int, now: int, limit: nat)
    requires since <= now && f < |s.files|
    ensures var was, batch := Backlog(s, f, since, now), ErasureBatch(s, now, limit);
            || (forall c :: c in was ==> c in batch)
            || (|batch| == limit && forall c :: c in batch ==> c in was)
  {
    var was, batch := Backlog(s, f, since, now), ErasureBatch(s, now, limit);
    BatchIsErasable(s, now, limit);
    if c :| c in was && c !in batch {
      forall x | x in batch ensures x in was {
        var k :| 0 <= k < |batch| && batch[k] == x;
        assert Precedes(s, x, c);
      }
    }
  }

  lemma ShrinkBy(was: seq<nat>, batch: seq<nat>, left: seq<nat>, limit: nat)
    requires Distinct(was) && Distinct(batch) && Distinct(left)
    requires forall c :: c in left <==> c in was && c !in batch
    requires || (forall c :: c in was ==> c in batch)
             || (|batch| == limit && forall c :: c in batch ==> c in was)
    ensures |left| + limit <= if |was| <= limit then limit else |was|
  {
    if forall c :: c in was ==> c in batch {
      DistinctSize(left);
      assert Elements(left) == {};
    } else {
      RemovalSize(was, batch, left);
    }
  }

  lemma RemovalSize(was: seq<nat>, gone: seq<nat>, left: seq<nat>)
    requires Distinct(was) && Distinct(gone) && Distinct(left)
    requires forall c :: c in gone ==> c in was
    requires forall c :: c in left <==> c in was && c !in gone
    ensures |left| == |was| - |gone|
  {
    DistinctSize(was);
    DistinctSize(gone);
    DistinctSize(left);
    assert Elements(left) == Elements(was) - Elements(gone);
    assert Elements(gone) <= Elements(was);
  }

  /** A delete that fails leaves its conversation as it was, to be tried again; when every
      delete of a pass fails the pass changes nothing. */
  lemma FailedDeletesChangeNothing(s: State, now: int, limit: nat, world: nat -> bool)
    requires forall c :: c in ErasureBatch(s, now, limit) ==> !world(c)
    ensures Legal(s, ErasePass(s, now, limit, world))
    ensures Run(s, ErasePass(s, now, limit, world)) == s
  {
    BatchIsErasable(s, now, limit);
    ErasuresRun(s, ErasureBatch(s, now, limit), now, world);
    var s' := Run(s, ErasePass(s, now, limit, world));
    assert s'.convs == s.convs && s'.audio == s.audio;
  }
}
