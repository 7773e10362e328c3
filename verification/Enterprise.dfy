/** The enterprise store and its workers as objects. Each handler is proved to perform the
    steps of `Lifecycle` it stands for, so what holds in every run of steps holds of them. */
module Enterprise {
  import opened Basics
  import opened Sorting
  import opened Lifecycle
  import opened Erasure
  import opened Release
  import HashChain

  /** The tenants' files in the order they were opened, conversations, routing outbox and dead
      letters, together with what the in-process bus has produced, the audio objects stored, and
      the history of sends and checks. */
  class LocalStore {
    const threshold: real
    var files: seq<string>
    var convs: seq<Conversation>
    var outbox: map<Slot, Row>
    var dlq: seq<DeadRow>
    var bus: set<(Topic, nat)>
    var audio: set<nat>
    var log: seq<Entry>

    constructor (threshold: real)
      ensures View() == Start(threshold)
    {
      this.threshold := threshold;
      files, convs, outbox, dlq, bus, audio, log := [], [], map[], [], {}, {}, [];
    }

    function View(): State
      reads this
    {
      State(threshold, files, convs, audio, outbox, dlq, bus, log)
    }

    /** Opens the tenant's file unless it is open. */
    method OpenFile(tenant: string)
      modifies this`files
      ensures View() == Do(old(View()), Provision(tenant))
      ensures files == if tenant in old(files) then old(files) else old(files) + [tenant]
    {
      if tenant !in files {
        files := files + [tenant];
      }
    }

    /** Past the deadline, with no stamp and in no final state. */
    predicate IsDue(c: nat, now: int)
      reads this
    {
      && c < |convs| && convs[c].eraseAfter <= now && convs[c].erasedAt == None
      && convs[c].stage != Purged && convs[c].stage != ErrorPurged
    }

    /** Asks each file for its first due conversations, in the order the files were opened. */
    method DueConversations(now: int, limit: nat) returns (due: seq<nat>)
      ensures due == ErasureBatch(View(), now, limit)
      ensures forall c :: c in due ==> IsDue(c, now)
      ensures forall c: nat :: c < |convs| && IsDue(c, now) && HasFile(View(), c) && c !in due ==>
                |due| == limit && forall k :: 0 <= k < limit ==> Precedes(View(), due[k], c)
    {
      BatchIsErasable(View(), now, limit);
      due := [];
      for f := 0 to |files|
        invariant due == Concat(f, CutErasureFiles(View(), now, limit))
      {
        due := due + Limit(DueErasuresIn(View(), f, now), limit);
      }
      due := Limit(due, limit);
    }

    /** Pending or failed, and its time has come. */
    predicate IsWaiting(x: Slot, now: int)
      reads this
    {
      && x.0 < |convs| && x in outbox && outbox[x].retryAt <= now
      && (outbox[x].status == Pending || outbox[x].status == Failed)
    }

    /** Likewise the due routing rows. */
    method DueRouting(now: int, limit: nat) returns (due: seq<Slot>)
      ensures due == RoutingBatch(View(), now, limit)
      ensures forall x :: x in due ==> IsWaiting(x, now)
      ensures forall x :: IsWaiting(x, now) && HasFile(View(), x.0) && x !in due ==>
                |due| == limit && forall k :: 0 <= k < limit ==> SlotBefore(View(), due[k], x)
    {
      DueIsReady(View(), now, limit);
      due := [];
      for f := 0 to |files|
        invariant due == Concat(f, CutSlotFiles(View(), now, limit))
      {
        due := due + Limit(DueSlotsIn(View(), f, now), limit);
      }
      due := Limit(due, limit);
    }

    /** Moves the conversation, or refuses an illegal transition and changes nothing. */
    method SetState(c: nat, to: Stage) returns (ok: bool)
      requires c < |convs|
      modifies this`convs
      ensures ok == Allowed(old(convs)[c].stage, to)
      ensures convs == if ok then old(convs)[c := old(convs)[c].(stage := to)] else old(convs)
    {
      ok := Allowed(convs[c].stage, to);
      if ok {
        convs := convs[c := convs[c].(stage := to)];
      }
    }

    method StampErased(c: nat, at: int)
      requires c < |convs|
      modifies this`convs
      ensures convs == old(convs)[c := old(convs)[c].(erasedAt := Some(at))]
    {
      convs := convs[c := convs[c].(erasedAt := Some(at))];
    }

    method SaveExtraction(c: nat, extraction: Extraction, needsVerification: bool)
      requires c < |convs|
      modifies this`convs, this`log
      ensures convs == old(convs)[c := old(convs)[c].(extraction := Some(extraction),
                                                      needsVerification := needsVerification)]
      ensures log == old(log) + [Stored(c, extraction)]
    {
      convs := convs[c := convs[c].(extraction := Some(extraction), needsVerification := needsVerification)];
      log := log + [Stored(c, extraction)];
    }

    method InsertRouting(c: nat, channel: Channel, row: Row)
      modifies this`outbox, this`log
      ensures (c, channel) in old(outbox) ==> outbox == old(outbox) && log == old(log)
      ensures (c, channel) !in old(outbox) ==>
                outbox == old(outbox)[(c, channel) := row] && log == old(log) + [Inserted(c, channel, row.key)]
    {
      if (c, channel) !in outbox {
        outbox := outbox[(c, channel) := row];
        log := log + [Inserted(c, channel, row.key)];
      }
    }

    method MoveToDlq(slot: Slot, attempts: nat)
      requires slot in outbox
      modifies this`outbox, this`dlq, this`log
      ensures outbox == old(outbox) - {slot}
      ensures dlq == old(dlq) + [DeadRow(slot.0, slot.1, attempts, old(outbox)[slot].key, old(outbox)[slot].payload)]
      ensures log == old(log) + [DeadLettered(slot.0, slot.1)]
    {
      var current := outbox[slot];
      dlq := dlq + [DeadRow(slot.0, slot.1, attempts, current.key, current.payload)];
      outbox := outbox - {slot};
      log := log + [DeadLettered(slot.0, slot.1)];
    }
  }

  datatype Ingested = NoConsent | UploadFailed | Uploaded(conversation: nat)

  /** Records consent first, then creates the row before the upload, and advances it only when
      the upload succeeded. */
  class Ingestion {
    const store: LocalStore
    const consents: HashChain.ConsentLedger

    constructor (store: LocalStore, consents: HashChain.ConsentLedger)
      ensures this.store == store && this.consents == consents
    {
      this.store, this.consents := store, consents;
    }

    method IngestAudio(tenant: string, agent: string, recording: bool, language: string, fields: seq<string>,
                       capturedAt: int, eraseAfter: int, putOk: bool)
      returns (r: Ingested)
      modifies store, consents
      ensures r.NoConsent? <==> !recording || language == ""
      ensures r.NoConsent? ==> store.View() == old(store.View()) && consents.rows == old(consents.rows)
      ensures !r.NoConsent? ==>
                && consents.rows == old(consents.rows)
                                    + [HashChain.Recorded(consents.hash, old(consents.rows), fields, capturedAt)]
                && store.View() == Do(old(store.View()), Ingest(tenant, agent, eraseAfter, putOk))
                && r == (if putOk then Uploaded(old(|store.convs|)) else UploadFailed)
                && var id, stage := old(|store.convs|), if putOk then AudioUploaded else ConsentLogged;
                   && store.convs == old(store.convs)
                                     + [Conversation(tenant, agent, stage, None, false, None, eraseAfter, None)]
                   && store.audio == old(store.audio) + (if putOk then {id} else {})
                   && store.bus == old(store.bus) + if putOk then {(RawUploaded, id)} else {}
    {
      var entry := consents.Record(recording, language, fields, capturedAt);
      if entry.None? {
        return NoConsent;
      }
      store.OpenFile(tenant);
      var id := |store.convs|;
      store.convs := store.convs + [Conversation(tenant, agent, ConsentLogged, None, false, None, eraseAfter, None)];
      if !putOk {
        return UploadFailed;
      }
      store.audio := store.audio + {id};
      var moved := store.SetState(id, AudioUploaded);
      store.bus := store.bus + {(RawUploaded, id)};
      r := Uploaded(id);
    }
  }

  /** The extraction worker; `result` is what the model call returned, if it returned. */
  class Extractor {
    const store: LocalStore

    constructor (store: LocalStore) ensures this.store == store { this.store := store; }

    method Handle(c: nat, result: Option<Extraction>)
      modifies store
      ensures store.View() == if c < old(|store.convs|) then AfterExtract(old(store.View()), c, result)
                              else old(store.View())
      ensures c < old(|store.convs|) && old(store.convs)[c].stage in {Transcribing, Extracting} && result.Some? ==>
                && store.convs == old(store.convs)[c := old(store.convs)[c].(
                     stage := Extracting, extraction := result,
                     needsVerification := result.value.emi != [] || result.value.confidence < store.threshold)]
                && store.log == old(store.log) + [Stored(c, result.value)] && (InsightExtracted, c) in store.bus
      ensures c < old(|store.convs|) && old(store.convs)[c].stage in {Transcribing, Extracting} && result.None? ==>
                && store.convs == old(store.convs)[c := old(store.convs)[c].(stage := Extracting)]
                && store.log == old(store.log) && store.bus == old(store.bus)
      ensures c < old(|store.convs|) && old(store.convs)[c].stage !in {Transcribing, Extracting} ==>
                store.View() == old(store.View())
    {
      if c >= |store.convs| {
        return;
      }
      var ok := store.SetState(c, Extracting);
      if !ok {
        return;
      }
      if result.Some? {
        var requiresVerification := result.value.emi != [] || result.value.confidence < store.threshold;
        store.SaveExtraction(c, result.value, requiresVerification);
        store.bus := store.bus + {(InsightExtracted, c)};
      }
    }
  }

  class RoutingDispatcher {
    const store: LocalStore

    constructor (store: LocalStore) ensures this.store == store { this.store := store; }

    /** The dispatch event: advance, write one row a channel, deliver what is ready. */
    method Handle(c: nat, at: int, world: nat -> Answer)
      requires (InsightExtracted, c) in store.bus
      modifies store
      ensures c >= old(|store.convs|) ==> store.View() == old(store.View())
      ensures c < old(|store.convs|) ==>
                var s := old(store.View());
                var steps := HandleSteps(s, c, at, world);
                Legal(s, steps) && store.View() == Run(s, steps)
    {
      ghost var s := store.View();
      if c >= |store.convs| {
        return;
      }
      var conv := store.convs[c];
      var ok := store.SetState(c, Dispatching);
      if !ok {
        assert HandleSteps(s, c, at, world) == [];
        return;
      }
      InsertChannel(c, Zoho, conv, at);
      InsertChannel(c, WhatsApp, conv, at);
      InsertChannel(c, Push, conv, at);
      OpenIsThreeInserts(s, c, at);
      ghost var after := store.View();
      assert after == Do(s, Open(c, at, |Channels|));
      DeliverReady(c, world);
      RunSplits(s, [Open(c, at, |Channels|)], Sends(PendingOf(after, c), world));
    }

    method InsertChannel(c: nat, channel: Channel, conv: Conversation, at: int)
      requires c < |store.convs| && conv.agent == store.convs[c].agent
      requires conv.extraction == store.convs[c].extraction
      requires conv.needsVerification == store.convs[c].needsVerification
      modifies store`outbox, store`log
      ensures store.View() == InsertRow(old(store.View()), c, channel, at)
    {
      var payload := BuildPayload(c, conv, channel);
      var held := channel == WhatsApp && conv.needsVerification;
      store.InsertRouting(c, channel, Row(if held then Held else Pending, 0, Key(c, channel, payload), payload, at));
    }

    method DeliverReady(c: nat, world: nat -> Answer)
      modifies store
      ensures var s := old(store.View());
              var steps := Sends(PendingOf(s, c), world);
              Legal(s, steps) && store.View() == Run(s, steps)
    {
      var rows := PendingOf(store.View(), c);
      PendingIsReady(store.View(), c);
      DeliverRows(rows, world);
    }

    /** Delivers each fetched row once, in order. */
    method DeliverRows(slots: seq<Slot>, world: nat -> Answer)
      requires Distinct(slots)
      requires forall x :: x in slots ==> x in store.outbox && Ready(store.outbox[x])
      modifies store
      ensures Legal(old(store.View()), Sends(slots, world))
      ensures store.View() == Run(old(store.View()), Sends(slots, world))
    {
      ghost var s := store.View();
      var fetched := store.outbox;
      ghost var steps := Sends(slots, world);
      var k := 0;
      while k < |slots|
        invariant 0 <= k <= |slots|
        invariant Legal(s, steps[..k]) && store.View() == Run(s, steps[..k])
        invariant forall j :: k <= j < |slots| ==> slots[j] in store.outbox && store.outbox[slots[j]] == fetched[slots[j]]
      {
        var slot := slots[k];
        assert slot in slots;
        DeliverNext(slot, fetched[slot], world(k), s, steps[..k]);
        assert steps[..k] + [steps[k]] == steps[..k + 1];
        k := k + 1;
      }
      assert steps[..k] == steps;
    }

    /** A send after the steps `done` of a batch begun in `s`. */
    method DeliverNext(slot: Slot, row: Row, answer: Answer, ghost s: State, ghost done: seq<Step>)
      requires slot in store.outbox && store.outbox[slot] == row && Ready(row)
      requires Legal(s, done) && store.View() == Run(s, done)
      modifies store
      ensures Legal(s, done + [Send(slot, answer)]) && store.View() == Run(s, done + [Send(slot, answer)])
      ensures forall x :: x != slot && x in old(store.outbox) ==>
                x in store.outbox && store.outbox[x] == old(store.outbox)[x]
    {
      DeliverOne(slot, row, answer);
      OneMoreStep(s, done, Send(slot, answer));
    }

    method DeliverOne(slot: Slot, row: Row, answer: Answer)
      requires slot in store.outbox && store.outbox[slot] == row && Ready(row)
      modifies store
      ensures store.View() == Do(old(store.View()), Send(slot, answer))
      ensures FollowsReply(old(store.View()), slot, answer, store.View())
      ensures forall x :: x != slot && x in old(store.outbox) ==>
                x in store.outbox && store.outbox[x] == old(store.outbox)[x]
    {
      SendFollowsTheReply(store.View(), slot, answer);
      if answer.reply == NoClient {
        store.outbox := store.outbox[slot := row.(status := Skipped)];
        return;
      }
      var attempts := row.attempts + 1;
      var ok := answer.reply == Accepted;
      store.log := store.log + [SentOut(slot.0, slot.1, row.key, row.payload, ok)];
      if ok {
        store.outbox := store.outbox[slot := row.(status := Delivered, attempts := attempts)];
      } else if attempts > MAX_ATTEMPTS {
        store.MoveToDlq(slot, attempts);
      } else {
        store.outbox := store.outbox[slot := row.(status := Failed, attempts := attempts,
                                                  retryAt := answer.at + Backoff(attempts))];
      }
    }

    /** The retry worker: every row whose time has come, file by file, oldest first in each. */
    method ProcessDue(now: int, limit: nat, world: nat -> Answer) returns (n: nat)
      modifies store
      ensures var s := old(store.View());
              var steps := Sends(RoutingBatch(s, now, limit), world);
              n == |steps| && Legal(s, steps) && store.View() == Run(s, steps)
    {
      var rows := store.DueRouting(now, limit);
      DueIsReady(store.View(), now, limit);
      DeliverRows(rows, world);
      n := |rows|;
    }

    /** Human verification: clears the hold and sends what it held back. */
    method VerifyConversation(c: nat, who: string, to: string, at: int, world: nat -> Answer)
      returns (released: Option<bool>)
      modifies store
      ensures c >= old(|store.convs|) ==> released == None && store.View() == old(store.View())
      ensures c < old(|store.convs|) ==>
                var s := old(store.View());
                var steps := VerifySteps(s, c, who, to, at, world);
                && Legal(s, steps) && store.View() == Run(s, steps)
                && released == Some((c, WhatsApp) in s.outbox && s.outbox[(c, WhatsApp)].status == Held)
                && Released(s, c, who, to, at, world, store.View())
    {
      if c >= |store.convs| {
        return None;
      }
      ghost var s := store.View();
      VerificationReleases(s, c, who, to, at, world);
      store.convs := store.convs[c := store.convs[c].(needsVerification := false, verifiedBy := Some(who))];
      store.log := store.log + [Verified(c, who)];
      var slot := (c, WhatsApp);
      if slot in store.outbox && store.outbox[slot].status == Held {
        store.outbox := store.outbox[slot := store.outbox[slot].(status := Pending, retryAt := at,
                                                                 payload := Addressed(store.outbox[slot].payload, to))];
        ghost var told := store.View();
        assert told == Do(s, Verify(c, who, to, at));
        DeliverReady(c, world);
        RunSplits(s, [Verify(c, who, to, at)], Sends(PendingOf(told, c), world));
        released := Some(true);
      } else {
        released := Some(false);
      }
    }
  }

  /** Deletes the audio of conversations past their deadline and closes them. */
  class ErasureWorker {
    const store: LocalStore

    constructor (store: LocalStore) ensures this.store == store { this.store := store; }

    method RunOnce(now: int, limit: nat, world: nat -> bool) returns (erased: nat, errors: nat)
      modifies store
      ensures var s := old(store.View());
              && Legal(s, ErasePass(s, now, limit, world))
              && store.View() == Run(s, ErasePass(s, now, limit, world))
              && erased == Deletes(ErasureBatch(s, now, limit), world)
              && erased + errors == |ErasureBatch(s, now, limit)|
    {
      var due := store.DueConversations(now, limit);
      ErasePassIsLegal(store.View(), now, limit, world);
      erased, errors := EraseAll(due, now, world);
    }

    method EraseAll(due: seq<nat>, now: int, world: nat -> bool) returns (erased: nat, errors: nat)
      requires Legal(store.View(), Erasures(due, now, world))
      modifies store
      ensures store.View() == Run(old(store.View()), Erasures(due, now, world))
      ensures erased == Deletes(due, world) && erased + errors == |due|
    {
      ghost var s := store.View();
      ghost var steps := Erasures(due, now, world);
      erased, errors := 0, 0;
      var k := 0;
      while k < |due|
        invariant 0 <= k <= |due| && erased + errors == k && erased == Deletes(due[..k], world)
        invariant Legal(s, steps[..k]) && store.View() == Run(s, steps[..k])
      {
        NextIsEnabled(s, steps, k);
        EraseNext(due[k], now, world(due[k]), s, steps[..k]);
        assert steps[..k + 1] == steps[..k] + [steps[k]] && due[..k + 1][..k] == due[..k];
        if world(due[k]) { erased := erased + 1; } else { errors := errors + 1; }
        k := k + 1;
      }
      assert steps[..k] == steps && due[..k] == due;
    }

    /** An erasure after the steps `done` of a pass begun in `s`. */
    method EraseNext(c: nat, now: int, deleted: bool, ghost s: State, ghost done: seq<Step>)
      requires Legal(s, done) && store.View() == Run(s, done)
      requires Enabled(store.View(), Erase(c, now, deleted))
      modifies store
      ensures Legal(s, done + [Erase(c, now, deleted)])
      ensures store.View() == Run(s, done + [Erase(c, now, deleted)])
    {
      EraseOne(c, now, deleted);
      RunSplits(s, done, [Erase(c, now, deleted)]);
    }

    method EraseOne(c: nat, now: int, deleted: bool)
      requires Enabled(store.View(), Erase(c, now, deleted))
      modifies store
      ensures store.View() == Do(old(store.View()), Erase(c, now, deleted))
      ensures c < |old(store.convs)|
      ensures !deleted ==> store.convs == old(store.convs) && store.audio == old(store.audio)
      ensures deleted ==>
                && store.audio == old(store.audio) - {c}
                && store.convs == old(store.convs)[c := old(store.convs)[c].(
                     stage := if old(store.convs)[c].stage == Dispatching then Purged else ErrorPurged,
                     erasedAt := Some(now))]
    {
      if !deleted {
        return;
      }
      store.audio := store.audio - {c};
      var ok := store.SetState(c, Purged);
      if !ok {
        ok := store.SetState(c, ErrorPurged);
      }
      store.StampErased(c, now);
    }
  }

  /* ----- legality and order ----- */

  lemma ErasePassIsLegal(s: State, now: int, limit: nat, world: nat -> bool)
    ensures Legal(s, ErasePass(s, now, limit, world))
  {
    BatchIsErasable(s, now, limit);
    ErasuresRun(s, ErasureBatch(s, now, limit), now, world);
  }

  lemma NextIsEnabled(s: State, steps: seq<Step>, k: nat)
    requires Legal(s, steps) && k < |steps|
    ensures Legal(s, steps[..k]) && Enabled(Run(s, steps[..k]), steps[k])
  {
    RunSplits(s, steps[..k], steps[k..]);
    assert steps[..k] + steps[k..] == steps;
  }

  lemma {:induction false} AllSlotsHas(n: nat, x: Slot)
    ensures x in AllSlots(n) <==> x.0 < n
  {
    if n > 0 {
      AllSlotsHas(n - 1, x);
      var last := [(n - 1, Push), (n - 1, WhatsApp), (n - 1, Zoho)];
      assert x.1 == Push || x.1 == WhatsApp || x.1 == Zoho;
      assert x in last <==> x == last[0] || x == last[1] || x == last[2];
      assert AllSlots(n) == AllSlots(n - 1) + last;
    }
  }

  lemma {:induction false} AllSlotsDistinct(n: nat)
    ensures Distinct(AllSlots(n))
  {
    if n > 0 {
      AllSlotsDistinct(n - 1);
      var rest := AllSlots(n - 1);
      forall k | 0 <= k < |rest| ensures rest[k].0 < n - 1 {
        AllSlotsHas(n - 1, rest[k]);
      }
    }
  }

  /** Ranks before by file, then by the time to retry. */
  predicate SlotBefore(s: State, x: Slot, y: Slot) {
    FileOf(s, x.0) < FileOf(s, y.0) || (FileOf(s, x.0) == FileOf(s, y.0) && RetryAt(s, x) <= RetryAt(s, y))
  }

  lemma RowsOfFile(s: State, f: nat, now: int)
    ensures var rows := Filter(AllSlots(|s.convs|), (x: Slot) => FileOf(s, x.0) == f && DueSlot(s, x, now));
            Distinct(rows) && forall x :: x in rows <==> FileOf(s, x.0) == f && DueSlot(s, x, now)
  {
    AllSlotsDistinct(|s.convs|);
    FilterKeepsDistinct(AllSlots(|s.convs|), (x: Slot) => FileOf(s, x.0) == f && DueSlot(s, x, now));
    forall x: Slot | x.0 < |s.convs| ensures x in AllSlots(|s.convs|) {
      AllSlotsHas(|s.convs|, x);
    }
  }

  lemma SlotsOfFile(s: State, f: nat, now: int)
    ensures var slots := DueSlotsIn(s, f, now);
            && Distinct(slots) && (forall x :: x in slots <==> FileOf(s, x.0) == f && DueSlot(s, x, now))
            && Ordered(slots, (x, y) => SlotBefore(s, x, y))
  {
    var le := (a: Slot, b: Slot) => RetryAt(s, a) <= RetryAt(s, b);
    var rows := Filter(AllSlots(|s.convs|), (x: Slot) => FileOf(s, x.0) == f && DueSlot(s, x, now));
    RowsOfFile(s, f, now);
    SortSorts(rows, le);
    SortKeepsElements(rows, le);
    assert DueSlotsIn(s, f, now) == Sort(rows, le);
    SameFileBefore(s, f, DueSlotsIn(s, f, now));
  }

  lemma SameFileBefore(s: State, f: nat, slots: seq<Slot>)
    requires forall k :: 0 <= k < |slots| ==> FileOf(s, slots[k].0) == f
    requires forall i, j :: 0 <= i < j < |slots| ==> RetryAt(s, slots[i]) <= RetryAt(s, slots[j])
    ensures Ordered(slots, (x, y) => SlotBefore(s, x, y))
  {
  }

  /** All due rows, file after file. */
  function SlotsInOrder(s: State, now: int): seq<Slot> {
    Concat(|s.files|, DueSlotFiles(s, now))
  }

  lemma AllSlotsAreInOrder(s: State, now: int, x: Slot)
    ensures x in SlotsInOrder(s, now) <==> DueSlot(s, x, now) && HasFile(s, x.0)
  {
    var part := DueSlotFiles(s, now);
    ConcatHas(|s.files|, part, x);
    SlotsOfFile(s, FileOf(s, x.0), now);
    assert DueSlot(s, x, now) ==> x in part(FileOf(s, x.0));
    if f: nat :| f < |s.files| && x in part(f) {
      SlotsOfFile(s, f, now);
    }
  }

  lemma SlotsAreInOrder(s: State, now: int)
    ensures Ordered(SlotsInOrder(s, now), (x, y) => SlotBefore(s, x, y))
  {
    var before := (x: Slot, y: Slot) => SlotBefore(s, x, y);
    forall f: nat
      ensures Ordered(DueSlotsIn(s, f, now), before)
      ensures forall x :: x in DueSlotsIn(s, f, now) ==> FileOf(s, x.0) == f
    {
      SlotsOfFile(s, f, now);
    }
    ConcatOrders(|s.files|, DueSlotFiles(s, now), before);
  }

  lemma SlotsAreDistinct(s: State, now: int)
    ensures Distinct(SlotsInOrder(s, now))
  {
    var other := (x: Slot, y: Slot) => x != y;
    forall f: nat
      ensures Ordered(DueSlotsIn(s, f, now), other)
      ensures forall x :: x in DueSlotsIn(s, f, now) ==> FileOf(s, x.0) == f
    {
      SlotsOfFile(s, f, now);
    }
    ConcatOrders(|s.files|, DueSlotFiles(s, now), other);
    var all := SlotsInOrder(s, now);
    forall i, j | 0 <= i < j < |all| ensures all[i] != all[j] {
      assert other(all[i], all[j]);
    }
  }

  /** The batch is due rows, each once; and none whose file is open is passed over for one of a
      file opened later, or one of the same file with a later time. */
  lemma DueIsReady(s: State, now: int, limit: nat)
    ensures var batch := RoutingBatch(s, now, limit);
            && Distinct(batch) && (forall x :: x in batch ==> DueSlot(s, x, now))
            && (forall x :: DueSlot(s, x, now) && HasFile(s, x.0) && x !in batch ==>
                  |batch| == limit && forall k :: 0 <= k < limit ==> SlotBefore(s, batch[k], x))
  {
    var all, batch := SlotsInOrder(s, now), RoutingBatch(s, now, limit);
    CutPartsCutWhole(|s.files|, DueSlotFiles(s, now), CutSlotFiles(s, now, limit), limit);
    SlotsAreInOrder(s, now);
    SlotsAreDistinct(s, now);
    forall x ensures x in all <==> DueSlot(s, x, now) && HasFile(s, x.0) {
      AllSlotsAreInOrder(s, now, x);
    }
    forall x | DueSlot(s, x, now) && HasFile(s, x.0) && x !in batch
      ensures |batch| == limit && forall k :: 0 <= k < limit ==> SlotBefore(s, batch[k], x)
    {
      LimitTakesFirst(all, (x, y) => SlotBefore(s, x, y), limit, x);
    }
  }
}
