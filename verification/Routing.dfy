/** The routing outbox: idempotency keys, retry budget, and conservation between the outbox
    and the dead-letter table, in every run and under every redelivery. */
module Routing {
  import opened Basics
  import opened Lifecycle

  predicate Concerns(x: Entry, slot: Slot) {
    (x.Inserted? || x.SentOut? || x.DeadLettered?) && (x.conversation, x.channel) == slot
  }

  /** The key fixed when the slot's row was last inserted. */
  function LastKey(log: seq<Entry>, slot: Slot): Option<Key> {
    if log == [] then None else
      var last := log[|log| - 1];
      if last.Inserted? && Concerns(last, slot) then Some(last.key) else LastKey(log[..|log| - 1], slot)
  }

  /** Sends for the slot since its row was last inserted. */
  function SendsSince(log: seq<Entry>, slot: Slot): nat {
    if log == [] then 0 else
      var last := log[|log| - 1];
      if last.Inserted? && Concerns(last, slot) then 0
      else SendsSince(log[..|log| - 1], slot) + if last.SentOut? && Concerns(last, slot) then 1 else 0
  }

  /** Refused sends for the slot since its row was last inserted. */
  function FailsSince(log: seq<Entry>, slot: Slot): nat {
    if log == [] then 0 else
      var last := log[|log| - 1];
      if last.Inserted? && Concerns(last, slot) then 0
      else FailsSince(log[..|log| - 1], slot) + if last.SentOut? && Concerns(last, slot) && !last.ok then 1 else 0
  }

  function Inserts(log: seq<Entry>, slot: Slot): nat {
    if log == [] then 0 else
      var last := log[|log| - 1];
      Inserts(log[..|log| - 1], slot) + if last.Inserted? && Concerns(last, slot) then 1 else 0
  }

  function DeadCount(dlq: seq<DeadRow>, slot: Slot): nat {
    if dlq == [] then 0 else
      var last := dlq[|dlq| - 1];
      DeadCount(dlq[..|dlq| - 1], slot) + if (last.conversation, last.channel) == slot then 1 else 0
  }

  predicate Tied(row: Row) {
    match row.status
    case Held => row.attempts == 0
    case Pending => row.attempts == 0
    case Failed => 1 <= row.attempts <= 5
    case Delivered => 1 <= row.attempts <= 6
    case Skipped => row.attempts <= 5
  }

  ghost predicate RowOk(s: State, slot: Slot)
    requires slot in s.outbox
  {
    var row := s.outbox[slot];
    && Tied(row) && LastKey(s.log, slot) == Some(row.key)
    && SendsSince(s.log, slot) == row.attempts
    && FailsSince(s.log, slot) == if row.status == Delivered then row.attempts - 1 else row.attempts
  }

  /** Every send carries the key of its row's insertion and is at most the sixth; every
      dead-lettering follows exactly six sends, all refused. */
  ghost predicate EntryOk(log: seq<Entry>, n: nat)
    requires n < |log|
  {
    var x := log[n];
    && (x.SentOut? ==>
          && LastKey(log[..n], (x.conversation, x.channel)) == Some(x.key)
          && SendsSince(log[..n], (x.conversation, x.channel)) <= 5
          && FailsSince(log[..n], (x.conversation, x.channel)) == SendsSince(log[..n], (x.conversation, x.channel)))
    && (x.DeadLettered? ==>
          && SendsSince(log[..n], (x.conversation, x.channel)) == 6
          && FailsSince(log[..n], (x.conversation, x.channel)) == 6)
  }

  ghost predicate HistoryOk(log: seq<Entry>) {
    forall n :: 0 <= n < |log| ==> EntryOk(log, n)
  }

  /** Every row ever inserted for a slot is in the outbox or in the dead-letter table. */
  ghost predicate Conserved(s: State) {
    forall slot: Slot :: Inserts(s.log, slot) == DeadCount(s.dlq, slot) + if slot in s.outbox then 1 else 0
  }

  ghost predicate RoutingInv(s: State) {
    && (forall slot :: slot in s.outbox ==> RowOk(s, slot))
    && HistoryOk(s.log) && Conserved(s)
    && (forall k :: 0 <= k < |s.dlq| ==> s.dlq[k].attempts == 6)
  }

  lemma HistoryGrows(log: seq<Entry>, x: Entry)
    requires HistoryOk(log)
    requires x.SentOut? ==>
               && LastKey(log, (x.conversation, x.channel)) == Some(x.key)
               && SendsSince(log, (x.conversation, x.channel)) <= 5
               && FailsSince(log, (x.conversation, x.channel)) == SendsSince(log, (x.conversation, x.channel))
    requires x.DeadLettered? ==>
               && SendsSince(log, (x.conversation, x.channel)) == 6
               && FailsSince(log, (x.conversation, x.channel)) == 6
    ensures HistoryOk(log + [x])
  {
    var log' := log + [x];
    forall n | 0 <= n < |log'| ensures EntryOk(log', n) {
      assert log'[..n] == log[..n];
      if n == |log| { assert log'[..n] == log; } else { assert EntryOk(log, n); }
    }
  }

  /** A step that writes no routing entry and only re-releases or rewrites rows. */
  lemma QuietStepKeepsRouting(s: State, s': State)
    requires RoutingInv(s)
    requires s'.log == s.log || (|s'.log| > 0 && s'.log[..|s'.log| - 1] == s.log
                                 && (s'.log[|s'.log| - 1].Stored? || s'.log[|s'.log| - 1].Verified?))
    requires s'.dlq == s.dlq && s'.outbox.Keys == s.outbox.Keys
    requires forall slot :: slot in s.outbox ==>
               && s'.outbox[slot].attempts == s.outbox[slot].attempts && s'.outbox[slot].key == s.outbox[slot].key
               && (s'.outbox[slot].status == s.outbox[slot].status
                   || (s.outbox[slot].status == Held && s'.outbox[slot].status == Pending))
    ensures RoutingInv(s')
  {
    if s'.log != s.log {
      var x := s'.log[|s'.log| - 1];
      assert s'.log == s.log + [x];
      HistoryGrows(s.log, x);
      forall slot: Slot
        ensures LastKey(s'.log, slot) == LastKey(s.log, slot) && Inserts(s'.log, slot) == Inserts(s.log, slot)
        ensures SendsSince(s'.log, slot) == SendsSince(s.log, slot) && FailsSince(s'.log, slot) == FailsSince(s.log, slot)
      {
      }
    }
    forall slot | slot in s'.outbox ensures RowOk(s', slot) {
      assert RowOk(s, slot);
    }
  }

  lemma InsertKeepsRouting(s: State, c: nat, channel: Channel, at: int)
    requires RoutingInv(s) && c < |s.convs|
    ensures RoutingInv(InsertRow(s, c, channel, at))
  {
    var s' := InsertRow(s, c, channel, at);
    if (c, channel) !in s.outbox {
      var x := s'.log[|s.log|];
      HistoryGrows(s.log, x);
      forall slot: Slot
        ensures Inserts(s'.log, slot) == DeadCount(s'.dlq, slot) + if slot in s'.outbox then 1 else 0
      {
      }
      forall slot | slot in s'.outbox ensures RowOk(s', slot) {
        if slot in s.outbox { assert RowOk(s, slot); }
      }
    }
  }

  lemma {:induction false} InsertsKeepRouting(s: State, c: nat, channels: seq<Channel>, at: int)
    requires RoutingInv(s) && c < |s.convs|
    ensures RoutingInv(InsertRows(s, c, channels, at))
    decreases |channels|
  {
    if channels != [] {
      InsertKeepsRouting(s, c, channels[0], at);
      InsertsKeepRouting(InsertRow(s, c, channels[0], at), c, channels[1..], at);
    }
  }

  /** The history after a send, before any dead-lettering. */
  lemma SendIsRecorded(s: State, slot: Slot, ok: bool)
    requires RoutingInv(s) && slot in s.outbox && Ready(s.outbox[slot])
    ensures var x := SentOut(slot.0, slot.1, s.outbox[slot].key, s.outbox[slot].payload, ok);
            var log := s.log + [x];
            && HistoryOk(log)
            && (forall other: Slot :: Inserts(log, other) == Inserts(s.log, other))
            && (forall other: Slot :: LastKey(log, other) == LastKey(s.log, other))
            && (forall other: Slot :: other != slot ==>
                  SendsSince(log, other) == SendsSince(s.log, other) && FailsSince(log, other) == FailsSince(s.log, other))
            && SendsSince(log, slot) == s.outbox[slot].attempts + 1
            && FailsSince(log, slot) == s.outbox[slot].attempts + if ok then 0 else 1
  {
    var x := SentOut(slot.0, slot.1, s.outbox[slot].key, s.outbox[slot].payload, ok);
    assert RowOk(s, slot);
    HistoryGrows(s.log, x);
    forall other: Slot
      ensures Inserts(s.log + [x], other) == Inserts(s.log, other) && LastKey(s.log + [x], other) == LastKey(s.log, other)
      ensures other != slot ==> SendsSince(s.log + [x], other) == SendsSince(s.log, other)
                                && FailsSince(s.log + [x], other) == FailsSince(s.log, other)
    {
    }
  }

  lemma SendKeptKeepsRouting(s: State, slot: Slot, answer: Answer)
    requires RoutingInv(s) && Enabled(s, Send(slot, answer)) && answer.reply != NoClient
    requires slot in AfterSend(s, slot, answer).outbox
    ensures RoutingInv(AfterSend(s, slot, answer))
  {
    var s' := AfterSend(s, slot, answer);
    SendIsRecorded(s, slot, answer.reply == Accepted);
    assert RowOk(s, slot);
    forall other | other in s'.outbox ensures RowOk(s', other) {
      if other != slot { assert RowOk(s, other); }
    }
  }

  lemma SendBuriedKeepsRouting(s: State, slot: Slot, answer: Answer)
    requires RoutingInv(s) && Enabled(s, Send(slot, answer)) && answer.reply != NoClient
    requires slot !in AfterSend(s, slot, answer).outbox
    ensures RoutingInv(AfterSend(s, slot, answer))
  {
    var s' := AfterSend(s, slot, answer);
    var row := s.outbox[slot];
    SendIsRecorded(s, slot, false);
    assert RowOk(s, slot);
    var x := SentOut(slot.0, slot.1, row.key, row.payload, false);
    var y := DeadLettered(slot.0, slot.1);
    HistoryGrows(s.log + [x], y);
    assert s'.log == s.log + [x] + [y];
    assert s'.dlq[..|s.dlq|] == s.dlq;
    forall other: Slot
      ensures Inserts(s'.log, other) == DeadCount(s'.dlq, other) + if other in s'.outbox then 1 else 0
      ensures LastKey(s'.log, other) == LastKey(s.log, other)
      ensures other != slot ==> SendsSince(s'.log, other) == SendsSince(s.log, other)
                                && FailsSince(s'.log, other) == FailsSince(s.log, other)
    {
    }
    forall other | other in s'.outbox ensures RowOk(s', other) { assert RowOk(s, other); }
  }

  lemma SendKeepsRouting(s: State, slot: Slot, answer: Answer)
    requires RoutingInv(s) && Enabled(s, Send(slot, answer))
    ensures RoutingInv(Do(s, Send(slot, answer)))
  {
    if answer.reply == NoClient {
    } else if slot in AfterSend(s, slot, answer).outbox {
      SendKeptKeepsRouting(s, slot, answer);
    } else {
      SendBuriedKeepsRouting(s, slot, answer);
    }
  }

  lemma StepKeepsRouting(s: State, step: Step)
    requires RoutingInv(s) && Enabled(s, step)
    ensures RoutingInv(Do(s, step))
  {
    match step {
      case Open(c, at, writes) =>
        if CanMove(s, c, Dispatching) {
          QuietStepKeepsRouting(s, Move(s, c, Dispatching));
          InsertsKeepRouting(Move(s, c, Dispatching), c, Channels[..writes], at);
        }
      case Send(slot, answer) => SendKeepsRouting(s, slot, answer);
      case Provision(_) => QuietStepKeepsRouting(s, Do(s, step));
      case Ingest(_, _, _, _) => QuietStepKeepsRouting(s, Do(s, step));
      case Transcribe(_, _) => QuietStepKeepsRouting(s, Do(s, step));
      case Extract(_, _) => QuietStepKeepsRouting(s, Do(s, step));
      case Verify(_, _, _, _) => QuietStepKeepsRouting(s, Do(s, step));
      case Erase(_, _, _) => QuietStepKeepsRouting(s, Do(s, step));
      case Sweep(_, _, _) => QuietStepKeepsRouting(s, Do(s, step));
    }
  }

  lemma {:induction false} RunKeepsRouting(s: State, steps: seq<Step>)
    requires RoutingInv(s) && Legal(s, steps)
    ensures RoutingInv(Run(s, steps))
    decreases |steps|
  {
    if steps != [] {
      StepKeepsRouting(s, steps[0]);
      RunKeepsRouting(Do(s, steps[0]), steps[1..]);
    }
  }

  /** In every run: sends carry the key of the insertion, rows die on exactly their sixth
      refused send, and inserted rows are conserved between outbox and dead letters. */
  lemma EveryRunRoutesSafely(threshold: real, steps: seq<Step>)
    requires Legal(Start(threshold), steps)
    ensures RoutingInv(Run(Start(threshold), steps))
  {
    RunKeepsRouting(Start(threshold), steps);
  }

  /** A slot inserted once is in exactly one of the two tables. */
  lemma InsertedOnceLivesInOneTable(threshold: real, steps: seq<Step>, slot: Slot)
    requires Legal(Start(threshold), steps) && Inserts(Run(Start(threshold), steps).log, slot) == 1
    ensures var s := Run(Start(threshold), steps);
            (slot in s.outbox && DeadCount(s.dlq, slot) == 0) || (slot !in s.outbox && DeadCount(s.dlq, slot) == 1)
  {
    RunKeepsRouting(Start(threshold), steps);
  }

  /** Redelivering the dispatch event creates a row again exactly when the slot has none:
      the first time, and after a move to the dead-letter table. */
  lemma RedeliveryReinsertsIffGone(s: State, c: nat, at: int, channel: Channel)
    requires Enabled(s, Open(c, at, |Channels|)) && s.convs[c].stage == Dispatching
    ensures var s' := Do(s, Open(c, at, |Channels|));
            && (c, channel) in s'.outbox
            && ((c, channel) in s.outbox ==> s'.outbox[(c, channel)] == s.outbox[(c, channel)])
            && Inserts(s'.log, (c, channel)) == Inserts(s.log, (c, channel)) + if (c, channel) in s.outbox then 0 else 1
  {
    var m := Move(s, c, Dispatching);
    assert Channels[..|Channels|] == Channels;
    var a := InsertRow(m, c, Zoho, at);
    var b := InsertRow(a, c, WhatsApp, at);
    var d := InsertRow(b, c, Push, at);
    assert Channels[1..] == [WhatsApp, Push] && [WhatsApp, Push][1..] == [Push] && [Push][1..] == [];
    assert InsertRows(m, c, Channels, at) == InsertRows(a, c, [WhatsApp, Push], at)
           == InsertRows(b, c, [Push], at) == InsertRows(d, c, [], at);
    OneInsert(m, c, Zoho, at, (c, channel));
    OneInsert(a, c, WhatsApp, at, (c, channel));
    OneInsert(b, c, Push, at, (c, channel));
  }

  lemma OneInsert(s: State, c: nat, channel: Channel, at: int, slot: Slot)
    requires c < |s.convs|
    ensures var s' := InsertRow(s, c, channel, at);
            && (slot in s'.outbox <==> slot in s.outbox || slot == (c, channel))
            && (slot in s.outbox ==> s'.outbox[slot] == s.outbox[slot])
            && Inserts(s'.log, slot) == Inserts(s.log, slot) + if slot == (c, channel) && slot !in s.outbox then 1 else 0
  {
    if (c, channel) !in s.outbox {
      var x := InsertRow(s, c, channel, at).log[|s.log|];
      assert InsertRow(s, c, channel, at).log == s.log + [x] && (s.log + [x])[..|s.log|] == s.log;
    }
  }

  /** Retries wait one minute and then twice as long each time; the hour cap never bites,
      because no retry follows more than five failures. */
  lemma RetriesDouble(k: nat)
    requires 1 <= k <= MAX_ATTEMPTS
    ensures Backoff(k) == 30 * Pow2(k) < 3600
    ensures Backoff(1) == 60 && (k < MAX_ATTEMPTS ==> Backoff(k + 1) == 2 * Backoff(k))
  {
    assert Pow2(1) == 2 && Pow2(2) == 4 && Pow2(3) == 8 && Pow2(4) == 16 && Pow2(5) == 32;
  }

  lemma {:induction false} InsertsKeepRows(s: State, c: nat, channels: seq<Channel>, at: int, slot: Slot)
    requires c < |s.convs| && slot in s.outbox
    ensures var s' := InsertRows(s, c, channels, at);
            slot in s'.outbox && s'.outbox[slot] == s.outbox[slot]
    decreases |channels|
  {
    if channels != [] {
      InsertsKeepRows(InsertRow(s, c, channels[0], at), c, channels[1..], at, slot);
    }
  }

  /** No step changes the key of a row: not a retry, not a redelivery, and not a verification,
      which may rewrite the payload the key was computed from. */
  lemma StepKeepsKey(s: State, step: Step, slot: Slot)
    requires Enabled(s, step) && slot in s.outbox && slot in Do(s, step).outbox
    ensures Do(s, step).outbox[slot].key == s.outbox[slot].key
    ensures Do(s, step).outbox[slot].payload != s.outbox[slot].payload ==>
              step.Verify? && slot == (step.conversation, WhatsApp) && step.to != ""
  {
    if step.Open? && CanMove(s, step.conversation, Dispatching) {
      InsertsKeepRows(Move(s, step.conversation, Dispatching), step.conversation,
                      Channels[..step.writes], step.at, slot);
    }
  }
}
