/** The verification gate: no WhatsApp message leaves while a human check is outstanding. */
module Gate {
  import opened Basics
  import opened Lifecycle

  /** The extraction last stored for the conversation, by the history. */
  function LastStored(log: seq<Entry>, c: nat): Option<Extraction> {
    if log == [] then None else
      var last := log[|log| - 1];
      if last.Stored? && last.conversation == c then Some(last.extraction)
      else LastStored(log[..|log| - 1], c)
  }

  /** Someone verified the conversation after its extraction was last stored. */
  predicate VerifiedSince(log: seq<Entry>, c: nat) {
    if log == [] then false else
      var last := log[|log| - 1];
      if last.Verified? && last.conversation == c then true
      else if last.Stored? && last.conversation == c then false
      else VerifiedSince(log[..|log| - 1], c)
  }

  /** There is a stored extraction, and it is either free of EMI figures and confident
      enough, or it has been verified since. */
  predicate Cleared(threshold: real, log: seq<Entry>, c: nat) {
    var e := LastStored(log, c);
    e.Some? && (VerifiedSince(log, c) || (e.value.emi == [] && e.value.confidence >= threshold))
  }

  /** Every WhatsApp message in the history went out after its conversation was cleared. */
  ghost predicate Gated(threshold: real, log: seq<Entry>) {
    forall n :: 0 <= n < |log| && log[n].SentOut? && log[n].channel == WhatsApp ==>
      Cleared(threshold, log[..n], log[n].conversation)
  }

  predicate Dispatched(s: Stage) {
    s == Dispatching || Terminal(s)
  }

  ghost predicate ConvInv(s: State, c: nat)
    requires c < |s.convs|
  {
    && LastStored(s.log, c) == s.convs[c].extraction
    && (s.convs[c].extraction.Some? && !s.convs[c].needsVerification ==> Cleared(s.threshold, s.log, c))
    && ((InsightExtracted, c) in s.bus ==> s.convs[c].extraction.Some?)
  }

  ghost predicate RowInv(s: State, slot: Slot)
    requires slot in s.outbox
  {
    && slot.0 < |s.convs| && Dispatched(s.convs[slot.0].stage) && LastStored(s.log, slot.0).Some?
    && (slot.1 == WhatsApp && s.outbox[slot].status != Held ==> Cleared(s.threshold, s.log, slot.0))
  }

  ghost predicate GateInv(s: State) {
    && (forall c :: 0 <= c < |s.convs| ==> ConvInv(s, c))
    && (forall t, c :: (t, c) in s.bus ==> c < |s.convs|)
    && (forall slot :: slot in s.outbox ==> RowInv(s, slot))
    && (forall n :: 0 <= n < |s.log| ==> s.log[n].conversation < |s.convs|)
    && Gated(s.threshold, s.log)
  }

  lemma HistoryGrows(threshold: real, log: seq<Entry>, x: Entry, c: nat)
    ensures LastStored(log + [x], c) == if x.Stored? && x.conversation == c then Some(x.extraction) else LastStored(log, c)
    ensures !(x.Stored? && x.conversation == c) && Cleared(threshold, log, c) ==> Cleared(threshold, log + [x], c)
    ensures x.Verified? && x.conversation == c && LastStored(log, c).Some? ==> Cleared(threshold, log + [x], c)
    ensures x.Stored? && x.conversation == c && !NeedsHuman(threshold, x.extraction) ==> Cleared(threshold, log + [x], c)
  {
    assert (log + [x])[..|log|] == log;
  }

  lemma GatedGrows(threshold: real, log: seq<Entry>, x: Entry)
    requires Gated(threshold, log)
    requires x.SentOut? && x.channel == WhatsApp ==> Cleared(threshold, log, x.conversation)
    ensures Gated(threshold, log + [x])
  {
    var log' := log + [x];
    forall n | 0 <= n < |log'| && log'[n].SentOut? && log'[n].channel == WhatsApp
      ensures Cleared(threshold, log'[..n], log'[n].conversation)
    {
      assert log'[..n] == log[..n];
      if n == |log| { assert log'[..n] == log; }
    }
  }

  lemma {:induction false} NothingStored(log: seq<Entry>, c: nat)
    requires forall n :: 0 <= n < |log| ==> log[n].conversation != c
    ensures LastStored(log, c).None?
  {
    if log != [] { NothingStored(log[..|log| - 1], c); }
  }

  /** The invariant survives a change of state that only appends `x` to the history and
      leaves bus, outbox and the extraction fields of conversations as they need. */
  lemma AppendKeepsGate(s: State, x: Entry)
    requires GateInv(s) && x.conversation < |s.convs| && !x.Stored?
    requires x.SentOut? && x.channel == WhatsApp ==> Cleared(s.threshold, s.log, x.conversation)
    ensures GateInv(s.(log := s.log + [x]))
  {
    var s' := s.(log := s.log + [x]);
    GatedGrows(s.threshold, s.log, x);
    forall c | 0 <= c < |s.convs| ensures ConvInv(s', c) {
      HistoryGrows(s.threshold, s.log, x, c);
      assert ConvInv(s, c);
    }
    forall slot | slot in s.outbox ensures RowInv(s', slot) {
      HistoryGrows(s.threshold, s.log, x, slot.0);
      assert RowInv(s, slot);
    }
  }

  lemma ProvisionKeepsGate(s: State, step: Step)
    requires GateInv(s) && step.Provision?
    ensures GateInv(Do(s, step))
  {
    var s' := Do(s, step);
    forall c | 0 <= c < |s'.convs| ensures ConvInv(s', c) {
      assert ConvInv(s, c);
    }
    forall slot | slot in s'.outbox ensures RowInv(s', slot) {
      assert RowInv(s, slot);
    }
  }

  lemma IngestKeepsGate(s: State, step: Step)
    requires GateInv(s) && step.Ingest?
    ensures GateInv(Do(s, step))
  {
    var s' := Do(s, step);
    var id := |s.convs|;
    NothingStored(s.log, id);
    forall c | 0 <= c < |s'.convs| ensures ConvInv(s', c) {
      if c < id { assert ConvInv(s, c); }
    }
    forall slot | slot in s'.outbox ensures RowInv(s', slot) {
      assert RowInv(s, slot);
    }
  }

  /** Moving a stage up, with or without a deadline stamp, keeps the gate. */
  lemma MoveKeepsGate(s: State, s': State, c: nat)
    requires GateInv(s) && c < |s.convs|
    requires |s'.convs| == |s.convs| && s'.convs == s.convs[c := s'.convs[c]]
    requires s'.convs[c].extraction == s.convs[c].extraction
    requires s'.convs[c].needsVerification == s.convs[c].needsVerification
    requires Dispatched(s.convs[c].stage) ==> Dispatched(s'.convs[c].stage)
    requires s'.threshold == s.threshold && s'.outbox == s.outbox && s'.log == s.log
    requires forall t, d :: (t, d) in s'.bus ==> (t, d) in s.bus || (d == c && t != InsightExtracted)
    ensures GateInv(s')
  {
    forall d | 0 <= d < |s'.convs| ensures ConvInv(s', d) {
      assert ConvInv(s, d);
    }
    forall slot | slot in s'.outbox ensures RowInv(s', slot) {
      assert RowInv(s, slot);
    }
  }

  lemma ExtractKeepsGate(s: State, c: nat, result: Option<Extraction>)
    requires GateInv(s) && Enabled(s, Extract(c, result))
    ensures GateInv(Do(s, Extract(c, result)))
  {
    var s' := Do(s, Extract(c, result));
    if CanMove(s, c, Extracting) {
      if result.None? {
        MoveKeepsGate(s, s', c);
      } else {
        var x := Stored(c, result.value);
        GatedGrows(s.threshold, s.log, x);
        forall d | 0 <= d < |s'.convs| ensures ConvInv(s', d) {
          HistoryGrows(s.threshold, s.log, x, d);
          assert ConvInv(s, d);
        }
        forall slot | slot in s'.outbox ensures RowInv(s', slot) {
          HistoryGrows(s.threshold, s.log, x, slot.0);
          assert RowInv(s, slot);
        }
      }
    }
  }

  lemma InsertKeepsGate(s: State, c: nat, channel: Channel, at: int)
    requires GateInv(s) && c < |s.convs| && s.convs[c].stage == Dispatching && s.convs[c].extraction.Some?
    ensures GateInv(InsertRow(s, c, channel, at))
  {
    var s' := InsertRow(s, c, channel, at);
    if (c, channel) !in s.outbox {
      var x := s'.log[|s.log|];
      AppendKeepsGate(s, x);
      var logged := s.(log := s.log + [x]);
      assert ConvInv(logged, c);
      forall slot | slot in s'.outbox ensures RowInv(s', slot) {
        if slot in s.outbox { assert RowInv(logged, slot); }
      }
      forall d | 0 <= d < |s'.convs| ensures ConvInv(s', d) {
        assert ConvInv(logged, d);
      }
    }
  }

  lemma {:induction false} InsertsKeepGate(s: State, c: nat, channels: seq<Channel>, at: int)
    requires GateInv(s) && c < |s.convs| && s.convs[c].stage == Dispatching && s.convs[c].extraction.Some?
    ensures GateInv(InsertRows(s, c, channels, at))
    decreases |channels|
  {
    if channels != [] {
      InsertKeepsGate(s, c, channels[0], at);
      InsertsKeepGate(InsertRow(s, c, channels[0], at), c, channels[1..], at);
    }
  }

  lemma SendKeepsGate(s: State, slot: Slot, answer: Answer)
    requires GateInv(s) && Enabled(s, Send(slot, answer))
    ensures GateInv(Do(s, Send(slot, answer)))
  {
    var s' := Do(s, Send(slot, answer));
    var row := s.outbox[slot];
    assert RowInv(s, slot);
    var logged := s;
    if answer.reply != NoClient {
      var x := SentOut(slot.0, slot.1, row.key, row.payload, answer.reply == Accepted);
      AppendKeepsGate(s, x);
      logged := s.(log := s.log + [x]);
      if slot !in s'.outbox {
        AppendKeepsGate(logged, DeadLettered(slot.0, slot.1));
        logged := logged.(log := logged.log + [DeadLettered(slot.0, slot.1)]);
      }
    }
    assert s'.log == logged.log && RowInv(logged, slot);
    forall d | 0 <= d < |s'.convs| ensures ConvInv(s', d) {
      assert ConvInv(logged, d);
    }
    forall other | other in s'.outbox ensures RowInv(s', other) {
      assert RowInv(logged, other);
    }
  }

  lemma VerifyKeepsGate(s: State, c: nat, who: string, to: string, at: int)
    requires GateInv(s) && c < |s.convs|
    ensures GateInv(AfterVerify(s, c, who, to, at))
  {
    var s' := AfterVerify(s, c, who, to, at);
    var x := Verified(c, who);
    AppendKeepsGate(s, x);
    HistoryGrows(s.threshold, s.log, x, c);
    var logged := s.(log := s.log + [x]);
    forall d | 0 <= d < |s'.convs| ensures ConvInv(s', d) {
      assert ConvInv(logged, d);
    }
    forall slot | slot in s'.outbox ensures RowInv(s', slot) {
      assert RowInv(logged, slot);
    }
  }

  lemma StepKeepsGate(s: State, step: Step)
    requires GateInv(s) && Enabled(s, step)
    ensures GateInv(Do(s, step))
  {
    match step {
      case Provision(_) => ProvisionKeepsGate(s, step);
      case Ingest(_, _, _, _) => IngestKeepsGate(s, step);
      case Transcribe(c, _) => if CanMove(s, c, Transcribing) { MoveKeepsGate(s, Do(s, step), c); }
      case Extract(c, result) => ExtractKeepsGate(s, c, result);
      case Open(c, at, writes) =>
        if CanMove(s, c, Dispatching) {
          assert ConvInv(s, c);
          var moved := Move(s, c, Dispatching);
          MoveKeepsGate(s, moved, c);
          InsertsKeepGate(moved, c, Channels[..writes], at);
        }
      case Send(slot, answer) => SendKeepsGate(s, slot, answer);
      case Verify(c, who, to, at) => VerifyKeepsGate(s, c, who, to, at);
      case Erase(c, _, deleted) => if deleted { MoveKeepsGate(s, Do(s, step), c); }
      case Sweep(c, _, _) => MoveKeepsGate(s, Do(s, step), c);
    }
  }

  lemma {:induction false} RunKeepsGate(s: State, steps: seq<Step>)
    requires GateInv(s) && Legal(s, steps)
    ensures GateInv(Run(s, steps))
    decreases |steps|
  {
    if steps != [] {
      StepKeepsGate(s, steps[0]);
      RunKeepsGate(Do(s, steps[0]), steps[1..]);
    }
  }

  /** In every run, with every bus event redelivered at will, each WhatsApp message went out
      only after its conversation was cleared. */
  lemma NoUncheckedMessage(threshold: real, steps: seq<Step>)
    requires Legal(Start(threshold), steps)
    ensures Gated(threshold, Run(Start(threshold), steps).log)
  {
    RunKeepsGate(Start(threshold), steps);
    RunKeepsThreshold(Start(threshold), steps);
  }

  lemma {:induction false} InsertsKeepThreshold(s: State, c: nat, channels: seq<Channel>, at: int)
    requires c < |s.convs|
    ensures InsertRows(s, c, channels, at).threshold == s.threshold
    ensures InsertRows(s, c, channels, at).convs == s.convs
    ensures InsertRows(s, c, channels, at).audio == s.audio
    ensures InsertRows(s, c, channels, at).files == s.files
    decreases |channels|
  {
    if channels != [] {
      InsertsKeepThreshold(InsertRow(s, c, channels[0], at), c, channels[1..], at);
    }
  }

  lemma {:induction false} RunKeepsThreshold(s: State, steps: seq<Step>)
    requires Legal(s, steps)
    ensures Run(s, steps).threshold == s.threshold
    decreases |steps|
  {
    if steps != [] {
      if steps[0].Open? && CanMove(s, steps[0].conversation, Dispatching) {
        InsertsKeepThreshold(Move(s, steps[0].conversation, Dispatching), steps[0].conversation,
                             Channels[..steps[0].writes], steps[0].at);
      }
      RunKeepsThreshold(Do(s, steps[0]), steps[1..]);
    }
  }
}
