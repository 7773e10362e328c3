/** What reaches the customer: a message is held exactly while it is not cleared, a verification
    releases it, a client's answer settles its row, and a clean upload is delivered. */
module Release {
  import opened Basics
  import opened Lifecycle
  import opened Gate

  /* ----- held exactly while not cleared ----- */

  ghost predicate HeldInv(s: State) {
    && GateInv(s)
    && (forall c :: 0 <= c < |s.convs| && s.convs[c].needsVerification ==> !Cleared(s.threshold, s.log, c))
    && (forall slot :: slot in s.outbox && s.outbox[slot].status == Held ==>
          slot.1 == WhatsApp && slot.0 < |s.convs| && s.convs[slot.0].needsVerification)
  }

  /** Only a stored extraction or a verification of the conversation clears or unclears it. */
  lemma ClearedAfter(threshold: real, log: seq<Entry>, x: Entry, c: nat)
    requires x.conversation == c ==> !x.Stored? && !x.Verified?
    ensures Cleared(threshold, log + [x], c) == Cleared(threshold, log, c)
  {
    assert (log + [x])[..|log|] == log;
  }

  lemma DoubtfulIsNotCleared(threshold: real, log: seq<Entry>, c: nat, e: Extraction)
    requires NeedsHuman(threshold, e)
    ensures !Cleared(threshold, log + [Stored(c, e)], c)
  {
  }

  lemma ExtractKeepsHeld(s: State, c: nat, result: Option<Extraction>)
    requires HeldInv(s) && Enabled(s, Extract(c, result))
    ensures HeldInv(Do(s, Extract(c, result)))
  {
    var s' := Do(s, Extract(c, result));
    StepKeepsGate(s, Extract(c, result));
    forall slot | slot in s'.outbox && s'.outbox[slot].status == Held
      ensures slot.1 == WhatsApp && slot.0 < |s'.convs| && s'.convs[slot.0].needsVerification
    {
      assert RowInv(s, slot);
    }
    if CanMove(s, c, Extracting) && result.Some? {
      forall d | 0 <= d < |s'.convs| && s'.convs[d].needsVerification ensures !Cleared(s'.threshold, s'.log, d) {
        if d == c {
          DoubtfulIsNotCleared(s.threshold, s.log, c, result.value);
        } else {
          ClearedAfter(s.threshold, s.log, Stored(c, result.value), d);
        }
      }
    }
  }

  lemma InsertKeepsHeld(s: State, c: nat, channel: Channel, at: int)
    requires HeldInv(s) && c < |s.convs| && s.convs[c].stage == Dispatching && s.convs[c].extraction.Some?
    ensures HeldInv(InsertRow(s, c, channel, at))
  {
    var s' := InsertRow(s, c, channel, at);
    InsertKeepsGate(s, c, channel, at);
    if (c, channel) !in s.outbox {
      forall d | 0 <= d < |s'.convs| && s'.convs[d].needsVerification ensures !Cleared(s'.threshold, s'.log, d) {
        ClearedAfter(s.threshold, s.log, s'.log[|s.log|], d);
      }
    }
  }

  lemma {:induction false} InsertsKeepHeld(s: State, c: nat, channels: seq<Channel>, at: int)
    requires HeldInv(s) && c < |s.convs| && s.convs[c].stage == Dispatching && s.convs[c].extraction.Some?
    ensures HeldInv(InsertRows(s, c, channels, at))
    decreases |channels|
  {
    if channels != [] {
      InsertKeepsHeld(s, c, channels[0], at);
      InsertsKeepHeld(InsertRow(s, c, channels[0], at), c, channels[1..], at);
    }
  }

  lemma SendKeepsHeld(s: State, slot: Slot, answer: Answer)
    requires HeldInv(s) && Enabled(s, Send(slot, answer))
    ensures HeldInv(Do(s, Send(slot, answer)))
  {
    var s' := Do(s, Send(slot, answer));
    StepKeepsGate(s, Send(slot, answer));
    SendFollowsTheReply(s, slot, answer);
    forall d | 0 <= d < |s'.convs| && s'.convs[d].needsVerification ensures !Cleared(s'.threshold, s'.log, d) {
      if answer.reply != NoClient {
        var x := SentOut(slot.0, slot.1, s.outbox[slot].key, s.outbox[slot].payload, answer.reply == Accepted);
        ClearedAfter(s.threshold, s.log, x, d);
        ClearedAfter(s.threshold, s.log + [x], DeadLettered(slot.0, slot.1), d);
        assert s.log + [x, DeadLettered(slot.0, slot.1)] == s.log + [x] + [DeadLettered(slot.0, slot.1)];
      }
    }
  }

  lemma VerifyKeepsHeld(s: State, c: nat, who: string, to: string, at: int)
    requires HeldInv(s) && c < |s.convs|
    ensures HeldInv(AfterVerify(s, c, who, to, at))
  {
    var s' := AfterVerify(s, c, who, to, at);
    VerifyKeepsGate(s, c, who, to, at);
    forall d | 0 <= d < |s'.convs| && s'.convs[d].needsVerification ensures !Cleared(s'.threshold, s'.log, d) {
      ClearedAfter(s.threshold, s.log, Verified(c, who), d);
    }
  }

  lemma OpenKeepsHeld(s: State, c: nat, at: int, writes: nat)
    requires HeldInv(s) && Enabled(s, Open(c, at, writes))
    ensures HeldInv(Do(s, Open(c, at, writes)))
  {
    if CanMove(s, c, Dispatching) {
      assert ConvInv(s, c);
      var moved := Move(s, c, Dispatching);
      MoveKeepsGate(s, moved, c);
      InsertsKeepHeld(moved, c, Channels[..writes], at);
    }
  }

  lemma StepKeepsHeld(s: State, step: Step)
    requires HeldInv(s) && Enabled(s, step)
    ensures HeldInv(Do(s, step))
  {
    match step {
      case Extract(c, result) => ExtractKeepsHeld(s, c, result);
      case Open(c, at, writes) => OpenKeepsHeld(s, c, at, writes);
      case Send(slot, answer) => SendKeepsHeld(s, slot, answer);
      case Verify(c, who, to, at) => VerifyKeepsHeld(s, c, who, to, at);
      case Provision(_) => StepKeepsGate(s, step);
      case Ingest(_, _, _, _) => StepKeepsGate(s, step);
      case Transcribe(_, _) => StepKeepsGate(s, step);
      case Erase(_, _, _) => StepKeepsGate(s, step);
      case Sweep(_, _, _) => StepKeepsGate(s, step);
    }
  }

  lemma {:induction false} RunKeepsHeld(s: State, steps: seq<Step>)
    requires HeldInv(s) && Legal(s, steps)
    ensures HeldInv(Run(s, steps))
    decreases |steps|
  {
    if steps != [] {
      StepKeepsHeld(s, steps[0]);
      RunKeepsHeld(Do(s, steps[0]), steps[1..]);
    }
  }

  /** In every run a WhatsApp row is held if and only if its conversation is not cleared: its stored
      extraction has EMI figures or is not confident enough, and nobody has verified it since. Rows
      of the other channels are never held. */
  lemma HeldIffNotCleared(threshold: real, steps: seq<Step>, slot: Slot)
    requires Legal(Start(threshold), steps) && slot in Run(Start(threshold), steps).outbox
    ensures var s := Run(Start(threshold), steps);
            s.outbox[slot].status == Held <==> slot.1 == WhatsApp && !Cleared(threshold, s.log, slot.0)
  {
    RunKeepsHeld(Start(threshold), steps);
    RunKeepsThreshold(Start(threshold), steps);
    assert RowInv(Run(Start(threshold), steps), slot);
  }

  /* ----- one send ----- */

  /** What a row becomes under a client's answer, if it stays. */
  function Settled(row: Row, answer: Answer): Option<Row> {
    match answer.reply
    case NoClient => Some(row.(status := Skipped))
    case Accepted => Some(row.(status := Delivered, attempts := row.attempts + 1))
    case Refused =>
      if row.attempts >= 5 then None
      else Some(row.(status := Failed, attempts := row.attempts + 1, retryAt := answer.at + Backoff(row.attempts + 1)))
  }

  /** The message sent, if there is a client to send it. */
  function SentFor(slot: Slot, row: Row, answer: Answer): seq<Entry> {
    if answer.reply == NoClient then [] else [SentOut(slot.0, slot.1, row.key, row.payload, answer.reply == Accepted)]
  }

  /** The row, the history and the dead letters after a send; nothing else changes. */
  ghost predicate FollowsReply(s: State, slot: Slot, answer: Answer, s': State)
    requires slot in s.outbox
  {
    var row := s.outbox[slot];
    && s' == s.(outbox := s'.outbox, dlq := s'.dlq, log := s'.log)
    && match Settled(row, answer)
       case Some(r) =>
         s'.outbox == s.outbox[slot := r] && s'.dlq == s.dlq && s'.log == s.log + SentFor(slot, row, answer)
       case None =>
         && s'.outbox == s.outbox - {slot}
         && s'.dlq == s.dlq + [DeadRow(slot.0, slot.1, row.attempts + 1, row.key, row.payload)]
         && s'.log == s.log + [SentOut(slot.0, slot.1, row.key, row.payload, false), DeadLettered(slot.0, slot.1)]
  }

  lemma SendFollowsTheReply(s: State, slot: Slot, answer: Answer)
    requires slot in s.outbox
    ensures FollowsReply(s, slot, answer, AfterSend(s, slot, answer))
  {
  }

  /* ----- a batch of sends ----- */

  /** The sends of a slot, oldest first. */
  function SendsOf(log: seq<Entry>, slot: Slot): seq<Entry> {
    if log == [] then [] else
      var last := log[|log| - 1];
      SendsOf(log[..|log| - 1], slot)
      + if last.SentOut? && (last.conversation, last.channel) == slot then [last] else []
  }

  function RowOf(s: State, slot: Slot): Option<Row> {
    if slot in s.outbox then Some(s.outbox[slot]) else None
  }

  lemma OneSend(s: State, slot: Slot, answer: Answer, x: Slot)
    requires slot in s.outbox
    ensures var s' := AfterSend(s, slot, answer);
            && (x != slot ==> RowOf(s', x) == RowOf(s, x) && SendsOf(s'.log, x) == SendsOf(s.log, x))
            && (x == slot ==>
                  && RowOf(s', x) == Settled(s.outbox[slot], answer)
                  && SendsOf(s'.log, x) == SendsOf(s.log, x) + SentFor(slot, s.outbox[slot], answer))
            && s'.convs == s.convs
  {
    var s' := AfterSend(s, slot, answer);
    SendFollowsTheReply(s, slot, answer);
    if answer.reply != NoClient {
      var sent := SentOut(slot.0, slot.1, s.outbox[slot].key, s.outbox[slot].payload, answer.reply == Accepted);
      assert (s.log + [sent])[..|s.log|] == s.log;
      if slot !in s'.outbox {
        assert s'.log == (s.log + [sent]) + [DeadLettered(slot.0, slot.1)];
        assert s'.log[..|s.log| + 1] == s.log + [sent];
      }
    }
  }

  /** `x` was settled by its own answer if it was fetched, and is untouched if not. */
  ghost predicate SettledBy(s: State, slots: seq<Slot>, world: nat -> Answer, x: Slot, s': State) {
    && s'.convs == s.convs
    && (x !in slots ==> RowOf(s', x) == RowOf(s, x) && SendsOf(s'.log, x) == SendsOf(s.log, x))
    && (forall k: nat :: k < |slots| && slots[k] == x && x in s.outbox ==>
          && RowOf(s', x) == Settled(s.outbox[x], world(k))
          && SendsOf(s'.log, x) == SendsOf(s.log, x) + SentFor(x, s.outbox[x], world(k)))
  }

  lemma OneMoreSettled(s: State, slots: seq<Slot>, world: nat -> Answer, x: Slot, mid: State)
    requires slots != [] && Distinct(slots)
    requires var n := |slots| - 1;
             && SettledBy(s, slots[..n], world, x, mid)
             && slots[n] in s.outbox && slots[n] in mid.outbox && mid.outbox[slots[n]] == s.outbox[slots[n]]
    ensures SettledBy(s, slots, world, x, AfterSend(mid, slots[|slots| - 1], world(|slots| - 1)))
  {
    var n := |slots| - 1;
    OneSend(mid, slots[n], world(n), x);
    assert forall k: nat :: k < n ==> slots[..n][k] == slots[k];
    assert x in slots <==> x in slots[..n] || x == slots[n];
    assert slots[n] !in slots[..n];
  }

  lemma LastIsUntouched(s: State, slots: seq<Slot>, world: nat -> Answer, mid: State)
    requires slots != [] && Distinct(slots) && slots[|slots| - 1] in s.outbox
    requires SettledBy(s, slots[..|slots| - 1], world, slots[|slots| - 1], mid)
    ensures var x := slots[|slots| - 1];
            x in mid.outbox && mid.outbox[x] == s.outbox[x]
  {
    assert RowOf(mid, slots[|slots| - 1]) == RowOf(s, slots[|slots| - 1]);
  }

  lemma SendsGrow(slots: seq<Slot>, world: nat -> Answer)
    requires slots != []
    ensures var n := |slots| - 1;
            Sends(slots, world) == Sends(slots[..n], world) + [Send(slots[n], world(n))]
  {
  }

  ghost predicate AllReady(s: State, slots: seq<Slot>) {
    Distinct(slots) && forall y :: y in slots ==> y in s.outbox && Ready(s.outbox[y])
  }

  lemma {:induction false} SendsRun(s: State, slots: seq<Slot>, world: nat -> Answer, x: Slot)
    requires AllReady(s, slots)
    ensures Legal(s, Sends(slots, world))
    ensures SettledBy(s, slots, world, x, Run(s, Sends(slots, world)))
    decreases |slots|
  {
    if slots != [] {
      var n := |slots| - 1;
      assert AllReady(s, slots[..n]) && slots[n] in slots;
      SendsRun(s, slots[..n], world, x);
      SendsRun(s, slots[..n], world, slots[n]);
      var mid := Run(s, Sends(slots[..n], world));
      LastIsUntouched(s, slots, world, mid);
      OneMoreSettled(s, slots, world, x, mid);
      SendsGrow(slots, world);
      OneMoreStep(s, Sends(slots[..n], world), Send(slots[n], world(n)));
    }
  }

  lemma OneMoreStep(s: State, steps: seq<Step>, step: Step)
    requires Legal(s, steps) && Enabled(Run(s, steps), step)
    ensures Legal(s, steps + [step]) && Run(s, steps + [step]) == Do(Run(s, steps), step)
  {
    RunSplits(s, steps, [step]);
  }

  /* ----- the handlers as steps ----- */

  function HandleSteps(s: State, c: nat, at: int, world: nat -> Answer): seq<Step>
    requires Enabled(s, Open(c, at, |Channels|))
  {
    if !CanMove(s, c, Dispatching) then []
    else [Open(c, at, |Channels|)] + Sends(PendingOf(Do(s, Open(c, at, |Channels|)), c), world)
  }

  function VerifySteps(s: State, c: nat, who: string, to: string, at: int, world: nat -> Answer): seq<Step>
    requires c < |s.convs|
  {
    if (c, WhatsApp) in s.outbox && s.outbox[(c, WhatsApp)].status == Held
    then [Verify(c, who, to, at)] + Sends(PendingOf(Do(s, Verify(c, who, to, at)), c), world)
    else [Verify(c, who, to, at)]
  }

  lemma {:induction false} FilterKeepsDistinct(slots: seq<Slot>, p: Slot -> bool)
    requires Distinct(slots)
    ensures Distinct(Filter(slots, p))
  {
    if slots != [] {
      FilterKeepsDistinct(slots[1..], p);
      var rest := Filter(slots[1..], p);
      forall k | 0 <= k < |rest| ensures rest[k] != slots[0] {
        assert rest[k] in slots[1..];
      }
    }
  }

  lemma PendingIsReady(s: State, c: nat)
    ensures Distinct(PendingOf(s, c))
    ensures forall x :: x in PendingOf(s, c) <==> x.0 == c && x in s.outbox && s.outbox[x].status == Pending
  {
    var all := [(c, Push), (c, WhatsApp), (c, Zoho)];
    FilterKeepsDistinct(all, (x: Slot) => x in s.outbox && s.outbox[x].status == Pending);
    forall x: Slot | x.0 == c ensures x in all {
      assert x == (c, x.1);
      match x.1 {
        case Push => assert x == all[0];
        case WhatsApp => assert x == all[1];
        case Zoho => assert x == all[2];
      }
    }
  }

  /** Where the message of `c` stands among its pending rows. */
  function MessagePlace(outbox: map<Slot, Row>, c: nat): nat {
    if (c, Push) in outbox && outbox[(c, Push)].status == Pending then 1 else 0
  }

  lemma MessageIsPending(s: State, c: nat)
    requires (c, WhatsApp) in s.outbox && s.outbox[(c, WhatsApp)].status == Pending
    ensures var k := MessagePlace(s.outbox, c);
            k < |PendingOf(s, c)| && PendingOf(s, c)[k] == (c, WhatsApp)
  {
    var p := (x: Slot) => x in s.outbox && s.outbox[x].status == Pending;
    var all := [(c, Push), (c, WhatsApp), (c, Zoho)];
    assert all[1..] == [(c, WhatsApp), (c, Zoho)];
    assert Filter(all[1..], p)[0] == (c, WhatsApp);
  }

  /** What a verification leaves: the hold is cleared, a held message is addressed and sent with
      the answer to its send, and nobody else's row is touched. */
  ghost predicate Released(s: State, c: nat, who: string, to: string, at: int, world: nat -> Answer, s': State)
    requires c < |s.convs|
  {
    var slot := (c, WhatsApp);
    && s'.convs == s.convs[c := s.convs[c].(needsVerification := false, verifiedBy := Some(who))]
    && (forall x: Slot :: x.0 != c ==> RowOf(s', x) == RowOf(s, x) && SendsOf(s'.log, x) == SendsOf(s.log, x))
    && if slot in s.outbox && s.outbox[slot].status == Held then
         var was := s.outbox[slot];
         var row := was.(status := Pending, retryAt := at,
                         payload := if to != "" && was.payload.Message? then was.payload.(to := to) else was.payload);
         var answer := world(MessagePlace(s.outbox, c));
         && RowOf(s', slot) == Settled(row, answer)
         && SendsOf(s'.log, slot) == SendsOf(s.log, slot) + SentFor(slot, row, answer)
       else
         s'.outbox == s.outbox && s'.log == s.log + [Verified(c, who)]
  }

  lemma VerifyStep(s: State, c: nat, who: string, to: string, at: int)
    requires c < |s.convs|
    ensures var told := Do(s, Verify(c, who, to, at));
            && told.convs == s.convs[c := s.convs[c].(needsVerification := false, verifiedBy := Some(who))]
            && told.log == s.log + [Verified(c, who)]
            && (forall x: Slot :: SendsOf(told.log, x) == SendsOf(s.log, x))
            && (forall x: Slot :: x != (c, WhatsApp) ==> RowOf(told, x) == RowOf(s, x))
  {
    assert (s.log + [Verified(c, who)])[..|s.log|] == s.log;
  }

  /** Sending what is pending of `c`, its message among it. */
  lemma PendingIsSent(s: State, c: nat, world: nat -> Answer)
    requires (c, WhatsApp) in s.outbox && s.outbox[(c, WhatsApp)].status == Pending
    ensures Legal(s, Sends(PendingOf(s, c), world))
    ensures var s' := Run(s, Sends(PendingOf(s, c), world));
            var slot, answer := (c, WhatsApp), world(MessagePlace(s.outbox, c));
            && s'.convs == s.convs
            && RowOf(s', slot) == Settled(s.outbox[slot], answer)
            && SendsOf(s'.log, slot) == SendsOf(s.log, slot) + SentFor(slot, s.outbox[slot], answer)
            && forall x: Slot :: x.0 != c ==> RowOf(s', x) == RowOf(s, x) && SendsOf(s'.log, x) == SendsOf(s.log, x)
  {
    PendingIsReady(s, c);
    MessageIsPending(s, c);
    SendsRun(s, PendingOf(s, c), world, (c, WhatsApp));
    var s' := Run(s, Sends(PendingOf(s, c), world));
    forall x: Slot | x.0 != c ensures RowOf(s', x) == RowOf(s, x) && SendsOf(s'.log, x) == SendsOf(s.log, x) {
      SendsRun(s, PendingOf(s, c), world, x);
    }
  }

  /** A verification that finds a held message sends what is pending then. */
  lemma VerifyThenSend(s: State, c: nat, who: string, to: string, at: int, world: nat -> Answer)
    requires c < |s.convs| && (c, WhatsApp) in s.outbox && s.outbox[(c, WhatsApp)].status == Held
    ensures var told := Do(s, Verify(c, who, to, at));
            && Legal(told, Sends(PendingOf(told, c), world)) && Legal(s, VerifySteps(s, c, who, to, at, world))
            && Run(s, VerifySteps(s, c, who, to, at, world)) == Run(told, Sends(PendingOf(told, c), world))
  {
    var told := Do(s, Verify(c, who, to, at));
    PendingIsSent(told, c, world);
    assert [Verify(c, who, to, at)][1..] == [];
    RunSplits(s, [Verify(c, who, to, at)], Sends(PendingOf(told, c), world));
  }

  lemma HeldIsReleased(s: State, c: nat, who: string, to: string, at: int, world: nat -> Answer)
    requires c < |s.convs| && (c, WhatsApp) in s.outbox && s.outbox[(c, WhatsApp)].status == Held
    ensures Legal(s, VerifySteps(s, c, who, to, at, world))
    ensures Released(s, c, who, to, at, world, Run(s, VerifySteps(s, c, who, to, at, world)))
  {
    var told := Do(s, Verify(c, who, to, at));
    VerifyStep(s, c, who, to, at);
    VerifyThenSend(s, c, who, to, at, world);
    PendingIsSent(told, c, world);
    assert MessagePlace(told.outbox, c) == MessagePlace(s.outbox, c);
  }

  lemma VerificationReleases(s: State, c: nat, who: string, to: string, at: int, world: nat -> Answer)
    requires c < |s.convs|
    ensures Legal(s, VerifySteps(s, c, who, to, at, world))
    ensures Released(s, c, who, to, at, world, Run(s, VerifySteps(s, c, who, to, at, world)))
  {
    if (c, WhatsApp) in s.outbox && s.outbox[(c, WhatsApp)].status == Held {
      HeldIsReleased(s, c, who, to, at, world);
    } else {
      assert [Verify(c, who, to, at)][1..] == [];
      VerifyStep(s, c, who, to, at);
    }
  }

  /* ----- a dispatch ----- */

  lemma OpenIsThreeInserts(s: State, c: nat, at: int)
    requires Enabled(s, Open(c, at, |Channels|)) && CanMove(s, c, Dispatching)
    ensures var a := InsertRow(Move(s, c, Dispatching), c, Zoho, at);
            Do(s, Open(c, at, |Channels|)) == InsertRow(InsertRow(a, c, WhatsApp, at), c, Push, at)
  {
    var m := Move(s, c, Dispatching);
    var a := InsertRow(m, c, Zoho, at);
    var b := InsertRow(a, c, WhatsApp, at);
    var d := InsertRow(b, c, Push, at);
    assert Channels[..|Channels|] == Channels;
    assert Channels[1..] == [WhatsApp, Push] && [WhatsApp, Push][1..] == [Push] && [Push][1..] == [];
    assert InsertRows(m, c, Channels, at) == InsertRows(a, c, [WhatsApp, Push], at)
           == InsertRows(b, c, [Push], at) == InsertRows(d, c, [], at);
  }

  /** The row a dispatch writes for a channel that has none. */
  function FreshRow(c: nat, conv: Conversation, channel: Channel, at: int): Row {
    var payload := BuildPayload(c, conv, channel);
    Row(if channel == WhatsApp && conv.needsVerification then Held else Pending, 0, Key(c, channel, payload), payload, at)
  }

  lemma InsertWritesRow(s: State, c: nat, channel: Channel, at: int)
    requires c < |s.convs|
    ensures var s' := InsertRow(s, c, channel, at);
            && s' == s.(outbox := s'.outbox, log := s'.log)
            && (forall x: Slot :: RowOf(s', x) == if x == (c, channel) && x !in s.outbox
                                                  then Some(FreshRow(c, s.convs[c], channel, at)) else RowOf(s, x))
            && (forall x: Slot :: SendsOf(s'.log, x) == SendsOf(s.log, x))
  {
    var s' := InsertRow(s, c, channel, at);
    if (c, channel) !in s.outbox {
      assert s'.log[..|s.log|] == s.log;
    }
  }

  /** One row a channel, and no send yet. */
  lemma OpenWritesRows(s: State, c: nat, at: int)
    requires Enabled(s, Open(c, at, |Channels|)) && CanMove(s, c, Dispatching)
    ensures var s' := Do(s, Open(c, at, |Channels|));
            && s' == s.(convs := s.convs[c := s.convs[c].(stage := Dispatching)], outbox := s'.outbox, log := s'.log)
            && (forall x: Slot :: RowOf(s', x) == if x.0 == c && x !in s.outbox
                                                  then Some(FreshRow(c, s.convs[c], x.1, at)) else RowOf(s, x))
            && (forall x: Slot :: SendsOf(s'.log, x) == SendsOf(s.log, x))
  {
    var m := Move(s, c, Dispatching);
    var a := InsertRow(m, c, Zoho, at);
    var b := InsertRow(a, c, WhatsApp, at);
    InsertWritesRow(m, c, Zoho, at);
    InsertWritesRow(a, c, WhatsApp, at);
    InsertWritesRow(b, c, Push, at);
    OpenIsThreeInserts(s, c, at);
    forall channel ensures FreshRow(c, m.convs[c], channel, at) == FreshRow(c, s.convs[c], channel, at) {}
  }

  /** The answer a pending row of `c` gets, and what it makes of the row and the history. */
  ghost predicate Sent(s: State, world: nat -> Answer, slot: Slot, row: Row, s': State) {
    exists k: nat :: SentAs(s, world(k), slot, row, s')
  }

  predicate SentAs(s: State, answer: Answer, slot: Slot, row: Row, s': State) {
    RowOf(s', slot) == Settled(row, answer) && SendsOf(s'.log, slot) == SendsOf(s.log, slot) + SentFor(slot, row, answer)
  }

  lemma SentIfPending(s: State, c: nat, world: nat -> Answer, channel: Channel)
    requires (c, channel) in s.outbox
    ensures Legal(s, Sends(PendingOf(s, c), world))
    ensures var s', slot := Run(s, Sends(PendingOf(s, c), world)), (c, channel);
            && s'.convs == s.convs
            && if s.outbox[slot].status == Pending then Sent(s, world, slot, s.outbox[slot], s')
               else RowOf(s', slot) == RowOf(s, slot) && SendsOf(s'.log, slot) == SendsOf(s.log, slot)
  {
    var slot, slots := (c, channel), PendingOf(s, c);
    PendingIsReady(s, c);
    SendsRun(s, slots, world, slot);
    if s.outbox[slot].status == Pending {
      var k: nat :| k < |slots| && slots[k] == slot;
      assert SentAs(s, world(k), slot, s.outbox[slot], Run(s, Sends(slots, world)));
    }
  }

  lemma OpenThenSend(s: State, c: nat, at: int, world: nat -> Answer)
    requires Enabled(s, Open(c, at, |Channels|)) && CanMove(s, c, Dispatching)
    ensures var open := Do(s, Open(c, at, |Channels|));
            && Legal(open, Sends(PendingOf(open, c), world)) && Legal(s, HandleSteps(s, c, at, world))
            && Run(s, HandleSteps(s, c, at, world)) == Run(open, Sends(PendingOf(open, c), world))
  {
    var open := Do(s, Open(c, at, |Channels|));
    PendingIsReady(open, c);
    SendsRun(open, PendingOf(open, c), world, (c, Push));
    assert [Open(c, at, |Channels|)][1..] == [];
    RunSplits(s, [Open(c, at, |Channels|)], Sends(PendingOf(open, c), world));
  }

  /** Dispatching a conversation that has no rows writes one for each channel and sends it at once,
      save that a message waits for verification. */
  lemma DispatchSends(s: State, c: nat, at: int, world: nat -> Answer, channel: Channel)
    requires Enabled(s, Open(c, at, |Channels|)) && CanMove(s, c, Dispatching)
    requires forall x :: x in s.outbox ==> x.0 != c
    ensures Legal(s, HandleSteps(s, c, at, world))
    ensures var s' := Run(s, HandleSteps(s, c, at, world));
            var slot, row := (c, channel), FreshRow(c, s.convs[c], channel, at);
            && s'.convs == s.convs[c := s.convs[c].(stage := Dispatching)]
            && if channel == WhatsApp && s.convs[c].needsVerification
               then RowOf(s', slot) == Some(row) && row.status == Held && SendsOf(s'.log, slot) == SendsOf(s.log, slot)
               else Sent(s, world, slot, row, s')
  {
    var open := Do(s, Open(c, at, |Channels|));
    var slot, row := (c, channel), FreshRow(c, s.convs[c], channel, at);
    OpenWritesRows(s, c, at);
    OpenThenSend(s, c, at, world);
    assert RowOf(open, slot) == Some(row);
    SentIfPending(open, c, world, channel);
    var s' := Run(open, Sends(PendingOf(open, c), world));
    if row.status == Pending {
      var k: nat :| SentAs(open, world(k), slot, row, s');
      assert SentAs(s, world(k), slot, row, s');
    }
  }

  /** What goes to the CRM, the customer and the agent. */
  lemma PayloadsCarryTheInsight(c: nat, conv: Conversation, at: int)
    ensures FreshRow(c, conv, Zoho, at).payload == Lead(c, conv.extraction)
    ensures FreshRow(c, conv, Push, at).payload == Notice(c, conv.agent, conv.extraction, conv.needsVerification)
    ensures FreshRow(c, conv, WhatsApp, at).payload == Message(c, "", Body(conv.extraction), conv.needsVerification)
    ensures forall channel, other ::
              FreshRow(c, conv, channel, at).key == FreshRow(c, conv, other, at).key ==> channel == other
  {
  }

  /** The text of a message: the talking point, failing that the next action, failing that a thank
      you; its first 300 characters. */
  lemma MessageText(e: Extraction)
    ensures var body := Body(Some(e));
            var text := if e.talkingPoint != "" then e.talkingPoint else if e.action != "" then e.action
                        else "Thank you for visiting!";
            body <= text && |body| == if |text| <= 300 then |text| else 300
  {
  }

  /** Transcription and extraction of an upload, each delivered once. */
  function Understood(c: nat, e: Extraction): seq<Step> {
    [Transcribe(c, true), Extract(c, Some(e))]
  }

  lemma UnderstoodRuns(s: State, c: nat, e: Extraction)
    requires c < |s.convs| && s.convs[c].stage == AudioUploaded && c in s.audio && (RawUploaded, c) in s.bus
    ensures Legal(s, Understood(c, e))
    ensures var s' := Run(s, Understood(c, e));
            && s'.outbox == s.outbox && s'.log == s.log + [Stored(c, e)] && (InsightExtracted, c) in s'.bus
            && s'.convs == s.convs[c := s.convs[c].(stage := Extracting, extraction := Some(e),
                                                    needsVerification := e.emi != [] || e.confidence < s.threshold)]
  {
    var s1 := Do(s, Transcribe(c, true));
    assert s1.convs == s.convs[c := s.convs[c].(stage := Transcribing)] && (TranscriptReady, c) in s1.bus;
    TwoSteps(s, Transcribe(c, true), Extract(c, Some(e)));
  }

  lemma TwoSteps(s: State, a: Step, b: Step)
    requires Enabled(s, a) && Enabled(Do(s, a), b)
    ensures Legal(s, [a, b]) && Run(s, [a, b]) == Do(Do(s, a), b)
  {
    assert [a, b][1..] == [b] && [b][1..] == [];
    assert Run(Do(s, a), [b]) == Do(Do(s, a), b);
  }

  /** An upload whose transcription and extraction go through and whose clients accept is dispatched
      to every channel, and its message is delivered, as it says, exactly if the extraction has no
      EMI figures and is confident; otherwise it is held and not sent. */
  lemma ACleanUploadIsDelivered(s: State, c: nat, e: Extraction, at: int, world: nat -> Answer, channel: Channel)
    requires c < |s.convs| && s.convs[c].stage == AudioUploaded && c in s.audio && (RawUploaded, c) in s.bus
    requires (forall x :: x in s.outbox ==> x.0 != c) && forall k: nat :: world(k).reply == Accepted
    ensures var s2 := Run(s, Understood(c, e));
            && Legal(s, Understood(c, e)) && Enabled(s2, Open(c, at, |Channels|))
            && Legal(s2, HandleSteps(s2, c, at, world))
            && var s', slot := Run(s2, HandleSteps(s2, c, at, world)), (c, channel);
               && slot in s'.outbox && c < |s'.convs| && s'.convs[c].stage == Dispatching
               && if channel != WhatsApp || (e.emi == [] && e.confidence >= s.threshold) then
                    && s'.outbox[slot].status == Delivered && |SendsOf(s'.log, slot)| == |SendsOf(s.log, slot)| + 1
                    && (channel == WhatsApp ==> s'.outbox[slot].payload == Message(c, "", Body(Some(e)), false))
                  else s'.outbox[slot].status == Held && SendsOf(s'.log, slot) == SendsOf(s.log, slot)
  {
    UnderstoodRuns(s, c, e);
    var s2 := Run(s, Understood(c, e));
    assert s2.log[..|s.log|] == s.log;
    assert SendsOf(s2.log, (c, channel)) == SendsOf(s.log, (c, channel));
    DispatchSends(s2, c, at, world, channel);
  }
}
