/** The enterprise conversation pipeline as one value: conversations, their raw audio, the
    routing outbox and dead-letter table, the events on the bus, and a history of what was
    stored, verified, inserted and sent. Every handler and worker is a list of steps; a bus
    event, once produced, may be delivered any number of times. */
module Lifecycle {
  import opened Basics
  import opened Sorting

  const MAX_ATTEMPTS: nat := 5

  datatype Stage = ConsentLogged | AudioUploaded | Transcribing | Extracting | Dispatching | Purged | ErrorPurged

  predicate Terminal(s: Stage) { s == Purged || s == ErrorPurged }

  /** The transition table; staying put is always allowed. */
  predicate Allowed(from: Stage, to: Stage) {
    || from == to
    || match from
       case ConsentLogged => to in {AudioUploaded, ErrorPurged}
       case AudioUploaded => to in {Transcribing, ErrorPurged}
       case Transcribing => to in {Extracting, ErrorPurged}
       case Extracting => to in {Dispatching, ErrorPurged}
       case Dispatching => to in {Purged, ErrorPurged}
       case Purged => false
       case ErrorPurged => false
  }

  datatype Channel = Push | WhatsApp | Zoho

  datatype Extraction = Extraction(emi: seq<string>, confidence: real, action: string, talkingPoint: string,
                                   rest: string)

  datatype Payload =
    | Lead(conversation: nat, about: Option<Extraction>)
    | Message(conversation: nat, to: string, body: string, heldForVerification: bool)
    | Notice(conversation: nat, agent: string, about: Option<Extraction>, requiresAction: bool)

  /** A digest of conversation, channel and payload, standing for a collision-free hash. */
  datatype Key = Key(conversation: nat, channel: Channel, payload: Payload)

  datatype Conversation = Conversation(tenant: string, agent: string, stage: Stage, extraction: Option<Extraction>,
                                       needsVerification: bool, verifiedBy: Option<string>,
                                       eraseAfter: int, erasedAt: Option<int>)

  datatype RowStatus = Held | Pending | Failed | Delivered | Skipped

  datatype Row = Row(status: RowStatus, attempts: nat, key: Key, payload: Payload, retryAt: int)

  datatype DeadRow = DeadRow(conversation: nat, channel: Channel, attempts: nat, key: Key, payload: Payload)

  datatype Topic = RawUploaded | TranscriptReady | InsightExtracted

  datatype Entry =
    | Stored(conversation: nat, extraction: Extraction)
    | Verified(conversation: nat, who: string)
    | Inserted(conversation: nat, channel: Channel, key: Key)
    | SentOut(conversation: nat, channel: Channel, key: Key, payload: Payload, ok: bool)
    | DeadLettered(conversation: nat, channel: Channel)

  /** A routing row is named by its unique conversation and channel. */
  type Slot = (nat, Channel)

  /** `files` are the tenants' database files in the order they were opened; a tenant is named by
      its schema. */
  datatype State = State(threshold: real, files: seq<string>, convs: seq<Conversation>, audio: set<nat>,
                         outbox: map<Slot, Row>, dlq: seq<DeadRow>, bus: set<(Topic, nat)>, log: seq<Entry>)

  function Start(threshold: real): State {
    State(threshold, [], [], {}, map[], [], {}, [])
  }

  /** How a channel client answers: there is none, it accepts, or it refuses (or raises). */
  datatype Reply = NoClient | Accepted | Refused

  datatype Answer = Answer(reply: Reply, at: int)

  datatype Step =
    | Provision(tenant: string)
    | Ingest(tenant: string, agent: string, eraseAfter: int, putOk: bool)
    | Transcribe(conversation: nat, ok: bool)
    | Extract(conversation: nat, result: Option<Extraction>)
    | Open(conversation: nat, at: int, writes: nat)
    | Send(slot: Slot, answer: Answer)
    | Verify(conversation: nat, who: string, to: string, at: int)
    | Erase(conversation: nat, now: int, deleted: bool)
    | Sweep(conversation: nat, now: int, deleted: bool)

  /* ----- gate and payloads ----- */

  /** Financing figures, or confidence below the threshold. */
  predicate NeedsHuman(threshold: real, e: Extraction) {
    e.emi != [] || e.confidence < threshold
  }

  function Or(a: string, b: string): string {
    if a != "" then a else b
  }

  function Cut(text: string, n: nat): string {
    if |text| <= n then text else text[..n]
  }

  function Body(e: Option<Extraction>): string {
    var thanks := "Thank you for visiting!";
    if e.None? then thanks else Cut(Or(e.value.talkingPoint, Or(e.value.action, thanks)), 300)
  }

  function BuildPayload(id: nat, c: Conversation, channel: Channel): Payload {
    match channel
    case Zoho => Lead(id, c.extraction)
    case WhatsApp => Message(id, "", Body(c.extraction), c.needsVerification)
    case Push => Notice(id, c.agent, c.extraction, c.needsVerification)
  }

  /** Seconds before the next try after `attempts` failed sends. */
  function Backoff(attempts: nat): int {
    var delay := Pow2(attempts) * 30;
    if delay < 3600 then delay else 3600
  }

  function Pow2(n: nat): nat {
    if n == 0 then 1 else 2 * Pow2(n - 1)
  }

  /* ----- steps ----- */

  predicate CanMove(s: State, c: nat, to: Stage) {
    c < |s.convs| && Allowed(s.convs[c].stage, to)
  }

  function Move(s: State, c: nat, to: Stage): State
    requires c < |s.convs|
  {
    s.(convs := s.convs[c := s.convs[c].(stage := to)])
  }

  function Close(s: State, c: nat, to: Stage, at: int): State
    requires c < |s.convs|
  {
    s.(convs := s.convs[c := s.convs[c].(stage := to, erasedAt := Some(at))])
  }

  function Dropped(s: State, c: nat, deleted: bool): State {
    if deleted then s.(audio := s.audio - {c}) else s
  }

  const Channels: seq<Channel> := [Zoho, WhatsApp, Push]

  /** Insert or ignore: a slot that has a row keeps it. */
  function InsertRow(s: State, c: nat, channel: Channel, at: int): State
    requires c < |s.convs|
  {
    if (c, channel) in s.outbox then s
    else
      var conv := s.convs[c];
      var payload := BuildPayload(c, conv, channel);
      var key := Key(c, channel, payload);
      var status := if channel == WhatsApp && conv.needsVerification then Held else Pending;
      s.(outbox := s.outbox[(c, channel) := Row(status, 0, key, payload, at)],
         log := s.log + [Inserted(c, channel, key)])
  }

  function InsertRows(s: State, c: nat, channels: seq<Channel>, at: int): State
    requires c < |s.convs|
    decreases |channels|
  {
    if channels == [] then s else InsertRows(InsertRow(s, c, channels[0], at), c, channels[1..], at)
  }

  /** A tenant's file is opened once and stays open. */
  function Opening(files: seq<string>, tenant: string): seq<string> {
    if tenant in files then files else files + [tenant]
  }

  /** The place of the tenant's file in the order of opening; the end if it has none. */
  function Place(files: seq<string>, tenant: string): (p: nat)
    ensures p <= |files|
  {
    if files == [] || files[0] == tenant then 0 else 1 + Place(files[1..], tenant)
  }

  /** It is the first place at which the tenant is found. */
  lemma {:induction false} PlaceFinds(files: seq<string>, tenant: string)
    ensures var p := Place(files, tenant);
            && (p < |files| <==> tenant in files) && (p < |files| ==> files[p] == tenant)
            && forall k :: 0 <= k < p ==> files[k] != tenant
  {
    if files != [] && files[0] != tenant {
      PlaceFinds(files[1..], tenant);
      assert files == [files[0]] + files[1..];
    }
  }

  function AfterIngest(s: State, tenant: string, agent: string, eraseAfter: int, putOk: bool): State {
    var id := |s.convs|;
    var conv := Conversation(tenant, agent, ConsentLogged, None, false, None, eraseAfter, None);
    var s := s.(files := Opening(s.files, tenant));
    if putOk
    then s.(convs := s.convs + [conv.(stage := AudioUploaded)], audio := s.audio + {id},
            bus := s.bus + {(RawUploaded, id)})
    else s.(convs := s.convs + [conv])
  }

  function AfterExtract(s: State, c: nat, result: Option<Extraction>): State
    requires c < |s.convs|
  {
    if !CanMove(s, c, Extracting) then s
    else
      var moved := Move(s, c, Extracting);
      if result.None? then moved
      else
        moved.(convs := moved.convs[c := moved.convs[c].(extraction := result,
                                                         needsVerification := NeedsHuman(s.threshold, result.value))],
               bus := s.bus + {(InsightExtracted, c)},
               log := s.log + [Stored(c, result.value)])
  }

  function AfterSend(s: State, slot: Slot, answer: Answer): State
    requires slot in s.outbox
  {
    var row := s.outbox[slot];
    if answer.reply == NoClient then s.(outbox := s.outbox[slot := row.(status := Skipped)])
    else
      var attempts := row.attempts + 1;
      var ok := answer.reply == Accepted;
      var sent := s.(log := s.log + [SentOut(slot.0, slot.1, row.key, row.payload, ok)]);
      if ok then sent.(outbox := s.outbox[slot := row.(status := Delivered, attempts := attempts)])
      else if attempts > MAX_ATTEMPTS then
        sent.(outbox := s.outbox - {slot},
              dlq := s.dlq + [DeadRow(slot.0, slot.1, attempts, row.key, row.payload)],
              log := sent.log + [DeadLettered(slot.0, slot.1)])
      else
        sent.(outbox := s.outbox[slot := row.(status := Failed, attempts := attempts,
                                              retryAt := answer.at + Backoff(attempts))])
  }

  function Addressed(p: Payload, to: string): Payload {
    if to != "" && p.Message? then p.(to := to) else p
  }

  function AfterVerify(s: State, c: nat, who: string, to: string, at: int): State
    requires c < |s.convs|
  {
    var told := s.(convs := s.convs[c := s.convs[c].(needsVerification := false, verifiedBy := Some(who))],
                   log := s.log + [Verified(c, who)]);
    var slot := (c, WhatsApp);
    if slot in s.outbox && s.outbox[slot].status == Held
    then told.(outbox := s.outbox[slot := s.outbox[slot].(status := Pending, retryAt := at,
                                                          payload := Addressed(s.outbox[slot].payload, to))])
    else told
  }

  /** Past its deadline, not yet erased, not terminal. */
  predicate Erasable(s: State, c: nat, now: int) {
    && c < |s.convs| && s.convs[c].erasedAt.None? && s.convs[c].eraseAfter <= now
    && !Terminal(s.convs[c].stage)
  }

  predicate Ready(row: Row) {
    row.status == Pending || row.status == Failed
  }

  predicate Enabled(s: State, step: Step) {
    match step
    case Provision(_) => true
    case Ingest(_, _, _, _) => true
    case Transcribe(c, _) => c < |s.convs| && (RawUploaded, c) in s.bus
    case Extract(c, _) => c < |s.convs| && (TranscriptReady, c) in s.bus
    case Open(c, _, writes) => c < |s.convs| && (InsightExtracted, c) in s.bus && writes <= |Channels|
    case Send(slot, _) => slot in s.outbox && Ready(s.outbox[slot])
    case Verify(c, _, _, _) => c < |s.convs|
    case Erase(c, now, _) => Erasable(s, c, now)
    case Sweep(c, _, _) => c < |s.convs| && !Terminal(s.convs[c].stage)
  }

  function Do(s: State, step: Step): State
    requires Enabled(s, step)
  {
    match step
    case Provision(tenant) => s.(files := Opening(s.files, tenant))
    case Ingest(tenant, agent, eraseAfter, putOk) => AfterIngest(s, tenant, agent, eraseAfter, putOk)
    case Transcribe(c, ok) =>
      if !CanMove(s, c, Transcribing) then s
      else
        var moved := Move(s, c, Transcribing);
        if ok && c in s.audio then moved.(bus := s.bus + {(TranscriptReady, c)}) else moved
    case Extract(c, result) => AfterExtract(s, c, result)
    case Open(c, at, writes) =>
      if !CanMove(s, c, Dispatching) then s
      else InsertRows(Move(s, c, Dispatching), c, Channels[..writes], at)
    case Send(slot, answer) => AfterSend(s, slot, answer)
    case Verify(c, who, to, at) => AfterVerify(s, c, who, to, at)
    case Erase(c, now, deleted) =>
      if !deleted then s
      else Close(Dropped(s, c, true), c, if s.convs[c].stage == Dispatching then Purged else ErrorPurged, now)
    case Sweep(c, now, deleted) => Close(Dropped(s, c, deleted), c, ErrorPurged, now)
  }

  predicate Legal(s: State, steps: seq<Step>)
    decreases |steps|
  {
    steps == [] || (Enabled(s, steps[0]) && Legal(Do(s, steps[0]), steps[1..]))
  }

  function Run(s: State, steps: seq<Step>): State
    requires Legal(s, steps)
    decreases |steps|
  {
    if steps == [] then s else Run(Do(s, steps[0]), steps[1..])
  }

  lemma {:induction false} RunSplits(s: State, a: seq<Step>, b: seq<Step>)
    ensures Legal(s, a + b) <==> Legal(s, a) && Legal(Run(s, a), b)
    ensures Legal(s, a + b) ==> Run(s, a + b) == Run(Run(s, a), b)
    decreases |a|
  {
    if a == [] {
      assert a + b == b;
    } else {
      assert (a + b)[0] == a[0] && (a + b)[1..] == a[1..] + b;
      if Enabled(s, a[0]) {
        RunSplits(Do(s, a[0]), a[1..], b);
      }
    }
  }

  /* ----- batches ----- */

  function Sends(slots: seq<Slot>, world: nat -> Answer): (r: seq<Step>)
    ensures |r| == |slots|
    ensures forall i :: 0 <= i < |r| ==> r[i] == Send(slots[i], world(i))
  {
    seq(|slots|, i requires 0 <= i < |slots| => Send(slots[i], world(i)))
  }

  /** Every slot of conversations below `n`, channels in name order. */
  function AllSlots(n: nat): seq<Slot> {
    if n == 0 then [] else AllSlots(n - 1) + [(n - 1, Push), (n - 1, WhatsApp), (n - 1, Zoho)]
  }

  function Filter(slots: seq<Slot>, p: Slot -> bool): (r: seq<Slot>)
    ensures forall x :: x in r <==> x in slots && p(x)
    ensures |r| <= |slots|
  {
    if slots == [] then [] else
      var rest := Filter(slots[1..], p);
      assert forall x :: x in slots <==> x == slots[0] || x in slots[1..];
      if p(slots[0]) then [slots[0]] + rest else rest
  }

  /** The conversation's rows that are pending right now. */
  function PendingOf(s: State, c: nat): seq<Slot> {
    Filter([(c, Push), (c, WhatsApp), (c, Zoho)], (x: Slot) => x in s.outbox && s.outbox[x].status == Pending)
  }

  function RetryAt(s: State, x: Slot): int {
    if x in s.outbox then s.outbox[x].retryAt else 0
  }

  /** The place of the conversation's file, and of all its rows. */
  function FileOf(s: State, c: nat): nat {
    if c < |s.convs| then Place(s.files, s.convs[c].tenant) else |s.files|
  }

  predicate DueSlot(s: State, x: Slot, now: int) {
    x.0 < |s.convs| && x in s.outbox && Ready(s.outbox[x]) && s.outbox[x].retryAt <= now
  }

  /** The due rows of file `f`, as its query orders them. */
  function DueSlotsIn(s: State, f: nat, now: int): seq<Slot> {
    Sort(Filter(AllSlots(|s.convs|), (x: Slot) => FileOf(s, x.0) == f && DueSlot(s, x, now)),
         (a, b) => RetryAt(s, a) <= RetryAt(s, b))
  }

  function DueSlotFiles(s: State, now: int): nat -> seq<Slot> {
    (f: nat) => DueSlotsIn(s, f, now)
  }

  function CutSlotFiles(s: State, now: int, limit: nat): nat -> seq<Slot> {
    (f: nat) => Limit(DueSlotsIn(s, f, now), limit)
  }

  /** At most `limit` rows of each file, one file after the other, and `limit` of these. */
  function RoutingBatch(s: State, now: int, limit: nat): seq<Slot> {
    Limit(Concat(|s.files|, CutSlotFiles(s, now, limit)), limit)
  }

  function EraseAfter(s: State, c: nat): int {
    if c < |s.convs| then s.convs[c].eraseAfter else 0
  }

  function DueErasures(s: State, now: int): seq<nat> {
    Where(|s.convs|, (c: nat) => Erasable(s, c, now))
  }

  /** The due conversations of file `f`, as its query orders them. */
  function DueErasuresIn(s: State, f: nat, now: int): seq<nat> {
    Sort(Where(|s.convs|, (c: nat) => FileOf(s, c) == f && Erasable(s, c, now)),
         (a, b) => EraseAfter(s, a) <= EraseAfter(s, b))
  }

  function DueErasureFiles(s: State, now: int): nat -> seq<nat> {
    (f: nat) => DueErasuresIn(s, f, now)
  }

  function CutErasureFiles(s: State, now: int, limit: nat): nat -> seq<nat> {
    (f: nat) => Limit(DueErasuresIn(s, f, now), limit)
  }

  /** Likewise. */
  function ErasureBatch(s: State, now: int, limit: nat): seq<nat> {
    Limit(Concat(|s.files|, CutErasureFiles(s, now, limit)), limit)
  }

  function Erasures(batch: seq<nat>, now: int, world: nat -> bool): (r: seq<Step>)
    ensures |r| == |batch|
    ensures forall i :: 0 <= i < |r| ==> r[i] == Erase(batch[i], now, world(batch[i]))
  {
    seq(|batch|, i requires 0 <= i < |batch| => Erase(batch[i], now, world(batch[i])))
  }
}
