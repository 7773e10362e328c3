/** The webhook outbox and delivery ledger as one value: the tables of the store that the
    dispatcher touches, the HTTP posts made so far, and every atomic step that changes them.
    Rows are named by their position in their table, as an autoincrement id names them. */
module Ledger {
  import opened Basics
  import opened Sorting

  const MAX_ATTEMPTS: nat := 5
  const AUTO_DISABLE_AFTER: nat := 3

  datatype Endpoint = Endpoint(tenant: string, sink: bool, topics: set<string>, active: bool)

  datatype Event = Event(tenant: string, kind: string, resource: string, sequence: nat,
                         occurredAt: int, fannedOut: bool)

  datatype Status = Pending | Retrying | Delivered | Dead | Blocked

  datatype Delivery = Delivery(tenant: string, endpoint: nat, event: nat, attempt: nat,
                               status: Status, dueAt: real)

  /** One HTTP post: for which row, as which attempt, pulled from the due list when, the clock
      reading after the consumer answered, and whether the answer was an acknowledgement. */
  datatype Post = Post(row: nat, attempt: nat, pulledAt: real, endedAt: real, acked: bool)

  /** The random factor drawn for a backoff. */
  type Jitter = j: real | 0.8 <= j <= 1.2 witness 1.0

  /** What the outside world does to one attempt. */
  datatype Trial = Trial(urlOk: bool, acked: bool, jitter: Jitter, endedAt: real)

  type Resource = (string, string)

  datatype State = State(insights: map<Resource, string>, sequences: map<Resource, nat>,
                         events: seq<Event>, endpoints: seq<Endpoint>, rows: seq<Delivery>,
                         wire: seq<Post>)

  const Empty := State(map[], map[], [], [], [], [])

  datatype Step =
    | Commit(tenant: string, conversation: string, doc: string, kind: string, occurredAt: int)
    | Wipe(tenant: string, conversation: string)
    | Register(tenant: string, sink: bool, topics: set<string>)
    | Create(endpoint: nat, event: nat, dueAt: real)
    | Mark(event: nat)
    | Attempt(row: nat, pulledAt: real, trial: Trial)
    | Replay(tenant: string, at: real, only: Option<nat>)
    | Disable(tenant: string, endpoint: nat)

  /* ----- backoff ----- */

  /** Seconds of the retry schedule after `attempt` failures, before jitter. */
  function BackoffBase(attempt: nat): real
    requires attempt >= 1
  {
    if attempt == 1 then 60.0 else if attempt == 2 then 300.0 else if attempt == 3 then 1800.0
    else if attempt == 4 then 7200.0 else 43200.0
  }

  function Backoff(attempt: nat, jitter: Jitter): real
    requires attempt >= 1
  {
    BackoffBase(attempt) * jitter
  }

  /* ----- reading the tables ----- */

  predicate InFlight(row: Delivery) {
    row.status == Pending || row.status == Retrying
  }

  function SequenceOf(s: State, r: Resource): nat {
    if r in s.sequences then s.sequences[r] else 0
  }

  predicate HasRow(rows: seq<Delivery>, endpoint: nat, event: nat) {
    exists i :: 0 <= i < |rows| && rows[i].endpoint == endpoint && rows[i].event == event
  }

  predicate Wanted(s: State, endpoint: nat, event: nat) {
    && endpoint < |s.endpoints| && event < |s.events|
    && s.endpoints[endpoint].tenant == s.events[event].tenant
    && s.endpoints[endpoint].active
    && ("*" in s.endpoints[endpoint].topics || s.events[event].kind in s.endpoints[endpoint].topics)
  }

  /** The endpoint and event of a row, looked up under the row's tenant, exist and the
      endpoint is active. */
  predicate Reachable(s: State, row: Delivery) {
    && row.endpoint < |s.endpoints| && s.endpoints[row.endpoint].tenant == row.tenant
    && row.event < |s.events| && s.events[row.event].tenant == row.tenant
    && s.endpoints[row.endpoint].active
  }

  /** How many of the endpoint's most recent settled deliveries are dead, in id order,
      back to its last success. */
  function DeadTail(rows: seq<Delivery>, endpoint: nat): nat {
    if rows == [] then 0 else
      var last := rows[|rows| - 1];
      var earlier := rows[..|rows| - 1];
      if last.endpoint != endpoint then DeadTail(earlier, endpoint)
      else if last.status == Dead then DeadTail(earlier, endpoint) + 1
      else if last.status == Delivered then 0
      else DeadTail(earlier, endpoint)
  }

  function OccurredAt(s: State, event: nat): int {
    if event < |s.events| then s.events[event].occurredAt else 0
  }

  function DueAt(s: State, row: nat): real {
    if row < |s.rows| then s.rows[row].dueAt else 0.0
  }

  function Unfanned(s: State): seq<nat> {
    Where(|s.events|, (v: nat) => v < |s.events| && !s.events[v].fannedOut)
  }

  /** Oldest events first, at most `limit`. */
  function UnfannedBatch(s: State, limit: nat): seq<nat> {
    Limit(Sort(Unfanned(s), (a, b) => OccurredAt(s, a) <= OccurredAt(s, b)), limit)
  }

  function Due(s: State, now: real): seq<nat> {
    Where(|s.rows|, (i: nat) => i < |s.rows| && InFlight(s.rows[i]) && s.rows[i].dueAt <= now)
  }

  /** Longest-waiting rows first, at most `limit`. */
  function DueBatch(s: State, now: real, limit: nat): seq<nat> {
    Limit(Sort(Due(s, now), (a, b) => DueAt(s, a) <= DueAt(s, b)), limit)
  }

  function Subscribers(s: State, event: nat): seq<nat> {
    Where(|s.endpoints|, (e: nat) => Wanted(s, e, event))
  }

  /* ----- steps ----- */

  function Settle(s: State, i: nat, status: Status, attempt: nat): State
    requires i < |s.rows|
  {
    s.(rows := s.rows[i := s.rows[i].(status := status, attempt := attempt, dueAt := 0.0)])
  }

  function Deactivate(s: State, tenant: string, endpoint: nat): State {
    if endpoint < |s.endpoints| && s.endpoints[endpoint].tenant == tenant
    then s.(endpoints := s.endpoints[endpoint := s.endpoints[endpoint].(active := false)])
    else s
  }

  function MaybeDisable(s: State, tenant: string, endpoint: nat): State {
    if DeadTail(s.rows, endpoint) >= AUTO_DISABLE_AFTER then Deactivate(s, tenant, endpoint) else s
  }

  function AfterAttempt(s: State, i: nat, pulledAt: real, t: Trial): State
    requires i < |s.rows|
  {
    var row := s.rows[i];
    var k := row.attempt + 1;
    if !Reachable(s, row) then Settle(s, i, Blocked, k)
    else
      var sink := s.endpoints[row.endpoint].sink;
      if !sink && !t.urlOk then Settle(s, i, Blocked, k)
      else
        var sent := s.(wire := s.wire + [Post(i, k, pulledAt, t.endedAt, sink || t.acked)]);
        if sink || t.acked then Settle(sent, i, Delivered, k)
        else if k >= MAX_ATTEMPTS then MaybeDisable(Settle(sent, i, Dead, k), row.tenant, row.endpoint)
        else sent.(rows := s.rows[i := row.(status := Retrying, attempt := k,
                                            dueAt := t.endedAt + Backoff(k, t.jitter))])
  }

  predicate Replayable(row: Delivery, tenant: string, only: Option<nat>) {
    row.status == Dead && row.tenant == tenant && (only.None? || row.endpoint == only.value)
  }

  function Rearmed(row: Delivery, tenant: string, at: real, only: Option<nat>): Delivery {
    if Replayable(row, tenant, only) then row.(status := Pending, attempt := 0, dueAt := at) else row
  }

  function ReplayRows(rows: seq<Delivery>, tenant: string, at: real, only: Option<nat>): (r: seq<Delivery>)
    ensures |r| == |rows|
    ensures forall i :: 0 <= i < |rows| ==> r[i] == Rearmed(rows[i], tenant, at, only)
  {
    seq(|rows|, i requires 0 <= i < |rows| => Rearmed(rows[i], tenant, at, only))
  }

  /** Insight, bumped sequence and outbox event, all in one transaction. */
  function AfterCommit(s: State, tenant: string, conversation: string, doc: string, kind: string, at: int): State {
    var r := (tenant, conversation);
    var seqNo := SequenceOf(s, r) + 1;
    s.(insights := s.insights[r := doc], sequences := s.sequences[r := seqNo],
       events := s.events + [Event(tenant, kind, conversation, seqNo, at, false)])
  }

  predicate Enabled(s: State, step: Step) {
    match step
    case Create(e, v, _) =>
      e < |s.endpoints| && v < |s.events| && s.endpoints[e].tenant == s.events[v].tenant
    case Mark(v) => v < |s.events|
    case Attempt(i, pulledAt, _) => i < |s.rows| && InFlight(s.rows[i]) && s.rows[i].dueAt <= pulledAt
    case _ => true
  }

  function Do(s: State, step: Step): State
    requires Enabled(s, step)
  {
    match step
    case Commit(tenant, conversation, doc, kind, at) => AfterCommit(s, tenant, conversation, doc, kind, at)
    case Wipe(tenant, conversation) => s.(insights := s.insights - {(tenant, conversation)})
    case Register(tenant, sink, topics) => s.(endpoints := s.endpoints + [Endpoint(tenant, sink, topics, true)])
    case Create(e, v, dueAt) =>
      if HasRow(s.rows, e, v) then s
      else s.(rows := s.rows + [Delivery(s.events[v].tenant, e, v, 0, Pending, dueAt)])
    case Mark(v) => s.(events := s.events[v := s.events[v].(fannedOut := true)])
    case Attempt(i, pulledAt, t) => AfterAttempt(s, i, pulledAt, t)
    case Replay(tenant, at, only) => s.(rows := ReplayRows(s.rows, tenant, at, only))
    case Disable(tenant, e) => Deactivate(s, tenant, e)
  }

  predicate Legal(s: State, steps: seq<Step>)
    decreases |steps|
  {
    steps == [] || (Enabled(s, steps[0]) && Legal(Do(s, steps[0]), steps[1..]))
  }

  function Run(s: State, steps: seq<Step>): State
    requires Legal(s, steps)
    decreases |steps|
  {
    if steps == [] then s else Run(Do(s, steps[0]), steps[1..])
  }

  /** A run may be cut anywhere. */
  lemma {:induction false} RunSplits(s: State, a: seq<Step>, b: seq<Step>)
    ensures Legal(s, a + b) <==> Legal(s, a) && Legal(Run(s, a), b)
    ensures Legal(s, a + b) ==> Run(s, a + b) == Run(Run(s, a), b)
    decreases |a|
  {
    if a == [] {
      assert a + b == b;
    } else {
      assert (a + b)[0] == a[0] && (a + b)[1..] == a[1..] + b;
      if Enabled(s, a[0]) {
        RunSplits(Do(s, a[0]), a[1..], b);
      }
    }
  }

  /* ----- the dispatcher's passes, as lists of steps ----- */

  /** The reading of the clock when the row of an endpoint and event is written. */
  type Clock = (nat, nat) -> real

  function Creates(endpoints: seq<nat>, event: nat, clock: Clock): (r: seq<Step>)
    ensures |r| == |endpoints|
    ensures forall i :: 0 <= i < |r| ==> r[i] == Create(endpoints[i], event, clock(endpoints[i], event))
  {
    seq(|endpoints|, i requires 0 <= i < |endpoints| => Create(endpoints[i], event, clock(endpoints[i], event)))
  }

  /** Every write of one fan-out pass, in order: the rows of an event, then its mark. */
  function FanWrites(s: State, batch: seq<nat>, clock: Clock): seq<Step> {
    if batch == [] then []
    else FanWrites(s, batch[..|batch| - 1], clock)
         + Creates(Subscribers(s, batch[|batch| - 1]), batch[|batch| - 1], clock)
         + [Mark(batch[|batch| - 1])]
  }

  function FanOutSteps(s: State, limit: nat, clock: Clock): seq<Step> {
    FanWrites(s, UnfannedBatch(s, limit), clock)
  }

  /** One attempt per row of the batch, answered by `world`. */
  function Attempts(batch: seq<nat>, now: real, world: nat -> Trial): (r: seq<Step>)
    ensures |r| == |batch|
    ensures forall i :: 0 <= i < |r| ==> r[i] == Attempt(batch[i], now, world(i))
  {
    seq(|batch|, i requires 0 <= i < |batch| => Attempt(batch[i], now, world(i)))
  }

  function DeliverSteps(s: State, now: real, limit: nat, world: nat -> Trial): seq<Step> {
    Attempts(DueBatch(s, now, limit), now, world)
  }
}
