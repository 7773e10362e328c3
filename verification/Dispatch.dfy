/** The store's delivery tables and the webhook dispatcher as the objects they are: each
    method is proved to perform exactly the steps of `Ledger` it stands for. */
module Dispatch {
  import opened Basics
  import opened Sorting
  import opened Ledger
  import opened LedgerSafety
  import opened LedgerAnswers
  import opened FanOut

  class Store {
    var insights: map<Resource, string>
    var sequences: map<Resource, nat>
    var events: seq<Event>
    var endpoints: seq<Endpoint>
    var rows: seq<Delivery>
    /** The posts made so far; no column, but what the outside world has seen. */
    var wire: seq<Post>

    constructor ()
      ensures View() == Empty
    {
      insights, sequences, events, endpoints, rows, wire := map[], map[], [], [], [], [];
    }

    function View(): State
      reads this
    {
      State(insights, sequences, events, endpoints, rows, wire)
    }

    method SaveInsightWithEvent(tenant: string, conversation: string, doc: string, kind: string, at: int)
      returns (event: nat)
      modifies this
      ensures View() == Do(old(View()), Commit(tenant, conversation, doc, kind, at))
      ensures var r := (tenant, conversation);
              var number := if r in old(sequences) then old(sequences)[r] + 1 else 1;
              && insights == old(insights)[r := doc] && sequences == old(sequences)[r := number]
              && events == old(events) + [Event(tenant, kind, conversation, number, at, false)]
      ensures event == old(|events|)
    {
      var r := (tenant, conversation);
      insights := insights[r := doc];
      sequences := sequences[r := if r in sequences then sequences[r] + 1 else 1];
      event := |events|;
      events := events + [Event(tenant, kind, conversation, sequences[r], at, false)];
    }

    method DeleteConversation(tenant: string, conversation: string) returns (found: bool)
      modifies this
      ensures View() == Do(old(View()), Wipe(tenant, conversation))
      ensures found == ((tenant, conversation) in old(insights))
      ensures insights == old(insights) - {(tenant, conversation)}
      ensures sequences == old(sequences) && events == old(events)
    {
      found := (tenant, conversation) in insights;
      insights := insights - {(tenant, conversation)};
    }

    method UnfannedEvents(limit: nat) returns (batch: seq<nat>)
      ensures batch == UnfannedBatch(View(), limit)
      ensures Distinct(batch) && forall v :: v in batch ==> v < |events| && !events[v].fannedOut
      ensures |batch| == if |Unfanned(View())| <= limit then |Unfanned(View())| else limit
      ensures forall v: nat :: v < |events| && !events[v].fannedOut && v !in batch ==>
                |batch| == limit && forall k :: 0 <= k < limit ==> OccurredAt(View(), batch[k]) <= events[v].occurredAt
    {
      batch := UnfannedBatch(View(), limit);
      BatchIsUnfanned(View(), limit);
    }

    method MarkFannedOut(event: nat)
      requires event < |events|
      modifies this`events
      ensures View() == Do(old(View()), Mark(event))
      ensures events == old(events)[event := old(events)[event].(fannedOut := true)]
    {
      events := events[event := events[event].(fannedOut := true)];
    }

    method AddWebhook(tenant: string, sink: bool, topics: set<string>) returns (id: nat)
      modifies this
      ensures View() == Do(old(View()), Register(tenant, sink, topics))
      ensures id == old(|endpoints|) && endpoints == old(endpoints) + [Endpoint(tenant, sink, topics, true)]
    {
      id := |endpoints|;
      endpoints := endpoints + [Endpoint(tenant, sink, topics, true)];
    }

    method GetEndpoint(tenant: string, id: nat) returns (r: Option<Endpoint>)
      ensures r.Some? <==> id < |endpoints| && endpoints[id].tenant == tenant
      ensures r.Some? ==> r.value == endpoints[id]
    {
      r := if id < |endpoints| && endpoints[id].tenant == tenant then Some(endpoints[id]) else None;
    }

    method GetEvent(tenant: string, id: nat) returns (r: Option<Event>)
      ensures r.Some? <==> id < |events| && events[id].tenant == tenant
      ensures r.Some? ==> r.value == events[id]
    {
      r := if id < |events| && events[id].tenant == tenant then Some(events[id]) else None;
    }

    /** Active endpoints of the event's tenant that subscribe to it. */
    method EndpointsFor(event: nat) returns (r: seq<nat>)
      ensures r == Subscribers(View(), event)
      ensures Distinct(r)
      ensures forall e: nat :: e in r <==>
                && e < |endpoints| && event < |events|
                && endpoints[e].active && endpoints[e].tenant == events[event].tenant
                && ("*" in endpoints[e].topics || events[event].kind in endpoints[e].topics)
    {
      r := Subscribers(View(), event);
    }

    method SetEndpointDisabled(tenant: string, id: nat) returns (found: bool)
      modifies this
      ensures View() == Do(old(View()), Disable(tenant, id))
      ensures found == (id < |old(endpoints)| && old(endpoints)[id].tenant == tenant)
      ensures endpoints == if found then old(endpoints)[id := old(endpoints)[id].(active := false)] else old(endpoints)
    {
      found := id < |endpoints| && endpoints[id].tenant == tenant;
      if found {
        endpoints := endpoints[id := endpoints[id].(active := false)];
      }
    }

    /** Inserts unless the endpoint already has a row for the event. */
    method CreateDelivery(endpoint: nat, event: nat, dueAt: real)
      requires Enabled(View(), Create(endpoint, event, dueAt))
      modifies this`rows
      ensures View() == Do(old(View()), Create(endpoint, event, dueAt))
      ensures var was := old(rows);
              rows == if exists i :: 0 <= i < |was| && was[i].endpoint == endpoint && was[i].event == event then was
                      else was + [Delivery(events[event].tenant, endpoint, event, 0, Pending, dueAt)]
    {
      if !HasRow(rows, endpoint, event) {
        rows := rows + [Delivery(events[event].tenant, endpoint, event, 0, Pending, dueAt)];
      }
    }

    method DueDeliveries(now: real, limit: nat) returns (batch: seq<nat>)
      ensures batch == DueBatch(View(), now, limit)
      ensures Distinct(batch)
      ensures |batch| == if |Due(View(), now)| <= limit then |Due(View(), now)| else limit
      ensures forall k :: 0 <= k < |batch| ==>
                batch[k] < |rows| && InFlight(rows[batch[k]]) && rows[batch[k]].dueAt <= now
      ensures forall i: nat :: i < |rows| && (rows[i].status == Pending || rows[i].status == Retrying)
                               && rows[i].dueAt <= now && i !in batch ==>
                |batch| == limit && forall k :: 0 <= k < limit ==> rows[batch[k]].dueAt <= rows[i].dueAt
    {
      batch := DueBatch(View(), now, limit);
      DueBatchIsDue(View(), now, limit);
    }

    method MarkDelivery(id: nat, status: Status, attempt: nat, dueAt: real)
      requires id < |rows|
      modifies this`rows
      ensures rows == old(rows)[id := old(rows)[id].(status := status, attempt := attempt, dueAt := dueAt)]
    {
      rows := rows[id := rows[id].(status := status, attempt := attempt, dueAt := dueAt)];
    }

    /** Walks the endpoint's settled deliveries from the newest until one is not dead. */
    method ConsecutiveDead(endpoint: nat) returns (n: nat)
      ensures n == DeadTail(rows, endpoint)
      ensures n == |FreshDead(rows, endpoint)|
    {
      var settled := SettledOf(rows, endpoint);
      SettledTail(rows, endpoint);
      n := 0;
      var i := |settled|;
      assert settled[..i] == settled;
      while i > 0
        invariant 0 <= i <= |settled|
        invariant n + TailOf(settled[..i]) == TailOf(settled)
      {
        i := i - 1;
        assert settled[..i + 1][..i] == settled[..i];
        if settled[i] != Dead {
          break;
        }
        n := n + 1;
      }
      DeadTailCounts(rows, endpoint);
    }

    /** Re-arms the tenant's dead rows, of one endpoint or of all; returns how many. */
    method ReplayDead(tenant: string, now: real, only: Option<nat>) returns (n: nat)
      modifies this`rows
      ensures View() == Do(old(View()), Replay(tenant, now, only))
      ensures |rows| == |old(rows)| && n == |DeadRows(old(rows), tenant, only)|
      ensures forall i: nat :: i < |rows| ==>
                rows[i] == if i in DeadRows(old(rows), tenant, only)
                           then old(rows)[i].(status := Pending, attempt := 0, dueAt := now) else old(rows)[i]
    {
      ReplayCounts(rows, tenant, only);
      ReplayRearms(rows, tenant, now, only);
      n := ReplayCount(rows, tenant, only);
      rows := ReplayRows(rows, tenant, now, only);
    }
  }

  /** Statuses of an endpoint's settled deliveries, oldest first. */
  function SettledOf(rows: seq<Delivery>, endpoint: nat): seq<Status> {
    if rows == [] then [] else
      var last := rows[|rows| - 1];
      var before := SettledOf(rows[..|rows| - 1], endpoint);
      if last.endpoint == endpoint && (last.status == Dead || last.status == Delivered)
      then before + [last.status] else before
  }

  function TailOf(settled: seq<Status>): nat {
    if settled == [] || settled[|settled| - 1] != Dead then 0 else TailOf(settled[..|settled| - 1]) + 1
  }

  lemma {:induction false} SettledTail(rows: seq<Delivery>, endpoint: nat)
    ensures TailOf(SettledOf(rows, endpoint)) == DeadTail(rows, endpoint)
  {
    if rows != [] {
      var n := |rows| - 1;
      SettledTail(rows[..n], endpoint);
      var before := SettledOf(rows[..n], endpoint);
      assert (before + [rows[n].status])[..|before|] == before;
    }
  }

  /* ----- delivery of a batch ----- */

  /** The batch is due rows, each once, as many as there are or fit; and no due row is passed
      over for one that has waited less. */
  lemma DueBatchIsDue(s: State, now: real, limit: nat)
    ensures var batch := DueBatch(s, now, limit);
            && Distinct(batch)
            && |batch| == (if |Due(s, now)| <= limit then |Due(s, now)| else limit)
            && (forall k :: 0 <= k < |batch| ==>
                  batch[k] < |s.rows| && InFlight(s.rows[batch[k]]) && s.rows[batch[k]].dueAt <= now)
            && (forall i :: i in Due(s, now) && i !in batch ==>
                  |batch| == limit && forall k :: 0 <= k < |batch| ==> DueAt(s, batch[k]) <= DueAt(s, i))
  {
    FirstInOrder(Due(s, now), (a, b) => DueAt(s, a) <= DueAt(s, b), limit);
    var batch := DueBatch(s, now, limit);
    forall k | 0 <= k < |batch| ensures batch[k] in Due(s, now) {
      assert batch[k] in batch;
    }
  }

  /* ----- the dispatcher ----- */

  class Dispatcher {
    const store: Store

    constructor (store: Store)
      ensures this.store == store
    {
      this.store := store;
    }

    /** Turns unfanned events into rows for their subscribers; returns the inserts tried. */
    method FanOutPass(limit: nat, clock: Clock) returns (created: nat)
      modifies store
      ensures Legal(old(store.View()), FanOutSteps(old(store.View()), limit, clock))
      ensures store.View() == Run(old(store.View()), FanOutSteps(old(store.View()), limit, clock))
      ensures created + |UnfannedBatch(old(store.View()), limit)| == |FanOutSteps(old(store.View()), limit, clock)|
    {
      ghost var s := store.View();
      created := 0;
      var batch := store.UnfannedEvents(limit);
      BatchIsUnfanned(s, limit);
      var n := 0;
      while n < |batch|
        invariant 0 <= n <= |batch|
        invariant batch == UnfannedBatch(s, limit)
        invariant Legal(s, FanWrites(s, batch[..n], clock))
        invariant store.View() == Run(s, FanWrites(s, batch[..n], clock))
        invariant SameSubscribers(s, store.View())
        invariant created + n == |FanWrites(s, batch[..n], clock)|
      {
        var event := batch[n];
        assert event in batch;
        SubscribersAgree(s, store.View(), event);
        ghost var done := FanWrites(s, batch[..n], clock);
        var tried := FanOutEvent(event, clock, s, done);
        created := created + tried;
        assert batch[..n + 1][..n] == batch[..n];
        assert FanWrites(s, batch[..n + 1], clock) == done + Creates(Subscribers(s, event), event, clock) + [Mark(event)];
        n := n + 1;
      }
      assert batch[..n] == batch;
    }

    /** The rows of one event, then its mark. `s` is where the pass began, `done` its writes so far. */
    method FanOutEvent(event: nat, clock: Clock, ghost s: State, ghost done: seq<Step>) returns (tried: nat)
      requires event < |store.events| && SameSubscribers(s, store.View())
      requires Legal(s, done) && store.View() == Run(s, done)
      modifies store
      ensures var steps := done + Creates(Subscribers(s, event), event, clock) + [Mark(event)];
              Legal(s, steps) && store.View() == Run(s, steps)
      ensures SameSubscribers(s, store.View()) && tried == |Subscribers(s, event)|
    {
      SubscribersAgree(s, store.View(), event);
      var endpoints := store.EndpointsFor(event);
      tried := 0;
      ghost var steps := done;
      while tried < |endpoints|
        invariant 0 <= tried <= |endpoints|
        invariant event < |store.events| && SameSubscribers(s, store.View())
        invariant steps == done + Creates(endpoints[..tried], event, clock)
        invariant Legal(s, steps) && store.View() == Run(s, steps)
      {
        var e := endpoints[tried];
        WantedNow(s, store.View(), endpoints, tried, event);
        CreateRow(e, event, clock(e, event), s, steps);
        CreatesGrow(done, endpoints, tried, event, clock);
        steps := steps + [Create(e, event, clock(e, event))];
        tried := tried + 1;
      }
      assert endpoints[..tried] == endpoints;
      MarkEvent(event, s, steps);
    }

    method CreateRow(e: nat, event: nat, at: real, ghost s: State, ghost steps: seq<Step>)
      requires Enabled(store.View(), Create(e, event, at))
      requires Legal(s, steps) && store.View() == Run(s, steps)
      modifies store`rows
      ensures Legal(s, steps + [Create(e, event, at)])
      ensures store.View() == Run(s, steps + [Create(e, event, at)])
    {
      store.CreateDelivery(e, event, at);
      OneMore(s, steps, Create(e, event, at));
    }

    method MarkEvent(event: nat, ghost s: State, ghost steps: seq<Step>)
      requires event < |store.events| && Legal(s, steps) && store.View() == Run(s, steps)
      modifies store`events
      ensures Legal(s, steps + [Mark(event)]) && store.View() == Run(s, steps + [Mark(event)])
      ensures store.events == old(store.events)[event := old(store.events)[event].(fannedOut := true)]
    {
      store.MarkFannedOut(event);
      OneMore(s, steps, Mark(event));
    }

    /** Attempts every delivery whose retry timer has elapsed; returns how many. */
    method DeliverDue(now: real, limit: nat, world: nat -> Trial) returns (attempted: nat)
      modifies store
      ensures Legal(old(store.View()), DeliverSteps(old(store.View()), now, limit, world))
      ensures store.View() == Run(old(store.View()), DeliverSteps(old(store.View()), now, limit, world))
      ensures attempted == |DueBatch(old(store.View()), now, limit)|
    {
      ghost var s := store.View();
      attempted := 0;
      var batch := store.DueDeliveries(now, limit);
      var fetched := store.rows;
      ghost var steps := Attempts(batch, now, world);
      while attempted < |batch|
        invariant 0 <= attempted <= |batch| && |store.rows| == |fetched|
        invariant Legal(s, steps[..attempted])
        invariant store.View() == Run(s, steps[..attempted])
        invariant forall k :: attempted <= k < |batch| ==> store.rows[batch[k]] == fetched[batch[k]]
      {
        var id := batch[attempted];
        DeliverRow(id, fetched[id], now, world(attempted), s, steps[..attempted]);
        assert steps[..attempted] + [steps[attempted]] == steps[..attempted + 1];
        forall k | attempted < k < |batch| ensures store.rows[batch[k]] == fetched[batch[k]] {
          assert batch[k] != id;
        }
        attempted := attempted + 1;
      }
      assert steps[..attempted] == steps;
    }

    /** An attempt after the steps `done` of a pass begun in `s`. */
    method DeliverRow(id: nat, delivery: Delivery, now: real, t: Trial, ghost s: State, ghost done: seq<Step>)
      requires Legal(s, done) && store.View() == Run(s, done)
      requires Enabled(store.View(), Attempt(id, now, t)) && store.rows[id] == delivery
      modifies store
      ensures Legal(s, done + [Attempt(id, now, t)])
      ensures store.View() == Run(s, done + [Attempt(id, now, t)])
      ensures |store.rows| == |old(store.rows)|
      ensures forall j :: 0 <= j < |store.rows| && j != id ==> store.rows[j] == old(store.rows)[j]
    {
      AttemptOnlyTouchesItsRow(store.View(), id, now, t);
      AttemptRow(id, delivery, now, t);
      OneMore(s, done, Attempt(id, now, t));
    }

    /** One attempt at a row fetched from the due list. */
    method AttemptRow(id: nat, delivery: Delivery, now: real, t: Trial)
      requires id < |store.rows| && store.rows[id] == delivery
      modifies store
      ensures store.View() == AfterAttempt(old(store.View()), id, now, t)
      ensures FollowsAnswer(old(store.View()), id, now, t, store.View())
    {
      AttemptFollowsTheAnswer(store.View(), id, now, t);
      var endpoint := store.GetEndpoint(delivery.tenant, delivery.endpoint);
      var event := store.GetEvent(delivery.tenant, delivery.event);
      var attempt := delivery.attempt + 1;
      if endpoint.None? || event.None? || !endpoint.value.active {
        store.MarkDelivery(id, Blocked, attempt, 0.0);
        return;
      }
      if !(endpoint.value.sink || t.urlOk) {
        store.MarkDelivery(id, Blocked, attempt, 0.0);
        return;
      }
      store.wire := store.wire + [Post(id, attempt, now, t.endedAt, endpoint.value.sink || t.acked)];
      if endpoint.value.sink || t.acked {
        store.MarkDelivery(id, Delivered, attempt, 0.0);
      } else if attempt >= MAX_ATTEMPTS {
        store.MarkDelivery(id, Dead, attempt, 0.0);
        MaybeDisableEndpoint(delivery.tenant, delivery.endpoint);
      } else {
        store.MarkDelivery(id, Retrying, attempt, t.endedAt + Backoff(attempt, t.jitter));
      }
    }

    method MaybeDisableEndpoint(tenant: string, endpoint: nat)
      modifies store
      ensures store.View() == MaybeDisable(old(store.View()), tenant, endpoint)
      ensures var was := old(store.endpoints);
              store.endpoints
              == if |FreshDead(store.rows, endpoint)| >= 3 && endpoint < |was| && was[endpoint].tenant == tenant
                 then was[endpoint := was[endpoint].(active := false)] else was
    {
      var dead := store.ConsecutiveDead(endpoint);
      if dead >= AUTO_DISABLE_AFTER {
        var _ := store.SetEndpointDisabled(tenant, endpoint);
      }
    }

    /** A full turn: fan out, then deliver. From a safe state it leads to a safe state. */
    method RunOnce(now: real, clock: Clock, world: nat -> Trial) returns (fanned: nat, attempted: nat)
      modifies store
      ensures Legal(old(store.View()), FanOutSteps(old(store.View()), 100, clock))
      ensures var fanOut := FanOutSteps(old(store.View()), 100, clock);
              var mid := Run(old(store.View()), fanOut);
              && Legal(mid, DeliverSteps(mid, now, 100, world))
              && store.View() == Run(mid, DeliverSteps(mid, now, 100, world))
              && attempted == |DueBatch(mid, now, 100)| <= 100
              && fanned + |UnfannedBatch(old(store.View()), 100)| == |fanOut|
      ensures Inv(old(store.View())) ==> Inv(store.View())
    {
      ghost var s := store.View();
      fanned := FanOutPass(100, clock);
      ghost var mid := store.View();
      attempted := DeliverDue(now, 100, world);
      if Inv(s) {
        RunKeepsInv(s, FanOutSteps(s, 100, clock));
        RunKeepsInv(mid, DeliverSteps(mid, now, 100, world));
      }
    }
  }

  lemma OneMore(s: State, steps: seq<Step>, step: Step)
    requires Legal(s, steps) && Enabled(Run(s, steps), step)
    ensures Legal(s, steps + [step]) && Run(s, steps + [step]) == Do(Run(s, steps), step)
  {
    RunSplits(s, steps, [step]);
  }

  /** Nothing a fan-out changes decides who subscribes. */
  ghost predicate SameSubscribers(s: State, s': State) {
    && s'.endpoints == s.endpoints && |s'.events| == |s.events|
    && forall v :: 0 <= v < |s.events| ==>
         s'.events[v].tenant == s.events[v].tenant && s'.events[v].kind == s.events[v].kind
  }

  lemma CreatesGrow(done: seq<Step>, endpoints: seq<nat>, k: nat, event: nat, clock: Clock)
    requires k < |endpoints|
    ensures done + Creates(endpoints[..k + 1], event, clock)
            == done + Creates(endpoints[..k], event, clock) + [Create(endpoints[k], event, clock(endpoints[k], event))]
  {
  }

  lemma WantedNow(s: State, s': State, endpoints: seq<nat>, k: nat, event: nat)
    requires SameSubscribers(s, s') && endpoints == Subscribers(s, event) && k < |endpoints| && event < |s.events|
    ensures forall at :: Enabled(s', Create(endpoints[k], event, at))
  {
    assert endpoints[k] in endpoints;
  }

  lemma SubscribersAgree(s: State, s': State, event: nat)
    requires SameSubscribers(s, s')
    ensures Subscribers(s', event) == Subscribers(s, event)
  {
    WhereAgrees(|s.endpoints|, (e: nat) => Wanted(s, e, event), (e: nat) => Wanted(s', e, event));
  }

  lemma {:induction false} WhereAgrees(n: nat, p: nat -> bool, q: nat -> bool)
    requires forall i: nat :: i < n ==> p(i) == q(i)
    ensures Where(n, p) == Where(n, q)
  {
    if n > 0 {
      WhereAgrees(n - 1, p, q);
    }
  }
}
