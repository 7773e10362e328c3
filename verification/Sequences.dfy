/** Per-resource event sequences of the transactional outbox, and the consumer rule they
    exist for. */
module Sequences {
  import opened Basics
  import opened Ledger

  function Of(events: seq<Event>, r: Resource): seq<Event> {
    if events == [] then [] else
      var last := events[|events| - 1];
      Of(events[..|events| - 1], r) + if (last.tenant, last.resource) == r then [last] else []
  }

  /** The events of every resource carry 1, 2, ... in commit order, up to its counter. */
  ghost predicate Numbered(s: State) {
    forall r: Resource ::
      && |Of(s.events, r)| == SequenceOf(s, r)
      && forall j :: 0 <= j < |Of(s.events, r)| ==> Of(s.events, r)[j].sequence == j + 1
  }

  /** A stored insight has at least one committed event. */
  ghost predicate Announced(s: State) {
    forall r: Resource :: r in s.insights ==> SequenceOf(s, r) >= 1
  }

  lemma {:induction false} OfAfterMark(events: seq<Event>, v: nat, r: Resource)
    requires v < |events|
    ensures var events' := events[v := events[v].(fannedOut := true)];
            && |Of(events', r)| == |Of(events, r)|
            && forall j :: 0 <= j < |Of(events, r)| ==> Of(events', r)[j].sequence == Of(events, r)[j].sequence
    decreases |events|
  {
    var n := |events| - 1;
    var events' := events[v := events[v].(fannedOut := true)];
    if v == n {
      assert events'[..n] == events[..n];
    } else {
      assert events'[..n] == events[..n][v := events[v].(fannedOut := true)];
      OfAfterMark(events[..n], v, r);
    }
  }

  lemma CommitKeepsNumbers(s: State, tenant: string, conversation: string, doc: string, kind: string, at: int)
    requires Numbered(s)
    ensures Numbered(AfterCommit(s, tenant, conversation, doc, kind, at))
  {
    var s' := AfterCommit(s, tenant, conversation, doc, kind, at);
    forall r: Resource
      ensures |Of(s'.events, r)| == SequenceOf(s', r)
      ensures forall j :: 0 <= j < |Of(s'.events, r)| ==> Of(s'.events, r)[j].sequence == j + 1
    {
    }
  }

  lemma MarkKeepsNumbers(s: State, v: nat)
    requires Numbered(s) && v < |s.events|
    ensures Numbered(Do(s, Mark(v)))
  {
    var s' := Do(s, Mark(v));
    forall r: Resource
      ensures |Of(s'.events, r)| == SequenceOf(s', r)
      ensures forall j :: 0 <= j < |Of(s'.events, r)| ==> Of(s'.events, r)[j].sequence == j + 1
    {
      OfAfterMark(s.events, v, r);
    }
  }

  lemma StepKeepsNumbers(s: State, step: Step)
    requires Numbered(s) && Announced(s) && Enabled(s, step)
    ensures Numbered(Do(s, step)) && Announced(Do(s, step))
  {
    match step {
      case Commit(tenant, conversation, doc, kind, at) =>
        CommitKeepsNumbers(s, tenant, conversation, doc, kind, at);
      case Mark(v) => MarkKeepsNumbers(s, v);
      case _ => assert Do(s, step).events == s.events && Do(s, step).sequences == s.sequences;
    }
  }

  lemma {:induction false} RunKeepsNumbers(s: State, steps: seq<Step>)
    requires Numbered(s) && Announced(s) && Legal(s, steps)
    ensures Numbered(Run(s, steps)) && Announced(Run(s, steps))
    decreases |steps|
  {
    if steps != [] {
      StepKeepsNumbers(s, steps[0]);
      RunKeepsNumbers(Do(s, steps[0]), steps[1..]);
    }
  }

  /** A consumer that keeps, for one resource, the highest sequence it has seen. */
  function Consume(held: Option<Event>, arrivals: seq<Event>): Option<Event>
    decreases |arrivals|
  {
    if arrivals == [] then held
    else if held.None? || arrivals[0].sequence > held.value.sequence then Consume(Some(arrivals[0]), arrivals[1..])
    else Consume(held, arrivals[1..])
  }

  lemma {:induction false} ConsumerHoldsTheHighest(held: Option<Event>, arrivals: seq<Event>)
    ensures var r := Consume(held, arrivals);
            && (forall a :: a in arrivals ==> r.Some? && r.value.sequence >= a.sequence)
            && (held.Some? ==> r.Some? && r.value.sequence >= held.value.sequence)
            && (r.Some? ==> r == held || r.value in arrivals)
    decreases |arrivals|
  {
    if arrivals != [] {
      var next := if held.None? || arrivals[0].sequence > held.value.sequence then Some(arrivals[0]) else held;
      ConsumerHoldsTheHighest(next, arrivals[1..]);
    }
  }

  /** Delivered in any order and any number of times, a resource's events leave the consumer
      on the last committed one as soon as that one has arrived. */
  lemma ConsumerEndsOnTheLastEvent(steps: seq<Step>, r: Resource, arrivals: seq<Event>)
    requires Legal(Empty, steps)
    requires var events := Of(Run(Empty, steps).events, r);
             && events != [] && (forall a :: a in arrivals ==> a in events)
             && events[|events| - 1] in arrivals
    ensures var s := Run(Empty, steps);
            var events := Of(s.events, r);
            && Consume(None, arrivals) == Some(events[|events| - 1])
            && events[|events| - 1].sequence == SequenceOf(s, r)
  {
    RunKeepsNumbers(Empty, steps);
    var s := Run(Empty, steps);
    var events := Of(s.events, r);
    var last := events[|events| - 1];
    ConsumerHoldsTheHighest(None, arrivals);
    var held := Consume(None, arrivals);
    assert held.Some? && held.value in arrivals && held.value.sequence >= last.sequence;
    assert held.value in events;
    var j :| 0 <= j < |events| && events[j] == held.value;
    assert events[j].sequence == j + 1 && last.sequence == |events|;
  }
}
