/** The sliding-window limiter: a pruned bucket decides like the full history. */
module RateLimit {
  /** The timestamps still inside the window, in order. */
  function Prune(bucket: seq<real>, now: real, window: real): seq<real> {
    if bucket == [] then []
    else
      var rest := Prune(bucket[..|bucket| - 1], now, window);
      if now - bucket[|bucket| - 1] < window then rest + [bucket[|bucket| - 1]] else rest
  }

  class Limiter {
    const limit: int
    const window: real
    var buckets: map<string, seq<real>>

    constructor (limit: int, window: real)
      ensures this.limit == limit && this.window == window && buckets == map[]
    {
      this.limit, this.window, buckets := limit, window, map[];
    }

    /** Prunes the caller's bucket, then refuses or records the request. */
    method Request(key: string, now: real) returns (ok: bool)
      modifies this`buckets
      ensures ok == Decide(old(buckets), limit, window, key, now)
      ensures buckets == AfterRequest(old(buckets), limit, window, key, now)
    {
      var bucket := if key in buckets then buckets[key] else [];
      var kept: seq<real> := [];
      var i := 0;
      while i < |bucket|
        invariant 0 <= i <= |bucket| && kept == Prune(bucket[..i], now, window)
      {
        assert bucket[..i + 1][..i] == bucket[..i];
        if now - bucket[i] < window {
          kept := kept + [bucket[i]];
        }
        i := i + 1;
      }
      assert bucket[..i] == bucket;
      ok := |kept| < limit;
      buckets := buckets[key := if ok then kept + [now] else kept];
    }
  }

  function Bucket(buckets: map<string, seq<real>>, key: string): seq<real> {
    if key in buckets then buckets[key] else []
  }

  predicate Decide(buckets: map<string, seq<real>>, limit: int, window: real, key: string, now: real) {
    |Prune(Bucket(buckets, key), now, window)| < limit
  }

  function AfterRequest(buckets: map<string, seq<real>>, limit: int, window: real, key: string, now: real)
    : map<string, seq<real>>
  {
    var kept := Prune(Bucket(buckets, key), now, window);
    buckets[key := if |kept| < limit then kept + [now] else kept]
  }

  /* ----- the reference: never forget an accepted request ----- */

  function Recent(history: seq<real>, now: real, window: real): nat {
    if history == [] then 0
    else Recent(history[..|history| - 1], now, window) + if now - history[|history| - 1] < window then 1 else 0
  }

  function AfterReference(histories: map<string, seq<real>>, limit: int, window: real, key: string, now: real)
    : map<string, seq<real>>
  {
    var h := Bucket(histories, key);
    if Recent(h, now, window) < limit then histories[key := h + [now]] else histories
  }

  datatype Call = Call(key: string, at: real)

  /** The limiter's verdicts on a run of calls. */
  function Limited(buckets: map<string, seq<real>>, limit: int, window: real, calls: seq<Call>): (r: seq<bool>)
    ensures |r| == |calls|
    decreases |calls|
  {
    if calls == [] then []
    else [Decide(buckets, limit, window, calls[0].key, calls[0].at)]
         + Limited(AfterRequest(buckets, limit, window, calls[0].key, calls[0].at), limit, window, calls[1..])
  }

  /** The verdicts of a limiter that keeps every accepted request. */
  function Reference(histories: map<string, seq<real>>, limit: int, window: real, calls: seq<Call>): (r: seq<bool>)
    ensures |r| == |calls|
    decreases |calls|
  {
    if calls == [] then []
    else [Recent(Bucket(histories, calls[0].key), calls[0].at, window) < limit]
         + Reference(AfterReference(histories, limit, window, calls[0].key, calls[0].at), limit, window, calls[1..])
  }

  predicate Forward(calls: seq<Call>, from: real)
    decreases |calls|
  {
    calls == [] || (from <= calls[0].at && Forward(calls[1..], calls[0].at))
  }

  /** From `now` on, pruning the bucket and pruning the full history leave the same. */
  ghost predicate Simulates(bucket: seq<real>, history: seq<real>, window: real, now: real) {
    forall t :: now <= t ==> Prune(bucket, t, window) == Prune(history, t, window)
  }

  ghost predicate AllSimulate(buckets: map<string, seq<real>>, histories: map<string, seq<real>>, window: real, now: real) {
    forall key :: Simulates(Bucket(buckets, key), Bucket(histories, key), window, now)
  }

  lemma {:induction false} PruneTwice(h: seq<real>, t: real, now: real, window: real)
    requires t <= now
    ensures Prune(Prune(h, t, window), now, window) == Prune(h, now, window)
  {
    if h != [] {
      var n := |h| - 1;
      PruneTwice(h[..n], t, now, window);
      var rest := Prune(h[..n], t, window);
      if t - h[n] < window {
        assert (rest + [h[n]])[..|rest|] == rest;
      }
    }
  }

  lemma {:induction false} PruneCounts(h: seq<real>, now: real, window: real)
    ensures |Prune(h, now, window)| == Recent(h, now, window)
  {
    if h != [] { PruneCounts(h[..|h| - 1], now, window); }
  }

  lemma AppendSimulates(bucket: seq<real>, history: seq<real>, window: real, now: real)
    requires Simulates(bucket, history, window, now)
    ensures Simulates(Prune(bucket, now, window), history, window, now)
    ensures Simulates(Prune(bucket, now, window) + [now], history + [now], window, now)
  {
    var kept := Prune(bucket, now, window);
    forall t | now <= t
      ensures Prune(kept, t, window) == Prune(history, t, window)
      ensures Prune(kept + [now], t, window) == Prune(history + [now], t, window)
    {
      PruneTwice(bucket, now, t, window);
      assert (kept + [now])[..|kept|] == kept && (history + [now])[..|history|] == history;
    }
  }

  lemma StepSimulates(buckets: map<string, seq<real>>, histories: map<string, seq<real>>, limit: int, window: real,
                      before: real, key: string, now: real)
    requires before <= now && AllSimulate(buckets, histories, window, before)
    ensures Decide(buckets, limit, window, key, now) == (Recent(Bucket(histories, key), now, window) < limit)
    ensures AllSimulate(AfterRequest(buckets, limit, window, key, now),
                        AfterReference(histories, limit, window, key, now), window, now)
  {
    var b, h := Bucket(buckets, key), Bucket(histories, key);
    assert Simulates(b, h, window, before);
    PruneCounts(h, now, window);
    assert Prune(b, now, window) == Prune(h, now, window);
    AppendSimulates(b, h, window, now);
    var b', h' := AfterRequest(buckets, limit, window, key, now), AfterReference(histories, limit, window, key, now);
    forall k ensures Simulates(Bucket(b', k), Bucket(h', k), window, now) {
      assert Simulates(Bucket(buckets, k), Bucket(histories, k), window, before);
    }
  }

  /** On a clock that does not go back, the limiter decides every request of every caller
      exactly as if it had kept all accepted requests. */
  lemma {:induction false} DecidesLikeFullHistory(buckets: map<string, seq<real>>, histories: map<string, seq<real>>,
      limit: int, window: real, before: real, calls: seq<Call>)
    requires AllSimulate(buckets, histories, window, before) && Forward(calls, before)
    ensures Limited(buckets, limit, window, calls) == Reference(histories, limit, window, calls)
    decreases |calls|
  {
    if calls != [] {
      var c := calls[0];
      StepSimulates(buckets, histories, limit, window, before, c.key, c.at);
      DecidesLikeFullHistory(AfterRequest(buckets, limit, window, c.key, c.at),
                             AfterReference(histories, limit, window, c.key, c.at), limit, window, c.at, calls[1..]);
    }
  }

  /* ----- what the accepted requests look like ----- */

  /** In order, and any request and the one `limit` accepts later a full window apart. */
  ghost predicate Spaced(h: seq<real>, limit: int, window: real) {
    && (forall i, j :: 0 <= i < j < |h| ==> h[i] <= h[j])
    && (forall i, j :: 0 <= i < j < |h| && j == i + limit ==> h[j] - h[i] >= window)
  }

  lemma {:induction false} AllRecent(h: seq<real>, now: real, window: real, n: nat)
    requires n <= |h| && (forall i, j :: 0 <= i < j < |h| ==> h[i] <= h[j])
    requires n >= 1 ==> now - h[|h| - n] < window
    ensures Recent(h, now, window) >= n
    decreases n
  {
    if n > 0 {
      var m := |h| - 1;
      if n > 1 {
        assert h[..m][m - (n - 1)] == h[|h| - n];
      }
      AllRecent(h[..m], now, window, n - 1);
      assert h[|h| - n] <= h[m];
    }
  }

  lemma AcceptKeepsSpacing(h: seq<real>, limit: int, window: real, now: real)
    requires Spaced(h, limit, window) && (h != [] ==> h[|h| - 1] <= now)
    requires Recent(h, now, window) < limit
    ensures Spaced(h + [now], limit, window)
  {
    if |h| >= limit && now - h[|h| - limit] < window {
      AllRecent(h, now, window, limit);
    }
    assert forall i :: 0 <= i < |h| ==> h[i] <= now;
  }

  /** Spaced so far, and nothing accepted later than `now`. */
  ghost predicate SpacedUntil(h: seq<real>, limit: int, window: real, now: real) {
    Spaced(h, limit, window) && (h != [] ==> h[|h| - 1] <= now)
  }

  /** The times at which the caller's requests were granted. */
  function Granted(calls: seq<Call>, verdicts: seq<bool>, key: string): seq<real>
    requires |calls| == |verdicts|
  {
    if calls == [] then []
    else (if verdicts[0] && calls[0].key == key then [calls[0].at] else []) + Granted(calls[1..], verdicts[1..], key)
  }

  /** What the history and the grants to come make up together does not change as calls pass. */
  lemma HistoryMeetsGrants(histories: map<string, seq<real>>, limit: int, window: real, calls: seq<Call>, key: string)
    requires calls != []
    ensures var c := calls[0];
            var after := AfterReference(histories, limit, window, c.key, c.at);
            Bucket(histories, key) + Granted(calls, Reference(histories, limit, window, calls), key)
            == Bucket(after, key) + Granted(calls[1..], Reference(after, limit, window, calls[1..]), key)
  {
    var c := calls[0];
    var after := AfterReference(histories, limit, window, c.key, c.at);
  }

  lemma {:induction false} GrantsAreSpaced(histories: map<string, seq<real>>, limit: int, window: real, before: real,
                                           calls: seq<Call>, key: string)
    requires Forward(calls, before) && SpacedUntil(Bucket(histories, key), limit, window, before)
    ensures Spaced(Bucket(histories, key) + Granted(calls, Reference(histories, limit, window, calls), key), limit, window)
    decreases |calls|
  {
    var h := Bucket(histories, key);
    if calls == [] {
      assert h + [] == h;
    } else {
      var c := calls[0];
      var after := AfterReference(histories, limit, window, c.key, c.at);
      assert SpacedUntil(Bucket(after, key), limit, window, c.at) by {
        if c.key == key && Recent(h, c.at, window) < limit {
          AcceptKeepsSpacing(h, limit, window, c.at);
        }
      }
      HistoryMeetsGrants(histories, limit, window, calls, key);
      GrantsAreSpaced(after, limit, window, c.at, calls[1..], key);
    }
  }

  /** However many callers and calls, on a forward clock: each caller's granted requests are
      in order, and one and the request granted `limit` grants later are a window apart. */
  lemma LimiterSpacesGrants(limit: int, window: real, before: real, calls: seq<Call>, key: string)
    requires Forward(calls, before)
    ensures Spaced(Granted(calls, Limited(map[], limit, window, calls), key), limit, window)
  {
    var none: map<string, seq<real>> := map[];
    DecidesLikeFullHistory(none, none, limit, window, before, calls);
    GrantsAreSpaced(none, limit, window, before, calls, key);
    var granted := Granted(calls, Limited(none, limit, window, calls), key);
    assert Bucket(none, key) + granted == granted;
  }

  /** Grants `limit` or more apart are a window apart, so no window holds more than `limit`. */
  lemma NoBurst(h: seq<real>, limit: int, window: real, i: nat, j: nat)
    requires limit >= 1 && Spaced(h, limit, window) && i + limit <= j < |h|
    ensures h[j] - h[i] >= window
  {
    assert h[i + limit] - h[i] >= window;
  }
}
