/** The tamper-evident logs: the per-tenant audit chain and the consent chain, over an
    abstract hash. Nothing is assumed of the hash but what a lemma asks for. */
module HashChain {
  import opened Basics

  const SEP: char := '\U{1F}'
  /** The previous hash of a first entry: 64 zeros. */
  function Genesis(): (g: string)
    ensures |g| == 64 && forall i :: 0 <= i < 64 ==> g[i] == '0'
  {
    seq(64, i requires 0 <= i < 64 => '0')
  }

  type Hash = string -> string

  ghost predicate Collisionless(h: Hash) {
    forall x, y :: h(x) == h(y) ==> x == y
  }

  ghost predicate NeverGenesis(h: Hash) {
    forall x :: h(x) != Genesis()
  }

  predicate Clean(field: string) {
    SEP !in field
  }

  predicate AllClean(fields: seq<string>) {
    forall k :: 0 <= k < |fields| ==> Clean(fields[k])
  }

  /** What is hashed: the previous hash, then every field behind a separator. */
  function Material(prev: string, fields: seq<string>): string {
    if fields == [] then prev
    else Material(prev, fields[..|fields| - 1]) + [SEP] + fields[|fields| - 1]
  }

  method ChainHash(h: Hash, prev: string, fields: seq<string>) returns (digest: string)
    ensures digest == h(Material(prev, fields))
  {
    var fed := prev;
    var k := 0;
    while k < |fields|
      invariant 0 <= k <= |fields| && fed == Material(prev, fields[..k])
    {
      assert fields[..k + 1][..k] == fields[..k];
      fed := fed + [SEP] + fields[k];
      k := k + 1;
    }
    assert fields[..k] == fields;
    digest := h(fed);
  }

  lemma LastSeparator(a: string, x: string, b: string, y: string)
    requires a + [SEP] + x == b + [SEP] + y && Clean(x) && Clean(y)
    ensures a == b && x == y
  {
    var s := a + [SEP] + x;
    assert s[|a|] == SEP && s[|b|] == SEP;
    assert forall k :: |a| < k < |s| ==> s[k] == x[k - |a| - 1];
    assert forall k :: |b| < k < |s| ==> s[k] == y[k - |b| - 1];
    assert |a| == |b|;
    assert a == s[..|a|] && b == s[..|b|];
    assert x == s[|a| + 1..] && y == s[|b| + 1..];
  }

  /** Equally many separator-free fields can be read back from the hashed material. */
  lemma {:induction false} MaterialIsInjective(p: string, f: seq<string>, q: string, g: seq<string>)
    requires |f| == |g| && AllClean(f) && AllClean(g) && Material(p, f) == Material(q, g)
    ensures p == q && f == g
  {
    if f != [] {
      var n := |f| - 1;
      LastSeparator(Material(p, f[..n]), f[n], Material(q, g[..n]), g[n]);
      MaterialIsInjective(p, f[..n], q, g[..n]);
      assert f == f[..n] + [f[n]] && g == g[..n] + [g[n]];
    }
  }

  /* ----- a chain of links ----- */

  /** One entry as the verifier sees it. */
  datatype Link = Link(fields: seq<string>, prev: string, hash: string)

  function HashBefore(log: seq<Link>, i: nat): string
    requires i <= |log|
  {
    if i == 0 then Genesis() else log[i - 1].hash
  }

  function LastHash(log: seq<Link>): string {
    HashBefore(log, |log|)
  }

  predicate LinkOk(h: Hash, before: string, link: Link) {
    link.prev == before && link.hash == h(Material(before, link.fields))
  }

  /** Entry `i` continues the chain. */
  predicate LinkAt(h: Hash, log: seq<Link>, i: nat)
    requires i < |log|
  {
    LinkOk(h, HashBefore(log, i), log[i])
  }

  ghost predicate Verifies(h: Hash, log: seq<Link>) {
    forall i :: 0 <= i < |log| ==> LinkAt(h, log, i)
  }

  /** Position of the first entry from `i` on that does not fit, if any. */
  function FirstBadFrom(h: Hash, log: seq<Link>, i: nat): (r: Option<nat>)
    requires i <= |log|
    ensures r.None? <==> forall k :: i <= k < |log| ==> LinkAt(h, log, k)
    ensures r.Some? ==> i <= r.value < |log| && !LinkAt(h, log, r.value)
    ensures r.Some? ==> forall k :: i <= k < r.value ==> LinkAt(h, log, k)
    decreases |log| - i
  {
    if i == |log| then None
    else if !LinkAt(h, log, i) then Some(i)
    else FirstBadFrom(h, log, i + 1)
  }

  function FirstBad(h: Hash, log: seq<Link>): (r: Option<nat>)
    ensures r.None? <==> Verifies(h, log)
  {
    FirstBadFrom(h, log, 0)
  }

  ghost predicate WellFormed(log: seq<Link>, arity: nat) {
    forall i :: 0 <= i < |log| ==> |log[i].fields| == arity && AllClean(log[i].fields)
  }

  lemma PrefixVerifies(h: Hash, log: seq<Link>, n: nat)
    requires Verifies(h, log) && n <= |log|
    ensures Verifies(h, log[..n])
  {
    forall i | 0 <= i < n ensures LinkAt(h, log[..n], i) {
      assert LinkAt(h, log, i);
    }
  }

  lemma NonEmptyIsPastGenesis(h: Hash, log: seq<Link>)
    requires NeverGenesis(h) && Verifies(h, log) && log != []
    ensures LastHash(log) != Genesis()
  {
    assert LinkAt(h, log, |log| - 1);
  }

  /** Two verified logs with the same last hash are the same log: whoever remembers one hash
      can tell any rewriting, insertion, deletion or truncation. */
  lemma {:induction false} LastHashFixesTheLog(h: Hash, a: seq<Link>, b: seq<Link>, arity: nat)
    requires Collisionless(h) && NeverGenesis(h)
    requires Verifies(h, a) && Verifies(h, b) && WellFormed(a, arity) && WellFormed(b, arity)
    requires LastHash(a) == LastHash(b)
    ensures a == b
    decreases |a|
  {
    if a != [] && b != [] {
      var m, n := |a| - 1, |b| - 1;
      assert LinkAt(h, a, m) && LinkAt(h, b, n);
      MaterialIsInjective(HashBefore(a, m), a[m].fields, HashBefore(b, n), b[n].fields);
      PrefixVerifies(h, a, m);
      PrefixVerifies(h, b, n);
      assert LastHash(a[..m]) == HashBefore(a, m) && LastHash(b[..n]) == HashBefore(b, n);
      LastHashFixesTheLog(h, a[..m], b[..n], arity);
      assert a == a[..m] + [a[m]] && b == b[..n] + [b[n]];
    } else if a != [] {
      NonEmptyIsPastGenesis(h, a);
    } else if b != [] {
      NonEmptyIsPastGenesis(h, b);
    }
  }

  /** No hash occurs twice in a verified log, and none is the genesis. */
  lemma HashesDiffer(h: Hash, log: seq<Link>, arity: nat, i: nat, j: nat)
    requires Collisionless(h) && NeverGenesis(h) && Verifies(h, log) && WellFormed(log, arity)
    requires i < j <= |log|
    ensures HashBefore(log, i) != HashBefore(log, j)
  {
    PrefixVerifies(h, log, i);
    PrefixVerifies(h, log, j);
    if HashBefore(log, i) == HashBefore(log, j) {
      assert LastHash(log[..i]) == LastHash(log[..j]);
      LastHashFixesTheLog(h, log[..i], log[..j], arity);
    }
  }

  lemma BadAt(h: Hash, log: seq<Link>, k: nat)
    requires k < |log| && !LinkAt(h, log, k)
    requires forall i :: 0 <= i < k ==> LinkAt(h, log, i)
    ensures FirstBad(h, log) == Some(k)
  {
    assert FirstBadFrom(h, log, 0).Some?;
  }

  /** Changing one entry of a verified log is reported at that entry, unless the change
      also recomputed its hash; then it is reported at the next one, if there is one. */
  lemma EditIsReported(h: Hash, log: seq<Link>, arity: nat, k: nat, edited: Link)
    requires Collisionless(h) && Verifies(h, log) && WellFormed(log, arity)
    requires k < |log| && edited != log[k] && |edited.fields| == arity && AllClean(edited.fields)
    ensures FirstBad(h, log[k := edited]) ==
            if !LinkOk(h, HashBefore(log, k), edited) then Some(k)
            else if k + 1 < |log| then Some(k + 1)
            else None
  {
    var log' := log[k := edited];
    forall i | 0 <= i < |log| && i != k && i != k + 1 ensures LinkAt(h, log', i) {
      assert LinkAt(h, log, i);
    }
    assert LinkAt(h, log, k) && HashBefore(log', k) == HashBefore(log, k);
    if !LinkOk(h, HashBefore(log, k), edited) {
      BadAt(h, log', k);
    } else {
      if edited.hash == log[k].hash {
        MaterialIsInjective(HashBefore(log, k), edited.fields, HashBefore(log, k), log[k].fields);
      }
      if k + 1 < |log| {
        assert LinkAt(h, log, k + 1) && !LinkAt(h, log', k + 1);
        BadAt(h, log', k + 1);
      } else {
        assert Verifies(h, log');
      }
    }
  }

  /** Rewriting the fields of one entry and leaving its hashes is reported at that entry. */
  lemma FieldEditIsReported(h: Hash, log: seq<Link>, arity: nat, k: nat, fields: seq<string>)
    requires Collisionless(h) && Verifies(h, log) && WellFormed(log, arity)
    requires k < |log| && fields != log[k].fields && |fields| == arity && AllClean(fields)
    ensures FirstBad(h, log[k := log[k].(fields := fields)]) == Some(k)
  {
    assert LinkAt(h, log, k);
    if h(Material(HashBefore(log, k), fields)) == log[k].hash {
      MaterialIsInjective(HashBefore(log, k), fields, HashBefore(log, k), log[k].fields);
    }
    EditIsReported(h, log, arity, k, log[k].(fields := fields));
  }

  /** Deleting an entry other than the last is reported at the entry that takes its place. */
  lemma DeletionIsReported(h: Hash, log: seq<Link>, arity: nat, k: nat)
    requires Collisionless(h) && NeverGenesis(h) && Verifies(h, log) && WellFormed(log, arity)
    requires k + 1 < |log|
    ensures FirstBad(h, log[..k] + log[k + 1..]) == Some(k)
  {
    var log' := log[..k] + log[k + 1..];
    forall i | 0 <= i < k ensures LinkAt(h, log', i) {
      assert LinkAt(h, log, i);
    }
    HashesDiffer(h, log, arity, k, k + 1);
    assert LinkAt(h, log, k + 1);
    assert HashBefore(log', k) == HashBefore(log, k) && log'[k] == log[k + 1];
    BadAt(h, log', k);
  }

  lemma AppendVerifies(h: Hash, log: seq<Link>, link: Link)
    requires Verifies(h, log)
    ensures Verifies(h, log + [link]) <==> LinkOk(h, LastHash(log), link)
  {
    var log' := log + [link];
    forall i | 0 <= i < |log| ensures LinkAt(h, log', i) {
      assert LinkAt(h, log, i);
    }
    assert HashBefore(log', |log|) == LastHash(log) && log'[|log|] == link;
    assert LinkAt(h, log', |log|) == LinkOk(h, LastHash(log), link);
  }

  /* ----- the audit log: one table, a chain per tenant ----- */

  datatype AuditRow = AuditRow(id: nat, tenant: string, conversation: Option<string>, event: string,
                               detail: string, ts: string, prev: string, hash: string)

  /** The hashed columns; a missing conversation hashes like an empty one. */
  function AuditFields(tenant: string, r: AuditRow): seq<string> {
    [tenant, if r.conversation.Some? then r.conversation.value else "", r.event, r.detail, r.ts]
  }

  function AuditLink(tenant: string, r: AuditRow): Link {
    Link(AuditFields(tenant, r), r.prev, r.hash)
  }

  function RowsOf(rows: seq<AuditRow>, tenant: string): (r: seq<AuditRow>)
    ensures forall x :: x in r ==> x.tenant == tenant
  {
    if rows == [] then [] else
      var last := rows[|rows| - 1];
      RowsOf(rows[..|rows| - 1], tenant) + if last.tenant == tenant then [last] else []
  }

  function Links(rows: seq<AuditRow>, tenant: string): (r: seq<Link>)
    ensures |r| == |rows|
    ensures forall i {:trigger r[i]} :: 0 <= i < |r| ==> r[i] == AuditLink(tenant, rows[i])
  {
    seq(|rows|, i requires 0 <= i < |rows| => AuditLink(tenant, rows[i]))
  }

  function ChainOf(rows: seq<AuditRow>, tenant: string): seq<Link> {
    Links(RowsOf(rows, tenant), tenant)
  }

  class AuditLog {
    const hash: Hash
    var rows: seq<AuditRow>

    constructor (hash: Hash)
      ensures this.hash == hash && rows == []
    {
      this.hash := hash;
      rows := [];
    }

    /** Appends to the tenant's chain. Every tenant's chain that verified still does. */
    method Audit(tenant: string, conversation: Option<string>, event: string, detail: string, ts: string)
      modifies this`rows
      ensures |rows| == |old(rows)| + 1 && rows[..|old(rows)|] == old(rows)
      ensures var r := rows[|old(rows)|];
              && r.tenant == tenant && r.conversation == conversation && r.event == event
              && r.detail == detail && r.ts == ts && r.prev == LastHash(ChainOf(old(rows), tenant))
              && r.hash == hash(Material(r.prev, AuditFields(tenant, r)))
      ensures forall t :: Verifies(hash, ChainOf(old(rows), t)) ==> Verifies(hash, ChainOf(rows, t))
    {
      var mine := RowsOf(rows, tenant);
      var prev := if mine == [] then Genesis() else mine[|mine| - 1].hash;
      assert prev == LastHash(ChainOf(rows, tenant));
      var row := AuditRow(|rows|, tenant, conversation, event, detail, ts, prev, "");
      var digest := ChainHash(hash, prev, AuditFields(tenant, row));
      var entry := row.(hash := digest);
      forall t | Verifies(hash, ChainOf(rows, t)) ensures Verifies(hash, ChainOf(rows + [entry], t)) {
        AuditKeepsChain(hash, rows, entry, t);
      }
      rows := rows + [entry];
    }

    /** Walks the tenant's chain; reports the id of the first entry that does not fit. */
    method VerifyAuditChain(tenant: string) returns (ok: bool, bad: Option<nat>)
      ensures ok <==> Verifies(hash, ChainOf(rows, tenant))
      ensures ok <==> bad.None?
      ensures !ok ==> var k := FirstBad(hash, ChainOf(rows, tenant));
                      k.Some? && bad == Some(RowsOf(rows, tenant)[k.value].id)
    {
      var mine := RowsOf(rows, tenant);
      ghost var log := ChainOf(rows, tenant);
      var prev := Genesis();
      var i := 0;
      while i < |mine|
        invariant 0 <= i <= |mine| && prev == HashBefore(log, i)
        invariant forall j :: 0 <= j < i ==> LinkAt(hash, log, j)
      {
        var r := mine[i];
        var expected := ChainHash(hash, prev, AuditFields(tenant, r));
        if r.prev != prev || r.hash != expected {
          BadAt(hash, log, i);
          return false, Some(r.id);
        }
        prev := r.hash;
        i := i + 1;
      }
      ok, bad := true, None;
    }
  }

  lemma AuditKeepsChain(h: Hash, rows: seq<AuditRow>, entry: AuditRow, t: string)
    requires Verifies(h, ChainOf(rows, t))
    requires LinkOk(h, LastHash(ChainOf(rows, entry.tenant)), AuditLink(entry.tenant, entry))
    ensures Verifies(h, ChainOf(rows + [entry], t))
  {
    ChainAfterAppend(rows, entry, t);
    AppendVerifies(h, ChainOf(rows, t), AuditLink(t, entry));
    assert ChainOf(rows, t) + [] == ChainOf(rows, t);
  }

  lemma ChainAfterAppend(rows: seq<AuditRow>, entry: AuditRow, t: string)
    ensures ChainOf(rows + [entry], t)
            == ChainOf(rows, t) + if entry.tenant == t then [AuditLink(t, entry)] else []
  {
    assert (rows + [entry])[..|rows|] == rows;
  }

  /** Rewriting a row of the table rewrites one row of its tenant's chain. */
  lemma {:induction false} EditInTable(rows: seq<AuditRow>, i: nat, edited: AuditRow) returns (k: nat)
    requires i < |rows| && edited.tenant == rows[i].tenant
    ensures k < |RowsOf(rows, edited.tenant)| && RowsOf(rows, edited.tenant)[k] == rows[i]
    ensures RowsOf(rows[i := edited], edited.tenant) == RowsOf(rows, edited.tenant)[k := edited]
    decreases |rows|
  {
    var n := |rows| - 1;
    var before := RowsOf(rows[..n], edited.tenant);
    if i == n {
      k := |before|;
      assert rows[i := edited][..n] == rows[..n];
      assert (before + [rows[n]])[k := edited] == before + [edited];
    } else {
      assert rows[i := edited][..n] == rows[..n][i := edited];
      k := EditInTable(rows[..n], i, edited);
    }
  }

  /** Editing a hashed column of one row in place makes verification report that very row. */
  lemma TableEditIsReported(h: Hash, rows: seq<AuditRow>, i: nat, edited: AuditRow) returns (k: nat)
    requires i < |rows| && edited.tenant == rows[i].tenant && edited.id == rows[i].id
    requires edited.prev == rows[i].prev && edited.hash == rows[i].hash
    requires Collisionless(h) && Verifies(h, ChainOf(rows, edited.tenant)) && WellFormed(ChainOf(rows, edited.tenant), 5)
    requires var fields := AuditFields(edited.tenant, edited);
             AllClean(fields) && fields != AuditFields(edited.tenant, rows[i])
    ensures k < |RowsOf(rows[i := edited], edited.tenant)|
    ensures FirstBad(h, ChainOf(rows[i := edited], edited.tenant)) == Some(k)
    ensures RowsOf(rows[i := edited], edited.tenant)[k] == edited
  {
    var t := edited.tenant;
    k := EditInTable(rows, i, edited);
    var log, fields := ChainOf(rows, t), AuditFields(t, edited);
    assert log[k] == AuditLink(t, rows[i]);
    FieldEditIsReported(h, log, 5, k, fields);
    assert ChainOf(rows[i := edited], t) == log[k := log[k].(fields := fields)];
  }

  /** An edit of a row that leaves its id, tenant and hashes goes unnoticed exactly when it
      leaves the hashed columns, and those tell a missing conversation from an empty one in
      no way. */
  lemma EditGoesUnnoticedIff(h: Hash, rows: seq<AuditRow>, i: nat, edited: AuditRow)
    requires i < |rows| && edited.tenant == rows[i].tenant && edited.id == rows[i].id
    requires edited.prev == rows[i].prev && edited.hash == rows[i].hash
    requires Collisionless(h) && Verifies(h, ChainOf(rows, edited.tenant)) && WellFormed(ChainOf(rows, edited.tenant), 5)
    requires AllClean(AuditFields(edited.tenant, edited))
    ensures Verifies(h, ChainOf(rows[i := edited], edited.tenant)) <==>
              && edited.event == rows[i].event && edited.detail == rows[i].detail && edited.ts == rows[i].ts
              && SameConversation(edited.conversation, rows[i].conversation)
  {
    var t := edited.tenant;
    var was, now := AuditFields(t, rows[i]), AuditFields(t, edited);
    if now == was {
      assert now[1] == was[1] && now[2] == was[2] && now[3] == was[3] && now[4] == was[4];
      var k := EditInTable(rows, i, edited);
      assert ChainOf(rows[i := edited], t) == ChainOf(rows, t);
    } else {
      var k := TableEditIsReported(h, rows, i, edited);
    }
  }

  /** Equal, or one missing and the other empty. */
  predicate SameConversation(a: Option<string>, b: Option<string>) {
    a == b || (a in {None, Some("")} && b in {None, Some("")})
  }

  /* ----- the consent chain: verified in order of capture time ----- */

  datatype Consent = Consent(id: nat, fields: seq<string>, capturedAt: int, hash: string)

  /** ORDER BY captured_at, rowid: a later row goes behind all not captured after it. */
  function Place(ordered: seq<Consent>, r: Consent): seq<Consent> {
    if ordered == [] || ordered[|ordered| - 1].capturedAt <= r.capturedAt then ordered + [r]
    else Place(ordered[..|ordered| - 1], r) + [ordered[|ordered| - 1]]
  }

  function InOrder(rows: seq<Consent>): seq<Consent> {
    if rows == [] then [] else Place(InOrder(rows[..|rows| - 1]), rows[|rows| - 1])
  }

  ghost predicate Sorted(rows: seq<Consent>) {
    forall i, j :: 0 <= i < j < |rows| ==> Earlier(rows[i], rows[j])
  }

  /** Captured earlier, or at the same time and inserted earlier. */
  predicate Earlier(a: Consent, b: Consent) {
    a.capturedAt < b.capturedAt || (a.capturedAt == b.capturedAt && a.id < b.id)
  }

  lemma {:induction false} PlaceAdds(ordered: seq<Consent>, r: Consent)
    ensures multiset(Place(ordered, r)) == multiset(ordered) + multiset{r}
  {
    if ordered != [] && ordered[|ordered| - 1].capturedAt > r.capturedAt {
      var n := |ordered| - 1;
      PlaceAdds(ordered[..n], r);
      assert ordered == ordered[..n] + [ordered[n]];
    }
  }

  lemma PlacedAreOld(ordered: seq<Consent>, r: Consent, k: nat)
    requires k < |Place(ordered, r)|
    ensures Place(ordered, r)[k] == r || Place(ordered, r)[k] in ordered
  {
    PlaceAdds(ordered, r);
    assert Place(ordered, r)[k] in multiset(Place(ordered, r));
  }

  lemma {:induction false} PlaceSorts(ordered: seq<Consent>, r: Consent)
    requires Sorted(ordered) && forall k :: 0 <= k < |ordered| ==> ordered[k].id < r.id
    ensures Sorted(Place(ordered, r))
  {
    if ordered != [] {
      var n := |ordered| - 1;
      if ordered[n].capturedAt > r.capturedAt {
        PlaceSorts(ordered[..n], r);
        forall k | 0 <= k < |Place(ordered[..n], r)| ensures Earlier(Place(ordered[..n], r)[k], ordered[n]) {
          PlacedAreOld(ordered[..n], r, k);
        }
      } else {
        assert forall k :: 0 <= k < n ==> Earlier(ordered[k], ordered[n]);
      }
    }
  }

  /** Ids grow with insertion, as a rowid does. */
  ghost predicate Numbered(rows: seq<Consent>) {
    forall i, j :: 0 <= i < j < |rows| ==> rows[i].id < rows[j].id
  }

  /** `InOrder` is the order of the query: by capture time, then by row id. */
  lemma {:induction false} InOrderIsTheQueryOrder(rows: seq<Consent>)
    requires Numbered(rows)
    ensures Sorted(InOrder(rows)) && multiset(InOrder(rows)) == multiset(rows)
  {
    if rows != [] {
      var n := |rows| - 1;
      InOrderIsTheQueryOrder(rows[..n]);
      assert rows == rows[..n] + [rows[n]];
      forall k | 0 <= k < |InOrder(rows[..n])| ensures InOrder(rows[..n])[k].id < rows[n].id {
        assert InOrder(rows[..n])[k] in multiset(rows[..n]);
        assert InOrder(rows[..n])[k] in rows[..n];
      }
      PlaceSorts(InOrder(rows[..n]), rows[n]);
      PlaceAdds(InOrder(rows[..n]), rows[n]);
    }
  }

  /** The consent verifier reads back no previous hash: each link carries the one before it. */
  function ConsentLink(ordered: seq<Consent>, i: nat): Link
    requires i < |ordered|
  {
    Link(ordered[i].fields, if i == 0 then Genesis() else ordered[i - 1].hash, ordered[i].hash)
  }

  function ConsentLinks(ordered: seq<Consent>): (r: seq<Link>)
    ensures |r| == |ordered|
    ensures forall i {:trigger r[i]} :: 0 <= i < |r| ==> r[i] == ConsentLink(ordered, i)
  {
    seq(|ordered|, i requires 0 <= i < |ordered| => ConsentLink(ordered, i))
  }

  function ConsentChain(rows: seq<Consent>): seq<Link> {
    ConsentLinks(InOrder(rows))
  }

  /** A consent row as the service writes it: hashed after the last entry in query order. */
  function Recorded(h: Hash, rows: seq<Consent>, fields: seq<string>, capturedAt: int): Consent {
    Consent(|rows|, fields, capturedAt, h(Material(LastHash(ConsentChain(rows)), fields)))
  }

  lemma {:induction false} PlaceSplits(ordered: seq<Consent>, r: Consent) returns (p: nat)
    ensures p <= |ordered| && Place(ordered, r) == ordered[..p] + [r] + ordered[p..]
    ensures p == |ordered| <==> ordered == [] || ordered[|ordered| - 1].capturedAt <= r.capturedAt
  {
    if ordered == [] || ordered[|ordered| - 1].capturedAt <= r.capturedAt {
      p := |ordered|;
    } else {
      var n := |ordered| - 1;
      p := PlaceSplits(ordered[..n], r);
      assert ordered[p..] == ordered[..n][p..] + [ordered[n]];
      assert ordered[..n][..p] == ordered[..p];
    }
  }

  /** A record placed last continues the chain; one placed earlier cannot fit where it is. */
  lemma RecordAtTheEnd(h: Hash, rows: seq<Consent>, fields: seq<string>, capturedAt: int)
    requires Verifies(h, ConsentChain(rows))
    requires var r := Recorded(h, rows, fields, capturedAt); Place(InOrder(rows), r) == InOrder(rows) + [r]
    ensures Verifies(h, ConsentChain(rows + [Recorded(h, rows, fields, capturedAt)]))
  {
    var ordered := InOrder(rows);
    var r := Recorded(h, rows, fields, capturedAt);
    assert (rows + [r])[..|rows|] == rows;
    var log, log' := ConsentLinks(ordered), ConsentLinks(ordered + [r]);
    assert ConsentChain(rows + [r]) == log';
    forall i | 0 <= i < |log'| ensures LinkAt(h, log', i) {
      assert (ordered + [r])[..|ordered|] == ordered[..|ordered|];
      assert ordered[..i] == (ordered + [r])[..i];
      if i < |log| { assert LinkAt(h, log, i); }
    }
  }

  lemma RecordInTheMiddle(h: Hash, rows: seq<Consent>, fields: seq<string>, capturedAt: int, arity: nat, p: nat)
    requires Collisionless(h) && NeverGenesis(h) && Verifies(h, ConsentChain(rows))
    requires WellFormed(ConsentChain(rows), arity) && |fields| == arity && AllClean(fields)
    requires var ordered := InOrder(rows);
             var r := Recorded(h, rows, fields, capturedAt);
             p < |ordered| && Place(ordered, r) == ordered[..p] + [r] + ordered[p..]
    ensures var log' := ConsentChain(rows + [Recorded(h, rows, fields, capturedAt)]);
            p < |log'| && !LinkAt(h, log', p)
  {
    var ordered := InOrder(rows);
    var r := Recorded(h, rows, fields, capturedAt);
    assert (rows + [r])[..|rows|] == rows;
    var placed := ordered[..p] + [r] + ordered[p..];
    var log, log' := ConsentLinks(ordered), ConsentLinks(placed);
    assert ConsentChain(rows + [r]) == log';
    assert placed[..p] == ordered[..p] && placed[p] == r;
    HashesDiffer(h, log, arity, p, |log|);
    if LinkAt(h, log', p) {
      MaterialIsInjective(HashBefore(log, p), fields, LastHash(log), fields);
    }
  }

  /** A consent record keeps the chain verifying exactly when it was not captured before the
      last one: a clock that steps back breaks the chain at the very record it stamps. */
  lemma RecordVerifiesIffClockHeld(h: Hash, rows: seq<Consent>, fields: seq<string>, capturedAt: int, arity: nat)
    requires Collisionless(h) && NeverGenesis(h) && Verifies(h, ConsentChain(rows))
    requires WellFormed(ConsentChain(rows), arity) && |fields| == arity && AllClean(fields)
    ensures var ordered := InOrder(rows);
            Verifies(h, ConsentChain(rows + [Recorded(h, rows, fields, capturedAt)]))
            <==> (ordered == [] || ordered[|ordered| - 1].capturedAt <= capturedAt)
  {
    var ordered := InOrder(rows);
    var r := Recorded(h, rows, fields, capturedAt);
    var p := PlaceSplits(ordered, r);
    if p == |ordered| {
      assert ordered[..p] + [r] + ordered[p..] == ordered + [r];
      RecordAtTheEnd(h, rows, fields, capturedAt);
    } else {
      RecordInTheMiddle(h, rows, fields, capturedAt, arity, p);
    }
  }

  /** The table after a run of consents, each with its hashed fields and capture time. */
  function AllRecorded(h: Hash, entries: seq<(seq<string>, int)>): (rows: seq<Consent>)
    ensures |rows| == |entries|
  {
    if entries == [] then [] else
      var rows := AllRecorded(h, entries[..|entries| - 1]);
      rows + [Recorded(h, rows, entries[|entries| - 1].0, entries[|entries| - 1].1)]
  }

  predicate Forward(entries: seq<(seq<string>, int)>) {
    forall i, j :: 0 <= i < j < |entries| ==> entries[i].1 <= entries[j].1
  }

  /** On a clock that never goes back the consent chain verifies after every append, whatever
      the hash; and the table is its own query order. */
  lemma {:induction false} ForwardClockKeepsConsentChain(h: Hash, entries: seq<(seq<string>, int)>)
    requires Forward(entries)
    ensures var rows := AllRecorded(h, entries);
            && Verifies(h, ConsentChain(rows)) && InOrder(rows) == rows
            && (rows != [] ==> rows[|rows| - 1].capturedAt == entries[|entries| - 1].1)
  {
    if entries != [] {
      var n := |entries| - 1;
      ForwardClockKeepsConsentChain(h, entries[..n]);
      var rows := AllRecorded(h, entries[..n]);
      var r := Recorded(h, rows, entries[n].0, entries[n].1);
      assert rows != [] ==> rows[|rows| - 1].capturedAt == entries[n - 1].1;
      assert (rows + [r])[..|rows|] == rows;
      RecordAtTheEnd(h, rows, entries[n].0, entries[n].1);
    }
  }

  class ConsentLedger {
    const hash: Hash
    var rows: seq<Consent>

    constructor (hash: Hash)
      ensures this.hash == hash && rows == []
    {
      this.hash := hash;
      rows := [];
    }

    /** Validates the toggles, then appends the record to the tenant's chain. */
    method Record(recording: bool, language: string, fields: seq<string>, capturedAt: int) returns (r: Option<string>)
      modifies this`rows
      ensures r.Some? <==> recording && language != ""
      ensures r.None? ==> rows == old(rows)
      ensures r.Some? ==> rows == old(rows) + [Recorded(hash, old(rows), fields, capturedAt)]
      ensures r.Some? ==> r.value == rows[|old(rows)|].hash
    {
      if !recording || language == "" {
        return None;
      }
      var ordered := InOrder(rows);
      var prev := if ordered == [] then Genesis() else ordered[|ordered| - 1].hash;
      var entryHash := ChainHash(hash, prev, fields);
      rows := rows + [Consent(|rows|, fields, capturedAt, entryHash)];
      r := Some(entryHash);
    }
  }
}
