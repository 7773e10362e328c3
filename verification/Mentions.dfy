/** Which products a conversation named, and which it meant by a pronoun. */
module Mentions {
  import opened Basics
  import opened Sorting

  /** Which characters the regular-expression engine counts as word characters. */
  type WordChar = char -> bool

  /* ----- the alias index ----- */

  datatype Alias = Alias(text: string, sku: string)

  /** A catalog product after normalisation: its own aliases, then its name. */
  datatype Product = Product(sku: string, candidates: seq<string>)

  predicate Longer(a: Alias, b: Alias) {
    |a.text| >= |b.text|
  }

  /** A product with a SKU lists the alias, and it is neither empty nor generic. */
  predicate Lists(p: Product, generic: set<string>, a: Alias) {
    p.sku == a.sku && a.sku != "" && a.text in p.candidates && a.text != "" && a.text !in generic
  }

  ghost predicate Named(catalog: seq<Product>, generic: set<string>, a: Alias) {
    exists k :: 0 <= k < |catalog| && Lists(catalog[k], generic, a)
  }

  /** Exactly the usable aliases of the catalog, once each, longest first. */
  method BuildAliasIndex(catalog: seq<Product>, generic: set<string>) returns (index: seq<Alias>)
    ensures forall a :: a in index <==> Named(catalog, generic, a)
    ensures forall k, c :: 0 <= k < |catalog| && 0 <= c < |catalog[k].candidates| && catalog[k].sku != ""
                           && catalog[k].candidates[c] != "" && catalog[k].candidates[c] !in generic ==>
              Alias(catalog[k].candidates[c], catalog[k].sku) in index
    ensures forall a :: a in index ==> a.sku != "" && a.text != "" && a.text !in generic
    ensures Distinct(index)
    ensures forall i, j :: 0 <= i < j < |index| ==> |index[i].text| >= |index[j].text|
  {
    var pairs: seq<Alias> := [];
    var k := 0;
    while k < |catalog|
      invariant 0 <= k <= |catalog| && Distinct(pairs)
      invariant forall a :: a in pairs <==> Named(catalog[..k], generic, a)
    {
      var p := catalog[k];
      assert catalog[..k + 1] == catalog[..k] + [p];
      ghost var before := pairs;
      if p.sku != "" {
        var c := 0;
        while c < |p.candidates|
          invariant 0 <= c <= |p.candidates| && Distinct(pairs)
          invariant forall a :: a in pairs <==>
                      a in before || (a.sku == p.sku && a.text in p.candidates[..c] && a.text != "" && a.text !in generic)
        {
          var alias := Alias(p.candidates[c], p.sku);
          assert p.candidates[..c + 1] == p.candidates[..c] + [p.candidates[c]];
          if alias.text != "" && alias.text !in generic && alias !in pairs {
            pairs := pairs + [alias];
          }
          c := c + 1;
        }
        assert p.candidates[..c] == p.candidates;
      }
      k := k + 1;
    }
    assert catalog[..k] == catalog;
    SortKeepsElements(pairs, Longer);
    SortSorts(pairs, Longer);
    index := Sort(pairs, Longer);
    forall n, c | 0 <= n < |catalog| && 0 <= c < |catalog[n].candidates|
                  && catalog[n].sku != "" && catalog[n].candidates[c] != "" && catalog[n].candidates[c] !in generic
      ensures Alias(catalog[n].candidates[c], catalog[n].sku) in index
    {
      assert Lists(catalog[n], generic, Alias(catalog[n].candidates[c], catalog[n].sku));
    }
  }

  /* ----- greedy matching in one line ----- */

  predicate Boundary(text: string, i: nat, w: WordChar)
    requires i <= |text|
  {
    (i > 0 && w(text[i - 1])) != (i < |text| && w(text[i]))
  }

  /** The alias stands at `i` as a whole word. */
  predicate OccursAt(text: string, alias: string, i: nat, w: WordChar) {
    && i + |alias| <= |text| && text[i..i + |alias|] == alias
    && Boundary(text, i, w) && Boundary(text, i + |alias|, w)
  }

  /** For an alias that begins and ends with word characters that is: its letters, with no word
      character before and none behind. */
  lemma WordsStandAlone(text: string, alias: string, i: nat, w: WordChar)
    requires alias != "" && w(alias[0]) && w(alias[|alias| - 1])
    ensures OccursAt(text, alias, i, w) <==>
              && i + |alias| <= |text| && (forall k :: 0 <= k < |alias| ==> text[i + k] == alias[k])
              && (i > 0 ==> !w(text[i - 1])) && (i + |alias| < |text| ==> !w(text[i + |alias|]))
  {
    if i + |alias| <= |text| {
      var part := text[i..i + |alias|];
      assert forall k :: 0 <= k < |alias| ==> part[k] == text[i + k];
      assert part == alias <==> forall k :: 0 <= k < |alias| ==> text[i + k] == alias[k];
    }
  }

  /** Left-to-right scan for non-overlapping occurrences from position `from`. */
  function Scan(text: string, alias: string, from: nat, w: WordChar): (r: seq<nat>)
    requires alias != ""
    ensures forall k :: 0 <= k < |r| ==> r[k] >= from && OccursAt(text, alias, r[k], w)
    decreases |text| - from
  {
    if from + |alias| > |text| then []
    else if OccursAt(text, alias, from, w) then [from] + Scan(text, alias, from + |alias|, w)
    else Scan(text, alias, from + 1, w)
  }

  predicate Covers(found: seq<nat>, n: nat, i: nat) {
    exists k :: 0 <= k < |found| && found[k] <= i < found[k] + n
  }

  lemma CoversMore(found: seq<nat>, n: nat, i: nat, first: nat)
    requires Covers(found, n, i)
    ensures Covers([first] + found, n, i)
  {
    var k :| 0 <= k < |found| && found[k] <= i < found[k] + n;
    assert ([first] + found)[k + 1] == found[k];
  }

  /** The scan misses no occurrence but those overlapping one it found. */
  lemma {:induction false} ScanIsComplete(text: string, alias: string, from: nat, w: WordChar, i: nat)
    requires alias != "" && from <= i && OccursAt(text, alias, i, w)
    ensures Covers(Scan(text, alias, from, w), |alias|, i)
    decreases |text| - from
  {
    if !OccursAt(text, alias, from, w) {
      ScanIsComplete(text, alias, from + 1, w, i);
    } else if i < from + |alias| {
      assert Scan(text, alias, from, w)[0] == from;
    } else {
      ScanIsComplete(text, alias, from + |alias|, w, i);
      CoversMore(Scan(text, alias, from + |alias|, w), |alias|, i, from);
    }
  }

  datatype Span = Span(start: nat, end: nat, sku: string)

  predicate Overlap(a: Span, b: Span) {
    !(a.end <= b.start || a.start >= b.end)
  }

  predicate Overlaps(chosen: seq<Span>, x: Span) {
    exists k :: 0 <= k < |chosen| && Overlap(chosen[k], x)
  }

  /** One alias: take each scanned occurrence that overlaps nothing chosen so far. */
  function TakeAll(chosen: seq<Span>, at: seq<nat>, a: Alias): seq<Span>
    decreases |at|
  {
    if at == [] then chosen else TakeAll(Take(chosen, At(at[0], a)), at[1..], a)
  }

  function At(p: nat, a: Alias): Span {
    Span(p, p + |a.text|, a.sku)
  }

  function Take(chosen: seq<Span>, x: Span): seq<Span> {
    if Overlaps(chosen, x) then chosen else chosen + [x]
  }

  ghost predicate UsableIndex(index: seq<Alias>) {
    && (forall k :: 0 <= k < |index| ==> index[k].text != "")
    && forall i, j :: 0 <= i < j < |index| ==> |index[i].text| >= |index[j].text|
  }

  /** The spans chosen in a line, aliases in index order. */
  function Greedy(text: string, index: seq<Alias>, w: WordChar): seq<Span>
    requires forall k :: 0 <= k < |index| ==> index[k].text != ""
  {
    if index == [] then []
    else
      var a := index[|index| - 1];
      TakeAll(Greedy(text, index[..|index| - 1], w), Scan(text, a.text, 0, w), a)
  }

  ghost predicate Disjoint(spans: seq<Span>) {
    && (forall i :: 0 <= i < |spans| ==> spans[i].start < spans[i].end)
    && forall i, j :: 0 <= i < j < |spans| ==> !Overlap(spans[i], spans[j])
  }

  lemma TakeIsSound(chosen: seq<Span>, x: Span)
    requires Disjoint(chosen) && x.start < x.end
    ensures chosen <= Take(chosen, x) && Disjoint(Take(chosen, x)) && Overlaps(Take(chosen, x), x)
  {
    if !Overlaps(chosen, x) {
      var next := Take(chosen, x);
      assert next[|chosen|] == x && Overlap(x, x);
      forall i | 0 <= i < |chosen| ensures !Overlap(next[i], x) {
        assert next[i] == chosen[i];
      }
    }
  }

  /** Taking more keeps what was chosen and stays disjoint. */
  lemma {:induction false} TakeAllIsSound(chosen: seq<Span>, at: seq<nat>, a: Alias)
    requires Disjoint(chosen) && a.text != ""
    ensures chosen <= TakeAll(chosen, at, a) && Disjoint(TakeAll(chosen, at, a))
    decreases |at|
  {
    if at != [] {
      TakeIsSound(chosen, At(at[0], a));
      TakeAllIsSound(Take(chosen, At(at[0], a)), at[1..], a);
    }
  }

  /** What is taken is a scanned place of the alias. */
  lemma {:induction false} TakenFromScan(chosen: seq<Span>, at: seq<nat>, a: Alias)
    ensures forall x :: x in TakeAll(chosen, at, a) ==> x in chosen || (x.start in at && x == At(x.start, a))
    decreases |at|
  {
    if at != [] {
      TakenFromScan(Take(chosen, At(at[0], a)), at[1..], a);
      assert forall x :: x in Take(chosen, At(at[0], a)) ==> x in chosen || x == At(at[0], a);
    }
  }

  /** Every scanned place is settled: taken, or overlapping something taken. */
  lemma {:induction false} ScanIsSettled(chosen: seq<Span>, at: seq<nat>, a: Alias, p: nat)
    requires Disjoint(chosen) && a.text != "" && p in at
    ensures Overlaps(TakeAll(chosen, at, a), At(p, a))
    decreases |at|
  {
    var next := Take(chosen, At(at[0], a));
    TakeIsSound(chosen, At(at[0], a));
    if p == at[0] {
      TakeAllIsSound(next, at[1..], a);
      OverlapsGrows(next, TakeAll(next, at[1..], a), At(p, a));
    } else {
      assert p in at[1..];
      ScanIsSettled(next, at[1..], a, p);
    }
  }

  lemma OverlapsGrows(chosen: seq<Span>, more: seq<Span>, x: Span)
    requires chosen <= more && Overlaps(chosen, x)
    ensures Overlaps(more, x)
  {
    var k :| 0 <= k < |chosen| && Overlap(chosen[k], x);
    assert more[k] == chosen[k];
  }

  /** A chosen span is a whole-word occurrence of an alias of its product. */
  ghost predicate Genuine(text: string, index: seq<Alias>, w: WordChar, x: Span) {
    exists k :: 0 <= k < |index| && index[k].sku == x.sku && x.end == x.start + |index[k].text|
      && OccursAt(text, index[k].text, x.start, w)
  }

  /** A chosen span that overlaps the place and is no shorter. */
  predicate Blocked(chosen: seq<Span>, p: nat, length: nat) {
    exists k :: 0 <= k < |chosen| && chosen[k].start < p + length && p < chosen[k].end
      && chosen[k].end - chosen[k].start >= length
  }

  lemma UsablePrefix(index: seq<Alias>, n: nat)
    requires UsableIndex(index) && n <= |index|
    ensures UsableIndex(index[..n])
  {
  }

  lemma {:induction false} GreedyIsDisjoint(text: string, index: seq<Alias>, w: WordChar)
    requires UsableIndex(index)
    ensures Disjoint(Greedy(text, index, w))
  {
    if index != [] {
      var n := |index| - 1;
      UsablePrefix(index, n);
      GreedyIsDisjoint(text, index[..n], w);
      TakeAllIsSound(Greedy(text, index[..n], w), Scan(text, index[n].text, 0, w), index[n]);
    }
  }

  /** One ends before the other begins. */
  lemma SpansAreApart(text: string, index: seq<Alias>, w: WordChar)
    requires UsableIndex(index)
    ensures var spans := Greedy(text, index, w);
            forall i, j :: 0 <= i < j < |spans| ==> spans[i].end <= spans[j].start || spans[j].end <= spans[i].start
  {
    GreedyIsDisjoint(text, index, w);
  }

  /** Every chosen span is a whole-word occurrence of an alias of its product. */
  lemma {:induction false} GreedyIsGenuine(text: string, index: seq<Alias>, w: WordChar)
    requires UsableIndex(index)
    ensures forall x :: x in Greedy(text, index, w) ==> Genuine(text, index, w, x)
  {
    if index != [] {
      var n := |index| - 1;
      var earlier, at := Greedy(text, index[..n], w), Scan(text, index[n].text, 0, w);
      UsablePrefix(index, n);
      GreedyIsGenuine(text, index[..n], w);
      TakenFromScan(earlier, at, index[n]);
      forall x | x in Greedy(text, index, w) ensures Genuine(text, index, w, x) {
        if x in earlier {
        } else {
          var j :| 0 <= j < |at| && at[j] == x.start;
        }
      }
    }
  }

  /** Every scanned occurrence of every alias is a chosen span or overlaps one at least as
      long: "ortho pro" is never counted as "ortho". */
  lemma {:induction false} LongestWins(text: string, index: seq<Alias>, w: WordChar, k: nat, p: nat)
    requires UsableIndex(index) && k < |index| && p in Scan(text, index[k].text, 0, w)
    ensures Blocked(Greedy(text, index, w), p, |index[k].text|)
    decreases |index|
  {
    var n := |index| - 1;
    UsablePrefix(index, n);
    if k < n {
      GreedyIsDisjoint(text, index[..n], w);
      TakeAllIsSound(Greedy(text, index[..n], w), Scan(text, index[n].text, 0, w), index[n]);
      assert index[..n][k] == index[k];
      LongestWins(text, index[..n], w, k, p);
      BlockedGrows(Greedy(text, index[..n], w), Greedy(text, index, w), p, |index[k].text|);
    } else {
      LastAliasIsSettled(text, index, w, p);
    }
  }

  lemma BlockedGrows(chosen: seq<Span>, more: seq<Span>, p: nat, length: nat)
    requires chosen <= more && Blocked(chosen, p, length)
    ensures Blocked(more, p, length)
  {
    var k :| 0 <= k < |chosen| && chosen[k].start < p + length && p < chosen[k].end
             && chosen[k].end - chosen[k].start >= length;
    assert more[k] == chosen[k];
  }

  lemma LastAliasIsSettled(text: string, index: seq<Alias>, w: WordChar, p: nat)
    requires UsableIndex(index) && index != [] && p in Scan(text, index[|index| - 1].text, 0, w)
    ensures Blocked(Greedy(text, index, w), p, |index[|index| - 1].text|)
  {
    var n := |index| - 1;
    var a, chosen := index[n], Greedy(text, index, w);
    UsablePrefix(index, n);
    GreedyIsDisjoint(text, index[..n], w);
    ScanIsSettled(Greedy(text, index[..n], w), Scan(text, a.text, 0, w), a, p);
    var i :| 0 <= i < |chosen| && Overlap(chosen[i], At(p, a));
    GreedyIsGenuine(text, index, w);
    assert chosen[i] in chosen;
    LastIsShortest(text, index, w, chosen[i]);
  }

  lemma LastIsShortest(text: string, index: seq<Alias>, w: WordChar, x: Span)
    requires UsableIndex(index) && index != [] && Genuine(text, index, w, x)
    ensures x.end - x.start >= |index[|index| - 1].text|
  {
  }

  /* ----- hits ----- */

  datatype Hit = Hit(at: nat, sku: string)

  predicate Before(a: Hit, b: Hit) {
    a.at <= b.at
  }

  function HitsOf(spans: seq<Span>): (r: seq<Hit>)
    ensures |r| == |spans|
    ensures forall i :: 0 <= i < |r| ==> r[i] == Hit(spans[i].start, spans[i].sku)
  {
    seq(|spans|, i requires 0 <= i < |spans| => Hit(spans[i].start, spans[i].sku))
  }

  /** The named products of a line, in the order they are spoken. */
  function NamedIn(text: string, index: seq<Alias>, w: WordChar): seq<Hit>
    requires forall k :: 0 <= k < |index| ==> index[k].text != ""
  {
    Sort(HitsOf(Greedy(text, index, w)), Before)
  }

  /** Hits come in strictly increasing position, one for each chosen span and no other. */
  lemma HitsAreOrdered(text: string, index: seq<Alias>, w: WordChar)
    requires UsableIndex(index)
    ensures var hits := NamedIn(text, index, w);
            && |hits| == |Greedy(text, index, w)|
            && (forall i, j :: 0 <= i < j < |hits| ==> hits[i].at < hits[j].at)
            && (forall x :: x in hits <==> x in HitsOf(Greedy(text, index, w)))
  {
    var spans := Greedy(text, index, w);
    var raw := HitsOf(spans);
    GreedyIsDisjoint(text, index, w);
    SortKeepsElements(raw, Before);
    SortSorts(raw, Before);
    forall i, j | 0 <= i < j < |raw| ensures raw[i].at != raw[j].at {
      assert !Overlap(spans[i], spans[j]);
    }
    SamePlaces(raw);
    var hits := NamedIn(text, index, w);
    forall i, j | 0 <= i < j < |hits| ensures hits[i].at < hits[j].at {
      assert hits[i] in raw && hits[j] in raw;
      assert Before(hits[i], hits[j]) && hits[i] != hits[j];
    }
  }

  lemma SamePlaces(raw: seq<Hit>)
    requires forall i, j :: 0 <= i < j < |raw| ==> raw[i].at != raw[j].at
    ensures Distinct(raw)
    ensures forall x, y :: x in raw && y in raw && x.at == y.at ==> x == y
  {
  }

  /** The matches of one alias: each is taken unless it overlaps a span already taken. */
  method TakePlaces(spans: seq<Span>, hits: seq<Hit>, places: seq<nat>, a: Alias)
    returns (spans': seq<Span>, hits': seq<Hit>)
    requires hits == HitsOf(spans)
    ensures spans' == TakeAll(spans, places, a) && hits' == HitsOf(spans')
  {
    spans', hits' := spans, hits;
    var m := 0;
    while m < |places|
      invariant 0 <= m <= |places| && hits' == HitsOf(spans')
      invariant TakeAll(spans', places[m..], a) == TakeAll(spans, places, a)
    {
      var x := At(places[m], a);
      assert places[m..][1..] == places[m + 1..];
      if !Overlaps(spans', x) {
        spans' := spans' + [x];
        hits' := hits' + [Hit(x.start, x.sku)];
      }
      m := m + 1;
    }
  }

  /** Scans every alias over the line, longest first, and sorts the hits by position. */
  method FindNamed(text: string, index: seq<Alias>, w: WordChar) returns (hits: seq<Hit>)
    requires UsableIndex(index)
    ensures hits == NamedIn(text, index, w)
    ensures forall i, j :: 0 <= i < j < |hits| ==> hits[i].at < hits[j].at
  {
    var spans: seq<Span> := [];
    hits := [];
    var k := 0;
    while k < |index|
      invariant 0 <= k <= |index| && spans == Greedy(text, index[..k], w) && hits == HitsOf(spans)
    {
      assert index[..k + 1][..k] == index[..k];
      spans, hits := TakePlaces(spans, hits, Scan(text, index[k].text, 0, w), index[k]);
      k := k + 1;
    }
    assert index[..k] == index;
    HitsAreOrdered(text, index, w);
    hits := Sort(hits, Before);
  }
}
