/** Mention totals over a conversation: names are counted, pronouns go to the product in focus. */
module MentionTotals {
  import opened Basics
  import opened Sorting
  import opened Mentions

  /** A transcript line as the resolver hears it: the products it names, in spoken order,
      and whether it carries a word that refers back. */
  datatype Line = Line(hits: seq<Hit>, cue: bool)

  /** The alias index and the two regular expressions, the latter as predicates. */
  datatype Ear = Ear(index: seq<Alias>, wordChar: WordChar, cue: string -> bool)

  /** An empty line is skipped: it names nothing and refers to nothing. */
  function Hear(ear: Ear, text: string): Line
    requires forall k :: 0 <= k < |ear.index| ==> ear.index[k].text != ""
  {
    if text == "" then Line([], false) else Line(NamedIn(text, ear.index, ear.wordChar), ear.cue(text))
  }

  function HearAll(ear: Ear, texts: seq<string>): (r: seq<Line>)
    requires forall k :: 0 <= k < |ear.index| ==> ear.index[k].text != ""
    ensures |r| == |texts| && forall i :: 0 <= i < |r| ==> r[i] == Hear(ear, texts[i])
  {
    seq(|texts|, i requires 0 <= i < |texts| => Hear(ear, texts[i]))
  }

  /** Whatever is said is heard. */
  lemma HearsEveryLine(ear: Ear, texts: seq<string>, i: nat)
    requires i < |texts| && forall k :: 0 <= k < |ear.index| ==> ear.index[k].text != ""
    ensures var line := HearAll(ear, texts)[i];
            && line.hits == (if texts[i] == "" then [] else NamedIn(texts[i], ear.index, ear.wordChar))
            && (line.cue <==> texts[i] != "" && ear.cue(texts[i]))
  {
  }

  /** The product named last before line `n`. */
  function Focus(t: seq<Line>, n: nat): Option<string>
    requires n <= |t|
  {
    if n == 0 then None
    else if t[n - 1].hits != [] then Some(t[n - 1].hits[|t[n - 1].hits| - 1].sku)
    else Focus(t, n - 1)
  }

  /** One counted mention. */
  datatype Bump = Bump(sku: string, turn: nat, named: bool)

  /** A line that names nothing but refers back to the product in focus. */
  predicate RefersBack(t: seq<Line>, i: nat)
    requires i < |t|
  {
    t[i].hits == [] && Focus(t, i).Some? && t[i].cue
  }

  function NameBumps(hits: seq<Hit>, turn: nat): (r: seq<Bump>)
    ensures |r| == |hits| && forall k :: 0 <= k < |r| ==> r[k] == Bump(hits[k].sku, turn, true)
  {
    seq(|hits|, k requires 0 <= k < |hits| => Bump(hits[k].sku, turn, true))
  }

  function TurnBumps(t: seq<Line>, i: nat): seq<Bump>
    requires i < |t|
  {
    if RefersBack(t, i) then [Bump(Focus(t, i).value, i, false)] else NameBumps(t[i].hits, i)
  }

  /** Everything counted in the first `n` lines, in order. */
  function Bumps(t: seq<Line>, n: nat): seq<Bump>
    requires n <= |t|
  {
    if n == 0 then [] else Bumps(t, n - 1) + TurnBumps(t, n - 1)
  }

  /* ----- tallies ----- */

  datatype Stat = Stat(named: nat, anaphora: nat, total: nat, firstTurn: nat, lastTurn: nat)

  function CountOf(bumps: seq<Bump>, sku: string, named: bool): nat {
    if bumps == [] then 0
    else
      var last := bumps[|bumps| - 1];
      CountOf(bumps[..|bumps| - 1], sku, named) + if last.sku == sku && last.named == named then 1 else 0
  }

  predicate Mentioned(bumps: seq<Bump>, sku: string) {
    exists k :: 0 <= k < |bumps| && bumps[k].sku == sku
  }

  /** Skus in the order of their first mention. */
  function FirstMentions(bumps: seq<Bump>): seq<string> {
    if bumps == [] then [] else
      var earlier := FirstMentions(bumps[..|bumps| - 1]);
      var sku := bumps[|bumps| - 1].sku;
      if sku in earlier then earlier else earlier + [sku]
  }

  /** What a product's record must say about the mentions counted so far. */
  ghost predicate Records(bumps: seq<Bump>, sku: string, s: Stat) {
    && s.named == CountOf(bumps, sku, true) && s.anaphora == CountOf(bumps, sku, false)
    && s.total == s.named + s.anaphora >= 1
    && (forall k :: 0 <= k < |bumps| && bumps[k].sku == sku ==> s.firstTurn <= bumps[k].turn <= s.lastTurn)
    && (exists k :: 0 <= k < |bumps| && bumps[k].sku == sku && bumps[k].turn == s.firstTurn)
    && (exists k :: 0 <= k < |bumps| && bumps[k].sku == sku && bumps[k].turn == s.lastTurn)
  }

  ghost predicate Tallied(bumps: seq<Bump>, keys: seq<string>, stats: map<string, Stat>) {
    && keys == FirstMentions(bumps)
    && (forall sku :: sku in stats <==> sku in keys)
    && forall sku :: sku in stats ==> Records(bumps, sku, stats[sku])
  }

  lemma {:induction false} FirstMentionsAreMentions(bumps: seq<Bump>)
    ensures Distinct(FirstMentions(bumps))
    ensures forall sku :: sku in FirstMentions(bumps) <==> Mentioned(bumps, sku)
  {
    if bumps != [] {
      var n := |bumps| - 1;
      FirstMentionsAreMentions(bumps[..n]);
      forall sku ensures Mentioned(bumps, sku) <==> Mentioned(bumps[..n], sku) || bumps[n].sku == sku {
        assert forall k :: 0 <= k < n ==> bumps[..n][k] == bumps[k];
      }
    }
  }

  /** Position of the first mention of a product, or the length. */
  function FirstAt(bumps: seq<Bump>, sku: string): (k: nat)
    ensures k <= |bumps| && (k < |bumps| ==> bumps[k].sku == sku)
    ensures forall m :: 0 <= m < k ==> bumps[m].sku != sku
  {
    if bumps == [] || bumps[0].sku == sku then 0 else 1 + FirstAt(bumps[1..], sku)
  }

  ghost predicate InFirstOrder(bumps: seq<Bump>, keys: seq<string>) {
    forall a, b :: 0 <= a < b < |keys| ==> FirstAt(bumps, keys[a]) < FirstAt(bumps, keys[b])
  }

  /** The records are made in the order in which the products are first mentioned. */
  lemma {:induction false} FirstMentionsInOrder(bumps: seq<Bump>)
    ensures InFirstOrder(bumps, FirstMentions(bumps))
  {
    if bumps != [] {
      var n := |bumps| - 1;
      var earlier := FirstMentions(bumps[..n]);
      FirstMentionsInOrder(bumps[..n]);
      FirstMentionsAreMentions(bumps[..n]);
      forall a | 0 <= a < |earlier| ensures FirstAt(bumps, earlier[a]) == FirstAt(bumps[..n], earlier[a]) < n {
        assert earlier[a] in earlier;
        FirstAtPrefix(bumps, n, earlier[a]);
      }
      assert InFirstOrder(bumps, earlier);
      if bumps[n].sku !in earlier {
        assert !Mentioned(bumps[..n], bumps[n].sku);
        NewProductIsLast(bumps, bumps[n].sku);
        assert InFirstOrder(bumps, earlier + [bumps[n].sku]);
      }
    }
  }

  lemma NewProductIsLast(bumps: seq<Bump>, sku: string)
    requires bumps != [] && !Mentioned(bumps[..|bumps| - 1], sku)
    ensures FirstAt(bumps, sku) >= |bumps| - 1
  {
    assert forall m :: 0 <= m < |bumps| - 1 ==> bumps[..|bumps| - 1][m] == bumps[m];
  }

  lemma FirstAtPrefix(bumps: seq<Bump>, n: nat, sku: string)
    requires n <= |bumps| && Mentioned(bumps[..n], sku)
    ensures FirstAt(bumps, sku) == FirstAt(bumps[..n], sku) < n
  {
    var k :| 0 <= k < n && bumps[..n][k].sku == sku;
    assert bumps[k].sku == sku;
    var f, g := FirstAt(bumps, sku), FirstAt(bumps[..n], sku);
    assert f < n ==> bumps[..n][f] == bumps[f];
    assert g < n ==> bumps[..n][g] == bumps[g];
  }

  function Bumped(stats: map<string, Stat>, b: Bump): map<string, Stat> {
    var s := if b.sku in stats then stats[b.sku] else Stat(0, 0, 0, b.turn, b.turn);
    stats[b.sku := Stat(s.named + (if b.named then 1 else 0), s.anaphora + (if b.named then 0 else 1), s.total + 1,
                        if s.firstTurn <= b.turn then s.firstTurn else b.turn, b.turn)]
  }

  lemma {:induction false} UnmentionedCountsZero(bumps: seq<Bump>, sku: string, named: bool)
    requires !Mentioned(bumps, sku)
    ensures CountOf(bumps, sku, named) == 0
  {
    if bumps != [] {
      var n := |bumps| - 1;
      assert bumps[n].sku != sku;
      assert forall k :: 0 <= k < n ==> bumps[..n][k] == bumps[k];
      UnmentionedCountsZero(bumps[..n], sku, named);
    }
  }

  /** One more mention of `b.sku`, no earlier than all before it, updates its record alone. */
  lemma BumpRecords(bumps: seq<Bump>, keys: seq<string>, stats: map<string, Stat>, b: Bump)
    requires Tallied(bumps, keys, stats) && forall k :: 0 <= k < |bumps| ==> bumps[k].turn <= b.turn
    ensures Tallied(bumps + [b], FirstMentions(bumps + [b]), Bumped(stats, b))
    ensures FirstMentions(bumps + [b]) == if b.sku in keys then keys else keys + [b.sku]
  {
    assert (bumps + [b])[..|bumps|] == bumps;
    forall sku | sku in Bumped(stats, b) ensures Records(bumps + [b], sku, Bumped(stats, b)[sku]) {
      RecordAfter(bumps, keys, stats, b, sku);
    }
  }

  lemma RecordAfter(bumps: seq<Bump>, keys: seq<string>, stats: map<string, Stat>, b: Bump, sku: string)
    requires Tallied(bumps, keys, stats) && forall k :: 0 <= k < |bumps| ==> bumps[k].turn <= b.turn
    requires sku in Bumped(stats, b)
    ensures Records(bumps + [b], sku, Bumped(stats, b)[sku])
  {
    FirstMentionsAreMentions(bumps);
    if sku in stats {
      RecordsGrow(bumps, sku, stats[sku], b);
    } else {
      FirstRecord(bumps, b);
    }
  }

  lemma FirstRecord(bumps: seq<Bump>, b: Bump)
    requires !Mentioned(bumps, b.sku)
    ensures Records(bumps + [b], b.sku, Stat(if b.named then 1 else 0, if b.named then 0 else 1, 1, b.turn, b.turn))
  {
    var more := bumps + [b];
    assert more[..|bumps|] == bumps && more[|bumps|] == b;
    UnmentionedCountsZero(bumps, b.sku, true);
    UnmentionedCountsZero(bumps, b.sku, false);
  }

  lemma RecordsGrow(bumps: seq<Bump>, sku: string, s: Stat, b: Bump)
    requires Records(bumps, sku, s) && forall k :: 0 <= k < |bumps| ==> bumps[k].turn <= b.turn
    ensures b.sku != sku ==> Records(bumps + [b], sku, s)
    ensures b.sku == sku ==>
              Records(bumps + [b], sku, Stat(s.named + (if b.named then 1 else 0), s.anaphora + (if b.named then 0 else 1),
                                             s.total + 1, s.firstTurn, b.turn)) && s.firstTurn <= b.turn
  {
    var more := bumps + [b];
    assert more[..|bumps|] == bumps && more[|bumps|] == b;
    var f :| 0 <= f < |bumps| && bumps[f].sku == sku && bumps[f].turn == s.firstTurn;
    var l :| 0 <= l < |bumps| && bumps[l].sku == sku && bumps[l].turn == s.lastTurn;
    assert more[f] == bumps[f] && more[l] == bumps[l];
  }

  /* ----- the resolver ----- */

  /** More mentions first, then the more recent. */
  predicate MoreDiscussed(a: Stat, b: Stat) {
    a.total > b.total || (a.total == b.total && a.lastTurn >= b.lastTurn)
  }

  function StatOf(stats: map<string, Stat>, sku: string): Stat {
    if sku in stats then stats[sku] else Stat(0, 0, 0, 0, 0)
  }

  function ByDiscussion(stats: map<string, Stat>): (string, string) -> bool {
    (a, b) => MoreDiscussed(StatOf(stats, a), StatOf(stats, b))
  }

  lemma SortedByDiscussion(keys: seq<string>, stats: map<string, Stat>)
    requires forall sku :: sku in keys ==> sku in stats
    ensures var ordered := Sort(keys, ByDiscussion(stats));
            && multiset(ordered) == multiset(keys) && (forall i :: 0 <= i < |ordered| ==> ordered[i] in stats)
            && (forall i, j :: 0 <= i < j < |ordered| && ordered[i] in stats && ordered[j] in stats ==>
                  var a, b := stats[ordered[i]], stats[ordered[j]];
                  a.total > b.total || (a.total == b.total && a.lastTurn >= b.lastTurn))
  {
    var ordered := Sort(keys, ByDiscussion(stats));
    SortSorts(keys, ByDiscussion(stats));
    SortKeepsElements(keys, ByDiscussion(stats));
    forall i | 0 <= i < |ordered| ensures ordered[i] in stats {
      assert ordered[i] in keys;
    }
    forall i, j | 0 <= i < j < |ordered| ensures MoreDiscussed(stats[ordered[i]], stats[ordered[j]]) {
      assert ByDiscussion(stats)(ordered[i], ordered[j]);
    }
  }

  method Resolve(ear: Ear, texts: seq<string>)
    returns (ordered: seq<string>, dominant: Option<string>, stats: map<string, Stat>)
    requires UsableIndex(ear.index)
    ensures var bumps := Bumps(HearAll(ear, texts), |texts|);
            && Tallied(bumps, FirstMentions(bumps), stats)
            && ordered == Sort(FirstMentions(bumps), ByDiscussion(stats))
            && multiset(ordered) == multiset(FirstMentions(bumps))
    ensures dominant == if ordered == [] then None else Some(ordered[0])
    ensures forall i :: 0 <= i < |ordered| ==> ordered[i] in stats
    ensures forall i, j :: 0 <= i < j < |ordered| && ordered[i] in stats && ordered[j] in stats ==>
              var a, b := stats[ordered[i]], stats[ordered[j]];
              a.total > b.total || (a.total == b.total && a.lastTurn >= b.lastTurn)
  {
    ghost var t := HearAll(ear, texts);
    var keys: seq<string> := [];
    stats := map[];
    var current: Option<string> := None;
    var i := 0;
    while i < |texts|
      invariant 0 <= i <= |texts| && current == Focus(t, i)
      invariant Tallied(Bumps(t, i), keys, stats)
    {
      keys, stats, current := ResolveLine(ear, texts[i], t, i, keys, stats, current);
      i := i + 1;
    }
    ghost var bumps := Bumps(t, |texts|);
    ordered := Sort(keys, ByDiscussion(stats));
    SortedByDiscussion(keys, stats);
    dominant := if ordered == [] then None else Some(ordered[0]);
  }

  /** One pass of the loop over the transcript. */
  method ResolveLine(ear: Ear, text: string, ghost t: seq<Line>, i: nat, keys: seq<string>,
                     stats: map<string, Stat>, current: Option<string>)
    returns (keys': seq<string>, stats': map<string, Stat>, current': Option<string>)
    requires UsableIndex(ear.index) && i < |t| && t[i] == Hear(ear, text) && current == Focus(t, i)
    requires Tallied(Bumps(t, i), keys, stats)
    ensures Tallied(Bumps(t, i + 1), keys', stats') && current' == Focus(t, i + 1)
  {
    keys', stats', current' := keys, stats, current;
    if text == "" {
      SilentLine(t, i);
      return;
    }
    var named := FindNamed(text, ear.index, ear.wordChar);
    FocusAfter(t, i, named);
    keys', stats' := CountLine(t, i, keys, stats, named, current, ear.cue(text));
    current' := if named != [] then Some(named[|named| - 1].sku) else current;
  }

  lemma FocusAfter(t: seq<Line>, i: nat, named: seq<Hit>)
    requires i < |t| && t[i].hits == named
    ensures Focus(t, i + 1) == if named != [] then Some(named[|named| - 1].sku) else Focus(t, i)
  {
  }

  lemma SilentLine(t: seq<Line>, i: nat)
    requires i < |t| && t[i] == Line([], false)
    ensures Bumps(t, i + 1) == Bumps(t, i) && Focus(t, i + 1) == Focus(t, i)
  {
  }

  /** Counts one line: its names, or one mention of the product in focus. */
  method CountLine(ghost t: seq<Line>, i: nat, keys: seq<string>, stats: map<string, Stat>,
                   named: seq<Hit>, current: Option<string>, cue: bool)
    returns (keys': seq<string>, stats': map<string, Stat>)
    requires i < |t| && t[i] == Line(named, cue) && current == Focus(t, i)
    requires Tallied(Bumps(t, i), keys, stats)
    ensures Tallied(Bumps(t, i + 1), keys', stats')
  {
    BumpsAreInTurnOrder(t, i);
    keys', stats' := CountNames(Bumps(t, i), keys, stats, named, i);
    if current.Some? && cue && named == [] {
      assert TurnBumps(t, i) == [Bump(current.value, i, false)];
      keys', stats' := CountOne(Bumps(t, i), keys, stats, Bump(current.value, i, false));
    }
  }

  method CountNames(ghost bumps: seq<Bump>, keys: seq<string>, stats: map<string, Stat>, named: seq<Hit>, turn: nat)
    returns (keys': seq<string>, stats': map<string, Stat>)
    requires Tallied(bumps, keys, stats) && forall k :: 0 <= k < |bumps| ==> bumps[k].turn < turn
    ensures Tallied(bumps + NameBumps(named, turn), keys', stats')
    ensures named == [] ==> keys' == keys && stats' == stats
  {
    keys', stats' := keys, stats;
    var k := 0;
    assert bumps + NameBumps(named[..0], turn) == bumps;
    while k < |named|
      invariant 0 <= k <= |named|
      invariant Tallied(bumps + NameBumps(named[..k], turn), keys', stats')
      invariant k == 0 ==> keys' == keys && stats' == stats
    {
      NameBumpsGrow(bumps, named, k, turn);
      keys', stats' := CountOne(bumps + NameBumps(named[..k], turn), keys', stats', Bump(named[k].sku, turn, true));
      k := k + 1;
    }
    assert named[..k] == named;
  }

  lemma NameBumpsGrow(bumps: seq<Bump>, named: seq<Hit>, k: nat, turn: nat)
    requires k < |named|
    ensures bumps + NameBumps(named[..k + 1], turn)
            == bumps + NameBumps(named[..k], turn) + [Bump(named[k].sku, turn, true)]
  {
  }

  /** One more mention: its product's record is made or brought up to date. */
  method CountOne(ghost bumps: seq<Bump>, keys: seq<string>, stats: map<string, Stat>, b: Bump)
    returns (keys': seq<string>, stats': map<string, Stat>)
    requires Tallied(bumps, keys, stats) && forall k :: 0 <= k < |bumps| ==> bumps[k].turn <= b.turn
    ensures Tallied(bumps + [b], keys', stats')
  {
    BumpRecords(bumps, keys, stats, b);
    keys' := if b.sku in keys then keys else keys + [b.sku];
    stats' := Bumped(stats, b);
  }

  lemma {:induction false} BumpsAreInTurnOrder(t: seq<Line>, n: nat)
    requires n <= |t|
    ensures forall k :: 0 <= k < |Bumps(t, n)| ==> Bumps(t, n)[k].turn < n
  {
    if n > 0 {
      BumpsAreInTurnOrder(t, n - 1);
    }
  }

  /* ----- what the totals mean ----- */

  /** Line `j` named products, the last of them `sku`, and no line from there to `n` named any. */
  ghost predicate LastNaming(t: seq<Line>, n: nat, j: nat, sku: string)
    requires n <= |t|
  {
    && j < n && t[j].hits != [] && t[j].hits[|t[j].hits| - 1].sku == sku
    && forall i :: j < i < n ==> t[i].hits == []
  }

  lemma {:induction false} FocusIsTheLastNamed(t: seq<Line>, n: nat)
    requires n <= |t|
    ensures Focus(t, n).Some? ==> exists j: nat :: LastNaming(t, n, j, Focus(t, n).value)
    ensures Focus(t, n).None? ==> forall i :: 0 <= i < n ==> t[i].hits == []
  {
    if n > 0 {
      FocusIsTheLastNamed(t, n - 1);
      if t[n - 1].hits != [] {
        assert LastNaming(t, n, n - 1, Focus(t, n).value);
      } else if Focus(t, n).Some? {
        var j: nat :| LastNaming(t, n - 1, j, Focus(t, n).value);
        assert LastNaming(t, n, j, Focus(t, n).value);
      }
    }
  }

  function NamedHits(t: seq<Line>, n: nat): nat
    requires n <= |t|
  {
    if n == 0 then 0 else NamedHits(t, n - 1) + |t[n - 1].hits|
  }

  /** Some line before `i` named a product. */
  predicate NamedBefore(t: seq<Line>, i: nat)
    requires i <= |t|
  {
    exists j :: 0 <= j < i && t[j].hits != []
  }

  /** The lines among the first `n` that name nothing, carry a cue and have a product to refer to. */
  function BackReferences(t: seq<Line>, n: nat): set<nat>
    requires n <= |t|
  {
    set i: nat | i < n && t[i].hits == [] && t[i].cue && NamedBefore(t, i)
  }

  lemma RefersBackIffNamedBefore(t: seq<Line>, i: nat)
    requires i < |t|
    ensures RefersBack(t, i) <==> t[i].hits == [] && t[i].cue && NamedBefore(t, i)
  {
    FocusIsTheLastNamed(t, i);
    if Focus(t, i).Some? {
      var j: nat :| LastNaming(t, i, j, Focus(t, i).value);
      assert t[j].hits != [];
    }
  }

  lemma BackReferencesGrow(t: seq<Line>, n: nat)
    requires n < |t|
    ensures var before := BackReferences(t, n);
            && n !in before
            && BackReferences(t, n + 1) == if t[n].hits == [] && t[n].cue && NamedBefore(t, n) then before + {n} else before
  {
  }

  lemma {:induction false} BumpsAreAccountedFor(t: seq<Line>, n: nat)
    requires n <= |t|
    ensures |Bumps(t, n)| == NamedHits(t, n) + |BackReferences(t, n)|
  {
    if n > 0 {
      BumpsAreAccountedFor(t, n - 1);
      RefersBackIffNamedBefore(t, n - 1);
      BackReferencesGrow(t, n - 1);
    }
  }

  /** What line `i` adds to the mentions counted before it. */
  function Counted(t: seq<Line>, i: nat): seq<Bump>
    requires i < |t|
  {
    Bumps(t, i + 1)[|Bumps(t, i)|..]
  }

  /** A line that names products counts each of its names, in order, and nothing else. A line that
      names none counts one mention, of the product named last before it, exactly if it carries a
      cue and a product was named before; otherwise nothing. */
  lemma EveryTurnIsCounted(t: seq<Line>, i: nat)
    requires i < |t|
    ensures var counted, hits := Counted(t, i), t[i].hits;
            && Bumps(t, i + 1) == Bumps(t, i) + counted
            && (hits != [] ==>
                  |counted| == |hits| && forall k :: 0 <= k < |hits| ==> counted[k] == Bump(hits[k].sku, i, true))
            && (hits == [] && t[i].cue && NamedBefore(t, i) ==>
                  && |counted| == 1 && counted[0].turn == i && !counted[0].named
                  && exists j: nat :: LastNaming(t, i, j, counted[0].sku))
            && (hits == [] && !(t[i].cue && NamedBefore(t, i)) ==> counted == [])
  {
    assert Counted(t, i) == TurnBumps(t, i);
    RefersBackIffNamedBefore(t, i);
    FocusIsTheLastNamed(t, i);
  }

  function SumTotals(keys: seq<string>, stats: map<string, Stat>): nat {
    if keys == [] then 0 else SumTotals(keys[..|keys| - 1], stats) + StatOf(stats, keys[|keys| - 1]).total
  }

  function SumCounts(keys: seq<string>, bumps: seq<Bump>): nat {
    if keys == [] then 0
    else SumCounts(keys[..|keys| - 1], bumps)
         + CountOf(bumps, keys[|keys| - 1], true) + CountOf(bumps, keys[|keys| - 1], false)
  }

  lemma {:induction false} SumsAgree(keys: seq<string>, bumps: seq<Bump>, stats: map<string, Stat>)
    requires forall sku :: sku in keys ==> sku in stats && Records(bumps, sku, stats[sku])
    ensures SumTotals(keys, stats) == SumCounts(keys, bumps)
  {
    if keys != [] {
      var n := |keys| - 1;
      assert keys[n] in keys && forall sku :: sku in keys[..n] ==> sku in keys;
      SumsAgree(keys[..n], bumps, stats);
    }
  }

  lemma {:induction false} CountsAfterBump(keys: seq<string>, bumps: seq<Bump>)
    requires Distinct(keys) && bumps != []
    ensures SumCounts(keys, bumps)
            == SumCounts(keys, bumps[..|bumps| - 1]) + if bumps[|bumps| - 1].sku in keys then 1 else 0
    decreases |keys|
  {
    if keys != [] {
      var n := |keys| - 1;
      CountsAfterBump(keys[..n], bumps);
      assert forall sku :: sku in keys <==> sku in keys[..n] || sku == keys[n];
    }
  }

  lemma {:induction false} CountsCoverBumps(keys: seq<string>, bumps: seq<Bump>)
    requires Distinct(keys) && forall k :: 0 <= k < |bumps| ==> bumps[k].sku in keys
    ensures SumCounts(keys, bumps) == |bumps|
    decreases |bumps|
  {
    if bumps == [] {
      NoBumpsNoCounts(keys);
    } else {
      CountsAfterBump(keys, bumps);
      CountsCoverBumps(keys, bumps[..|bumps| - 1]);
    }
  }

  lemma {:induction false} NoBumpsNoCounts(keys: seq<string>)
    ensures SumCounts(keys, []) == 0
  {
    if keys != [] { NoBumpsNoCounts(keys[..|keys| - 1]); }
  }

  /** The totals of all products add up to the named hits plus the lines that referred back:
      nothing is counted twice, nothing is lost. */
  lemma TotalsAreConserved(t: seq<Line>, stats: map<string, Stat>)
    requires Tallied(Bumps(t, |t|), FirstMentions(Bumps(t, |t|)), stats)
    ensures SumTotals(FirstMentions(Bumps(t, |t|)), stats) == NamedHits(t, |t|) + |BackReferences(t, |t|)|
  {
    var bumps := Bumps(t, |t|);
    var keys := FirstMentions(bumps);
    FirstMentionsAreMentions(bumps);
    forall k | 0 <= k < |bumps| ensures bumps[k].sku in keys {
      assert Mentioned(bumps, bumps[k].sku);
    }
    SumsAgree(keys, bumps, stats);
    CountsCoverBumps(keys, bumps);
    BumpsAreAccountedFor(t, |t|);
  }

  /** A pronoun is credited to the product named most recently before it, and to no other. */
  lemma {:induction false} PronounsFollowTheFocus(t: seq<Line>, n: nat, k: nat)
    requires n <= |t| && k < |Bumps(t, n)| && !Bumps(t, n)[k].named
    ensures var b := Bumps(t, n)[k];
            && b.turn < n && t[b.turn].hits == [] && t[b.turn].cue
            && exists j: nat :: LastNaming(t, b.turn, j, b.sku)
  {
    var earlier := Bumps(t, n - 1);
    if k < |earlier| {
      PronounsFollowTheFocus(t, n - 1, k);
    } else {
      FocusIsTheLastNamed(t, n - 1);
    }
  }
}
