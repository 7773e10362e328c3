/** Ranking catalog products: scores, price tie-break, and what was discussed first. */
module Ranking {
  import opened Basics
  import opened Sorting

  datatype Product = Product(sku: string, price: int, series: string, tier: string, cooling: bool,
                             overlap: nat, emiLine: string, trialNights: nat, positioning: string)

  datatype Profile = Profile(ortho: bool, cooling: bool, wantsSoft: bool, wantsFirm: bool, warranty: bool,
                             budgetSensitive: bool, premiumIntent: bool, emiInterest: bool, trial: bool)

  /** Why a product is shown, without the wording. */
  datatype Reason =
    | OrthoSupport | HotSleeper | SoftComfort | FirmFeel | LongWarranty | TightBudget | PremiumPick
    | EmiOffer(line: string) | HomeTrial(nights: nat) | Positioned(text: string) | Discussed

  datatype Scored = Scored(product: Product, score: int, reasons: seq<Reason>)

  function Affordability(tier: string): int {
    if tier == "entry" then 12 else if tier == "mid" then 6
    else if tier == "premium" then -2 else if tier == "luxury" then -10 else 0
  }

  function Premium(tier: string): int {
    if tier == "entry" then -6 else if tier == "mid" then 0
    else if tier == "premium" then 8 else if tier == "luxury" then 12 else 0
  }

  function Clamp(score: int): int {
    var capped := if score < 99 then score else 99;
    if capped > 40 then capped else 40
  }

  /** Points for the needs the customer voiced. */
  function ComfortPoints(p: Product, w: Profile): int {
    (if w.ortho then (if p.series == "ortho" then 22 else -8) else 0)
    + (if w.cooling then (if p.cooling then 26 else -12) else 0)
  }

  function FeelPoints(p: Product, w: Profile): int {
    (if w.wantsSoft && p.series == "luxe" then 14 else 0)
    + (if w.wantsFirm && p.series == "ortho" then 10 else 0)
    + (if w.warranty then 4 else 0)
  }

  /** Points for the affordability posture. */
  function TierPoints(p: Product, w: Profile): int {
    (if w.budgetSensitive then Affordability(p.tier) else 0)
    + (if w.premiumIntent then Premium(p.tier) else 0)
  }

  /** Four points a keyword, at most twelve. */
  function OverlapPoints(p: Product): int {
    if p.overlap * 4 < 12 then p.overlap * 4 else 12
  }

  /** Points before clamping: needs, keyword overlap, affordability posture. */
  function Points(p: Product, w: Profile): int {
    60 + ComfortPoints(p, w) + FeelPoints(p, w) + OverlapPoints(p) + TierPoints(p, w)
  }

  function Note(holds: bool, r: Reason): seq<Reason> {
    if holds then [r] else []
  }

  function ComfortReasons(p: Product, w: Profile): seq<Reason> {
    Note(w.ortho && p.series == "ortho", OrthoSupport) + Note(w.cooling && p.cooling, HotSleeper)
  }

  function FeelReasons(p: Product, w: Profile): seq<Reason> {
    Note(w.wantsSoft && p.series == "luxe", SoftComfort) + Note(w.wantsFirm && p.series == "ortho", FirmFeel)
    + Note(w.warranty, LongWarranty)
  }

  function PostureReasons(p: Product, w: Profile): seq<Reason> {
    Note(w.budgetSensitive && p.tier in {"entry", "mid"}, TightBudget)
    + Note(w.premiumIntent && p.tier in {"premium", "luxury"}, PremiumPick)
  }

  function OfferReasons(p: Product, w: Profile): seq<Reason> {
    Note(w.emiInterest && p.emiLine != "", EmiOffer(p.emiLine))
    + Note(w.trial && p.trialNights > 0, HomeTrial(p.trialNights))
  }

  function Matched(p: Product, w: Profile): seq<Reason> {
    ComfortReasons(p, w) + FeelReasons(p, w) + PostureReasons(p, w) + OfferReasons(p, w)
  }

  /** What matched, or failing that the product's own line. */
  function Reasons(p: Product, w: Profile): seq<Reason> {
    if Matched(p, w) == [] then Note(p.positioning != "", Positioned(p.positioning)) else Matched(p, w)
  }

  /** What makes a reason true of a product and a profile. */
  predicate Holds(p: Product, w: Profile, r: Reason) {
    match r
    case OrthoSupport => w.ortho && p.series == "ortho"
    case HotSleeper => w.cooling && p.cooling
    case SoftComfort => w.wantsSoft && p.series == "luxe"
    case FirmFeel => w.wantsFirm && p.series == "ortho"
    case LongWarranty => w.warranty
    case TightBudget => w.budgetSensitive && p.tier in {"entry", "mid"}
    case PremiumPick => w.premiumIntent && p.tier in {"premium", "luxury"}
    case EmiOffer(line) => w.emiInterest && line == p.emiLine != ""
    case HomeTrial(nights) => w.trial && nights == p.trialNights > 0
    case Positioned(_) => false
    case Discussed => false
  }

  /** A product is given exactly the reasons that hold; its own line only if none does. */
  lemma ReasonsAreTheOnesThatHold(p: Product, w: Profile, r: Reason)
    ensures !r.Positioned? ==> (r in Reasons(p, w) <==> Holds(p, w, r))
    ensures r.Positioned? ==>
              (r in Reasons(p, w) <==> r.text == p.positioning != "" && forall x :: !Holds(p, w, x))
  {
    if r.Positioned? {
      if Matched(p, w) == [] {
        forall x ensures !Holds(p, w, x) {
          MatchedHolds(p, w, x);
        }
      } else {
        MatchedHolds(p, w, Matched(p, w)[0]);
        MatchedHolds(p, w, r);
      }
    } else {
      MatchedHolds(p, w, r);
    }
  }

  lemma MatchedHolds(p: Product, w: Profile, r: Reason)
    ensures r in Matched(p, w) <==> Holds(p, w, r)
  {
    ComfortHolds(p, w, r);
    FeelHolds(p, w, r);
    PostureHolds(p, w, r);
    OffersHold(p, w, r);
  }

  lemma ComfortHolds(p: Product, w: Profile, r: Reason)
    ensures r in ComfortReasons(p, w) <==> (r.OrthoSupport? || r.HotSleeper?) && Holds(p, w, r)
  {
  }

  lemma FeelHolds(p: Product, w: Profile, r: Reason)
    ensures r in FeelReasons(p, w) <==> (r.SoftComfort? || r.FirmFeel? || r.LongWarranty?) && Holds(p, w, r)
  {
  }

  lemma PostureHolds(p: Product, w: Profile, r: Reason)
    ensures r in PostureReasons(p, w) <==> (r.TightBudget? || r.PremiumPick?) && Holds(p, w, r)
  {
  }

  lemma OffersHold(p: Product, w: Profile, r: Reason)
    ensures r in OfferReasons(p, w) <==> (r.EmiOffer? || r.HomeTrial?) && Holds(p, w, r)
  {
  }

  method ScoreComfort(p: Product, w: Profile, start: int) returns (score: int, reasons: seq<Reason>)
    ensures score == start + ComfortPoints(p, w) && reasons == ComfortReasons(p, w)
  {
    score, reasons := start, [];
    if w.ortho {
      if p.series == "ortho" {
        score, reasons := score + 22, reasons + [OrthoSupport];
      } else {
        score := score - 8;
      }
    }
    if w.cooling {
      if p.cooling {
        score, reasons := score + 26, reasons + [HotSleeper];
      } else {
        score := score - 12;
      }
    }
  }

  method ScoreFeel(p: Product, w: Profile, start: int) returns (score: int, reasons: seq<Reason>)
    ensures score == start + FeelPoints(p, w) && reasons == FeelReasons(p, w)
  {
    score, reasons := start, [];
    if w.wantsSoft && p.series == "luxe" {
      score, reasons := score + 14, reasons + [SoftComfort];
    }
    if w.wantsFirm && p.series == "ortho" {
      score, reasons := score + 10, reasons + [FirmFeel];
    }
    if w.warranty {
      score, reasons := score + 4, reasons + [LongWarranty];
    }
  }

  method ScorePosture(p: Product, w: Profile, start: int) returns (score: int, reasons: seq<Reason>)
    ensures score == start + TierPoints(p, w) && reasons == PostureReasons(p, w)
  {
    score, reasons := start, [];
    if w.budgetSensitive {
      score := score + Affordability(p.tier);
      if p.tier in {"entry", "mid"} { reasons := reasons + [TightBudget]; }
    }
    if w.premiumIntent {
      score := score + Premium(p.tier);
      if p.tier in {"premium", "luxury"} { reasons := reasons + [PremiumPick]; }
    }
  }

  method OfferLines(p: Product, w: Profile) returns (reasons: seq<Reason>)
    ensures reasons == OfferReasons(p, w)
  {
    reasons := [];
    if w.emiInterest && p.emiLine != "" { reasons := reasons + [EmiOffer(p.emiLine)]; }
    if w.trial && p.trialNights > 0 { reasons := reasons + [HomeTrial(p.trialNights)]; }
  }

  method ScoreProduct(p: Product, w: Profile) returns (score: int, reasons: seq<Reason>)
    ensures score == Clamp(Points(p, w)) && 40 <= score <= 99
    ensures reasons == Reasons(p, w)
  {
    score, reasons := ScoreComfort(p, w, 60);
    var feel, posture: seq<Reason>;
    score, feel := ScoreFeel(p, w, score);
    score := score + OverlapPoints(p);
    score, posture := ScorePosture(p, w, score);
    var offers := OfferLines(p, w);
    reasons := reasons + feel + posture + offers;
    assert reasons == Matched(p, w);
    if reasons == [] {
      reasons := Note(p.positioning != "", Positioned(p.positioning));
    }
    score := Clamp(score);
  }

  /** Higher score first, then the cheaper. */
  predicate Better(a: Scored, b: Scored) {
    a.score > b.score || (a.score == b.score && a.product.price <= b.product.price)
  }

  function ScoreOf(p: Product, w: Profile): Scored {
    Scored(p, Clamp(Points(p, w)), Reasons(p, w))
  }

  function ScoreAll(products: seq<Product>, w: Profile): (r: seq<Scored>)
    ensures |r| == |products|
    ensures forall i :: 0 <= i < |r| ==> r[i] == ScoreOf(products[i], w)
  {
    seq(|products|, i requires 0 <= i < |products| =>
      ScoreOf(products[i], w))
  }

  /* ----- discussed first ----- */

  /** The shelf while discussed products move to the front: the sorted list, whose entries
      may gain a tag in place, and the front so far. */
  datatype Shelf = Shelf(all: seq<Scored>, front: seq<Scored>)

  /** Position of the last product with the SKU, or the length: a dictionary by SKU. */
  function Lookup(all: seq<Scored>, sku: string): (k: nat)
    ensures k <= |all| && (k < |all| ==> all[k].product.sku == sku)
    ensures k == |all| ==> forall i :: 0 <= i < |all| ==> all[i].product.sku != sku
  {
    LookupBelow(all, sku, |all|)
  }

  function LookupBelow(all: seq<Scored>, sku: string, n: nat): (k: nat)
    requires n <= |all|
    ensures k <= |all| && (k < |all| ==> k < n && all[k].product.sku == sku)
    ensures k == |all| ==> forall i :: 0 <= i < n ==> all[i].product.sku != sku
  {
    if n == 0 then |all|
    else if all[n - 1].product.sku == sku then n - 1
    else LookupBelow(all, sku, n - 1)
  }

  function Tagged(p: Scored): Scored {
    if Discussed in p.reasons then p else p.(reasons := [Discussed] + p.reasons)
  }

  /** The tag goes in front of the reasons; nothing else of the product changes. */
  lemma TagGoesFirst(p: Product, w: Profile)
    ensures Tagged(ScoreOf(p, w)) == ScoreOf(p, w).(reasons := [Discussed] + Reasons(p, w))
  {
    ReasonsAreTheOnesThatHold(p, w, Discussed);
  }

  function Feature(shelf: Shelf, sku: string): Shelf {
    var k := Lookup(shelf.all, sku);
    if sku == "" || k == |shelf.all| || shelf.all[k] in shelf.front then shelf
    else Shelf(shelf.all[k := Tagged(shelf.all[k])], shelf.front + [Tagged(shelf.all[k])])
  }

  function FeatureAll(shelf: Shelf, skus: seq<string>): Shelf {
    if skus == [] then shelf else Feature(FeatureAll(shelf, skus[..|skus| - 1]), skus[|skus| - 1])
  }

  function Without(all: seq<Scored>, front: seq<Scored>): seq<Scored> {
    if all == [] then []
    else Without(all[..|all| - 1], front) + if all[|all| - 1] in front then [] else [all[|all| - 1]]
  }

  /** A Python slice up to `limit`; a negative one counts from the end. */
  function UpTo<T>(xs: seq<T>, limit: int): seq<T> {
    if limit >= 0 then Limit(xs, limit)
    else if |xs| + limit >= 0 then xs[..|xs| + limit] else []
  }

  function Ranked(products: seq<Product>, w: Profile, discussed: seq<string>): seq<Scored> {
    var sorted := Sort(ScoreAll(products, w), Better);
    var shelf := FeatureAll(Shelf(sorted, []), discussed);
    shelf.front + Without(shelf.all, shelf.front)
  }

  method RankProducts(products: seq<Product>, w: Profile, limit: int, discussed: seq<string>) returns (r: seq<Scored>)
    ensures r == UpTo(Ranked(products, w, discussed), limit) && r <= Ranked(products, w, discussed)
    ensures 0 <= limit <= |Ranked(products, w, discussed)| ==> |r| == limit
    ensures limit >= |Ranked(products, w, discussed)| ==> r == Ranked(products, w, discussed)
    ensures forall x :: x in r ==> 40 <= x.score <= 99
  {
    var scored: seq<Scored> := [];
    var i := 0;
    while i < |products|
      invariant 0 <= i <= |products| && scored == ScoreAll(products[..i], w)
    {
      var score, reasons := ScoreProduct(products[i], w);
      scored := scored + [Scored(products[i], score, reasons)];
      i := i + 1;
    }
    assert products[..i] == products;
    scored := Sort(scored, Better);
    ghost var sorted := scored;
    var front: seq<Scored> := [];
    var k := 0;
    while k < |discussed|
      invariant 0 <= k <= |discussed|
      invariant Shelf(scored, front) == FeatureAll(Shelf(sorted, []), discussed[..k])
    {
      assert discussed[..k + 1][..k] == discussed[..k];
      var sku := discussed[k];
      if sku != "" {
        var at := Lookup(scored, sku);
        if at < |scored| && scored[at] !in front {
          var p := if Discussed in scored[at].reasons then scored[at]
                   else scored[at].(reasons := [Discussed] + scored[at].reasons);
          scored := scored[at := p];
          front := front + [p];
        }
      }
      k := k + 1;
    }
    assert discussed[..k] == discussed;
    r := UpTo(front + Without(scored, front), limit);
    ScoresStayInRange(products, w, discussed);
  }

  /* ----- what the order means, for a catalog with distinct SKUs ----- */

  ghost predicate DistinctSkus(all: seq<Scored>) {
    forall i, j :: 0 <= i < j < |all| ==> all[i].product.sku != all[j].product.sku
  }

  /** The shelf holds the sorted products, some tagged; the front is the tagged ones moved. */
  ghost predicate ShelfOk(base: seq<Scored>, shelf: Shelf) {
    && |shelf.all| == |base|
    && (forall k :: 0 <= k < |base| ==> shelf.all[k].product == base[k].product && shelf.all[k].score == base[k].score)
    && (forall x :: x in shelf.front ==> x in shelf.all && Discussed in x.reasons)
    && (forall k :: 0 <= k < |base| && shelf.all[k] !in shelf.front ==> shelf.all[k] == base[k])
    && Distinct(shelf.front)
  }

  lemma {:induction false} FeatureAllKeepsShelf(base: seq<Scored>, skus: seq<string>)
    requires DistinctSkus(base)
    ensures ShelfOk(base, FeatureAll(Shelf(base, []), skus))
  {
    if skus != [] {
      FeatureAllKeepsShelf(base, skus[..|skus| - 1]);
    }
  }

  predicate Stocked(base: seq<Scored>, sku: string) {
    exists k :: 0 <= k < |base| && base[k].product.sku == sku
  }

  /** Known, named SKUs, each where it is first mentioned. */
  function FirstMentions(base: seq<Scored>, skus: seq<string>): seq<string> {
    if skus == [] then [] else
      var earlier := FirstMentions(base, skus[..|skus| - 1]);
      var sku := skus[|skus| - 1];
      if sku == "" || !Stocked(base, sku) || sku in earlier then earlier else earlier + [sku]
  }

  function Skus(xs: seq<Scored>): (r: seq<string>)
    ensures |r| == |xs| && forall i :: 0 <= i < |r| ==> r[i] == xs[i].product.sku
  {
    seq(|xs|, i requires 0 <= i < |xs| => xs[i].product.sku)
  }

  /** The front is the discussed products the catalog knows, in first-mention order. */
  lemma {:induction false} FrontIsFirstMentions(base: seq<Scored>, skus: seq<string>)
    requires DistinctSkus(base)
    ensures Skus(FeatureAll(Shelf(base, []), skus).front) == FirstMentions(base, skus)
  {
    if skus != [] {
      var n := |skus| - 1;
      var shelf := FeatureAll(Shelf(base, []), skus[..n]);
      var sku := skus[n];
      FrontIsFirstMentions(base, skus[..n]);
      FeatureAllKeepsShelf(base, skus[..n]);
      var k := Lookup(shelf.all, sku);
      if sku != "" {
        assert Stocked(base, sku) <==> k < |base| by {
          if k < |base| { assert base[k].product.sku == sku; }
        }
        if k < |base| {
          assert shelf.all[k] in shelf.front <==> sku in Skus(shelf.front) by {
            InFrontIffSku(base, shelf, k);
          }
        }
      }
    }
  }

  lemma InFrontIffSku(base: seq<Scored>, shelf: Shelf, k: nat)
    requires DistinctSkus(base) && ShelfOk(base, shelf) && k < |base|
    ensures shelf.all[k] in shelf.front <==> base[k].product.sku in Skus(shelf.front)
  {
    if shelf.all[k] in shelf.front {
      var i :| 0 <= i < |shelf.front| && shelf.front[i] == shelf.all[k];
      assert Skus(shelf.front)[i] == base[k].product.sku;
    }
    if base[k].product.sku in Skus(shelf.front) {
      var i :| 0 <= i < |shelf.front| && Skus(shelf.front)[i] == base[k].product.sku;
      assert shelf.front[i] in shelf.front;
      var j :| 0 <= j < |shelf.all| && shelf.all[j] == shelf.front[i];
      assert base[j].product.sku == base[k].product.sku;
      assert j == k;
    }
  }

  lemma {:induction false} WithoutKeepsTheRest(all: seq<Scored>, front: seq<Scored>)
    ensures forall x :: x in Without(all, front) <==> x in all && x !in front
    ensures Distinct(all) ==> Distinct(Without(all, front))
  {
    if all != [] {
      WithoutKeepsTheRest(all[..|all| - 1], front);
    }
  }

  lemma {:induction false} WithoutIsOrdered(base: seq<Scored>, all: seq<Scored>, front: seq<Scored>)
    requires |base| == |all| && Ordered(base, Better)
    requires forall k :: 0 <= k < |all| && all[k] !in front ==> all[k] == base[k]
    ensures Ordered(Without(all, front), Better)
    decreases |all|
  {
    if all != [] {
      var n := |all| - 1;
      WithoutIsOrdered(base[..n], all[..n], front);
      WithoutKeepsTheRest(all[..n], front);
      var rest := Without(all[..n], front);
      if all[n] !in front {
        forall i | 0 <= i < |rest| ensures Better(rest[i], all[n]) {
          assert rest[i] in all[..n] && rest[i] !in front;
          var k :| 0 <= k < n && all[..n][k] == rest[i];
          assert all[k] == base[k] && Better(base[k], base[n]);
        }
      }
    }
  }

  lemma SkuNamesTheProduct(products: seq<Product>, w: Profile, x: Scored, y: Scored)
    requires forall i, j :: 0 <= i < j < |products| ==> products[i].sku != products[j].sku
    requires x in ScoreAll(products, w) && y in ScoreAll(products, w) && x.product.sku == y.product.sku
    ensures x == y
  {
    var raw := ScoreAll(products, w);
    var a :| 0 <= a < |raw| && raw[a] == x;
    var b :| 0 <= b < |raw| && raw[b] == y;
    assert products[a].sku == products[b].sku;
  }

  lemma ScoresAreDistinct(products: seq<Product>, w: Profile)
    requires forall i, j :: 0 <= i < j < |products| ==> products[i].sku != products[j].sku
    ensures Distinct(ScoreAll(products, w))
  {
    var raw := ScoreAll(products, w);
    forall i, j | 0 <= i < j < |raw| ensures raw[i] != raw[j] {
      assert products[i].sku != products[j].sku;
    }
  }

  lemma SortedCatalog(products: seq<Product>, w: Profile)
    requires forall i, j :: 0 <= i < j < |products| ==> products[i].sku != products[j].sku
    ensures var base := Sort(ScoreAll(products, w), Better);
            && DistinctSkus(base) && Ordered(base, Better) && |base| == |products|
            && (forall x :: x in base <==> x in ScoreAll(products, w))
  {
    var raw := ScoreAll(products, w);
    var base := Sort(raw, Better);
    SortSorts(raw, Better);
    SortKeepsElements(raw, Better);
    ScoresAreDistinct(products, w);
    forall i, j | 0 <= i < j < |base| ensures base[i].product.sku != base[j].product.sku {
      assert base[i] in base && base[j] in base && base[i] != base[j];
      if base[i].product.sku == base[j].product.sku {
        SkuNamesTheProduct(products, w, base[i], base[j]);
      }
    }
  }

  /** With distinct SKUs: first the discussed products the catalog knows, in first-mention
      order; then all the others, by falling score and rising price, untouched. */
  lemma DiscussedThenBest(products: seq<Product>, w: Profile, discussed: seq<string>)
    requires forall i, j :: 0 <= i < j < |products| ==> products[i].sku != products[j].sku
    ensures var base := Sort(ScoreAll(products, w), Better);
            var shelf := FeatureAll(Shelf(base, []), discussed);
            var rest := Without(shelf.all, shelf.front);
            && Ranked(products, w, discussed) == shelf.front + rest
            && Skus(shelf.front) == FirstMentions(base, discussed)
            && Ordered(rest, Better) && (forall x :: x in rest ==> x in ScoreAll(products, w))
            && (forall x :: x in shelf.front ==> Discussed in x.reasons)
  {
    var base := Sort(ScoreAll(products, w), Better);
    SortedCatalog(products, w);
    FrontIsFirstMentions(base, discussed);
    FeatureAllKeepsShelf(base, discussed);
    var shelf := FeatureAll(Shelf(base, []), discussed);
    WithoutIsOrdered(base, shelf.all, shelf.front);
    WithoutKeepsTheRest(shelf.all, shelf.front);
    forall x | x in Without(shelf.all, shelf.front) ensures x in ScoreAll(products, w) {
      assert x in shelf.all && x !in shelf.front;
      var k :| 0 <= k < |shelf.all| && shelf.all[k] == x;
      assert base[k] in base;
    }
  }

  /** No product is lost and none repeated: the ranking before the cut has every product once. */
  lemma NoProductLostOrRepeated(products: seq<Product>, w: Profile, discussed: seq<string>)
    requires forall i, j :: 0 <= i < j < |products| ==> products[i].sku != products[j].sku
    ensures var r := Ranked(products, w, discussed);
            && |r| == |products| && Distinct(Skus(r))
            && (forall p :: p in products <==> exists k :: 0 <= k < |r| && r[k].product == p)
  {
    var base := Sort(ScoreAll(products, w), Better);
    SortedCatalog(products, w);
    FeatureAllKeepsShelf(base, discussed);
    var shelf := FeatureAll(Shelf(base, []), discussed);
    assert Distinct(shelf.all) by {
      forall i, j | 0 <= i < j < |shelf.all| ensures shelf.all[i] != shelf.all[j] {
        assert base[i].product.sku != base[j].product.sku;
      }
    }
    WithoutKeepsTheRest(shelf.all, shelf.front);
    var r := Ranked(products, w, discussed);
    RearrangedShelf(shelf);
    SameElementsSameSize(shelf.all, r);
    forall i, j | 0 <= i < j < |r| ensures Skus(r)[i] != Skus(r)[j] {
      assert r[i] in shelf.all && r[j] in shelf.all;
      var a :| 0 <= a < |shelf.all| && shelf.all[a] == r[i];
      var b :| 0 <= b < |shelf.all| && shelf.all[b] == r[j];
      assert a != b && base[a].product.sku != base[b].product.sku;
    }
    SameProducts(products, w, base, shelf.all, r);
  }

  lemma RearrangedShelf(shelf: Shelf)
    requires Distinct(shelf.all) && Distinct(shelf.front) && forall x :: x in shelf.front ==> x in shelf.all
    ensures var r := shelf.front + Without(shelf.all, shelf.front);
            Distinct(r) && forall x :: x in r <==> x in shelf.all
  {
    WithoutKeepsTheRest(shelf.all, shelf.front);
    var rest := Without(shelf.all, shelf.front);
    var r := shelf.front + rest;
    forall i, j | 0 <= i < j < |r| ensures r[i] != r[j] {
      if i < |shelf.front| <= j {
        assert r[i] in shelf.front && r[j] in rest;
      }
    }
  }

  lemma SameProducts(products: seq<Product>, w: Profile, base: seq<Scored>, all: seq<Scored>, r: seq<Scored>)
    requires |all| == |base| && forall k :: 0 <= k < |base| ==> all[k].product == base[k].product
    requires forall x :: x in base <==> x in ScoreAll(products, w)
    requires forall x :: x in r <==> x in all
    ensures forall p :: p in products <==> exists k :: 0 <= k < |r| && r[k].product == p
  {
    forall p | p in products ensures exists k :: 0 <= k < |r| && r[k].product == p {
      var i :| 0 <= i < |products| && products[i] == p;
      assert ScoreAll(products, w)[i] in base;
      var j :| 0 <= j < |base| && base[j] == ScoreAll(products, w)[i];
      assert all[j] in r;
      var k :| 0 <= k < |r| && r[k] == all[j];
    }
    forall p | exists k :: 0 <= k < |r| && r[k].product == p ensures p in products {
      var k :| 0 <= k < |r| && r[k].product == p;
      assert r[k] in all;
      var j :| 0 <= j < |all| && all[j] == r[k];
      assert base[j] in ScoreAll(products, w);
      var i :| 0 <= i < |products| && ScoreAll(products, w)[i] == base[j];
      assert products[i] == p;
    }
  }

  lemma {:induction false} FeatureKeepsScores(shelf: Shelf, skus: seq<string>)
    requires forall x :: x in shelf.all || x in shelf.front ==> 40 <= x.score <= 99
    ensures var s := FeatureAll(shelf, skus);
            forall x :: x in s.all || x in s.front ==> 40 <= x.score <= 99
  {
    if skus != [] {
      FeatureKeepsScores(shelf, skus[..|skus| - 1]);
    }
  }

  lemma ScoresStayInRange(products: seq<Product>, w: Profile, discussed: seq<string>)
    ensures forall x :: x in Ranked(products, w, discussed) ==> 40 <= x.score <= 99
  {
    var raw := ScoreAll(products, w);
    SortKeepsElements(raw, Better);
    FeatureKeepsScores(Shelf(Sort(raw, Better), []), discussed);
    var shelf := FeatureAll(Shelf(Sort(raw, Better), []), discussed);
    WithoutKeepsTheRest(shelf.all, shelf.front);
  }
}
