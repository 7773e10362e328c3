/** What the scoring is for: a product that meets a voiced need is shown before its like that does
    not, a tight budget prefers the cheaper tiers and a premium intent the dearer. */
module RankingNeeds {
  import opened Sorting
  import opened Ranking

  function Score(p: Product, w: Profile): int {
    ScoreOf(p, w).score
  }

  datatype Need = Ortho | Cooling | Soft | Firm

  predicate Voiced(w: Profile, need: Need) {
    match need
    case Ortho => w.ortho
    case Cooling => w.cooling
    case Soft => w.wantsSoft
    case Firm => w.wantsFirm
  }

  predicate Meets(p: Product, need: Need) {
    match need
    case Ortho => p.series == "ortho"
    case Cooling => p.cooling
    case Soft => p.series == "luxe"
    case Firm => p.series == "ortho"
  }

  /** How far meeting a voiced need sets a product apart from one that does not. */
  function Weight(need: Need): int {
    match need
    case Ortho => 30
    case Cooling => 38
    case Soft => 14
    case Firm => 10
  }

  function Worth(p: Product, w: Profile, need: Need): int {
    if Voiced(w, need) && Meets(p, need) then Weight(need) else 0
  }

  function NeedsMet(p: Product, w: Profile): int {
    Worth(p, w, Ortho) + Worth(p, w, Cooling) + Worth(p, w, Soft) + Worth(p, w, Firm)
  }

  /** Entry to luxury, in order of price; other tiers have no place. */
  function TierPlace(tier: string): int {
    if tier == "entry" then 1 else if tier == "mid" then 2
    else if tier == "premium" then 3 else if tier == "luxury" then 4 else 0
  }

  /** Equal in what is scored besides the needs. */
  predicate Alike(p: Product, q: Product) {
    p.overlap == q.overlap && p.tier == q.tier
  }

  lemma ComfortIsWorth(p: Product, w: Profile)
    ensures ComfortPoints(p, w) == Worth(p, w, Ortho) + Worth(p, w, Cooling) - (if w.ortho then 8 else 0)
                                   - if w.cooling then 12 else 0
  {
  }

  lemma FeelIsWorth(p: Product, w: Profile)
    ensures FeelPoints(p, w) == Worth(p, w, Soft) + Worth(p, w, Firm) + if w.warranty then 4 else 0
  {
  }

  /** Before the clamp, products that are alike differ by the weights of the needs they meet. */
  lemma NeedsDecide(p: Product, q: Product, w: Profile)
    requires Alike(p, q)
    ensures Points(p, w) - Points(q, w) == NeedsMet(p, w) - NeedsMet(q, w)
  {
    ComfortIsWorth(p, w);
    ComfortIsWorth(q, w);
    FeelIsWorth(p, w);
    FeelIsWorth(q, w);
  }

  /** Between 40 and 99 a score is what was counted; outside, the nearer end. */
  lemma ScoreIsClamped(p: Product, w: Profile)
    ensures 40 <= Points(p, w) <= 99 ==> Score(p, w) == Points(p, w)
    ensures Points(p, w) < 40 ==> Score(p, w) == 40
    ensures Points(p, w) > 99 ==> Score(p, w) == 99
  {
  }

  /** Of two products that are alike, the one that meets every voiced need the other meets, and one
      more, never scores lower: it leads by at least the weight of that need before the clamp, and
      scores strictly higher unless both are at the same end of the scale. */
  lemma MeetingANeedPays(p: Product, q: Product, w: Profile, need: Need)
    requires Alike(p, q) && Voiced(w, need) && Meets(p, need) && !Meets(q, need)
    requires forall other :: Voiced(w, other) && Meets(q, other) ==> Meets(p, other)
    ensures Points(p, w) >= Points(q, w) + Weight(need)
    ensures (forall other :: other != need && Voiced(w, other) ==> (Meets(p, other) <==> Meets(q, other))) ==>
              Points(p, w) == Points(q, w) + Weight(need)
    ensures Score(p, w) > Score(q, w) || Score(p, w) == Score(q, w) == 99 || Score(p, w) == Score(q, w) == 40
  {
    NeedsDecide(p, q, w);
    forall other ensures Worth(p, w, other) >= Worth(q, w, other) {}
    assert Worth(p, w, need) == Worth(q, w, need) + Weight(need);
    assert need == Ortho || need == Cooling || need == Soft || need == Firm;
  }

  /** What a profile that voices nothing shows: 60, and four points for each keyword, up to twelve. */
  lemma SilentProfile(p: Product, w: Profile)
    requires w == Profile(false, false, false, false, false, false, false, w.emiInterest, w.trial)
    ensures p.overlap == 0 ==> Score(p, w) == 60
    ensures p.overlap <= 3 ==> Score(p, w) == 60 + 4 * p.overlap
    ensures p.overlap > 3 ==> Score(p, w) == 72
  {
  }

  /** One more keyword is worth four points for any profile, as long as there are not three. */
  lemma OverlapCounts(p: Product, w: Profile)
    ensures Points(p.(overlap := p.overlap + 1), w) == Points(p, w) + if p.overlap < 3 then 4 else 0
  {
  }

  /** What the profile adds or takes whatever the product: the weight of an unmet ortho or cooling
      need is only partly a bonus, and a question about the warranty is worth four points. */
  lemma NobodyMeets(p: Product, w: Profile)
    requires NeedsMet(p, w) == 0 && p.overlap == 0 && !w.budgetSensitive && !w.premiumIntent
    ensures Points(p, w) == 60 - (if w.ortho then 8 else 0) - (if w.cooling then 12 else 0) + if w.warranty then 4 else 0
  {
    ComfortIsWorth(p, w);
    FeelIsWorth(p, w);
  }

  /** The points of a tier for a customer on a tight budget, and for one who wants the best. */
  function BudgetPoints(place: nat): int {
    if place == 1 then 12 else if place == 2 then 6 else if place == 3 then -2 else if place == 4 then -10 else 0
  }

  function PremiumPoints(place: nat): int {
    if place == 1 then -6 else if place == 3 then 8 else if place == 4 then 12 else 0
  }

  lemma TierCounts(tier: string)
    ensures Affordability(tier) == BudgetPoints(TierPlace(tier)) && Premium(tier) == PremiumPoints(TierPlace(tier))
  {
  }

  /** Products that differ only in tier: with a tight budget the cheaper tier scores more, with a
      premium intent the dearer, by the difference of these points before the clamp. */
  lemma PostureDecides(p: Product, q: Product, w: Profile)
    requires q == p.(tier := q.tier)
    ensures Points(p, w) - Points(q, w)
            == (if w.budgetSensitive then BudgetPoints(TierPlace(p.tier)) - BudgetPoints(TierPlace(q.tier)) else 0)
               + if w.premiumIntent then PremiumPoints(TierPlace(p.tier)) - PremiumPoints(TierPlace(q.tier)) else 0
    ensures 1 <= TierPlace(p.tier) < TierPlace(q.tier) ==>
              && (w.budgetSensitive && !w.premiumIntent ==> Points(p, w) > Points(q, w))
              && (w.premiumIntent && !w.budgetSensitive ==> Points(p, w) < Points(q, w))
  {
    TierCounts(p.tier);
    TierCounts(q.tier);
    assert ComfortPoints(p, w) == ComfortPoints(q, w) && FeelPoints(p, w) == FeelPoints(q, w);
  }

  /* ----- the order on the screen ----- */

  /** With nothing discussed a product stands before another only if it scores higher, or the same
      and is no dearer. */
  lemma HigherScoreFirst(products: seq<Product>, w: Profile, i: nat, j: nat)
    requires i < j < |Ranked(products, w, [])|
    ensures var r := Ranked(products, w, []);
            var a, b := r[i].product, r[j].product;
            && a in products && b in products && r[i].score == Score(a, w) && r[j].score == Score(b, w)
            && (Score(a, w) > Score(b, w) || (Score(a, w) == Score(b, w) && a.price <= b.price))
  {
    NothingDiscussed(products, w);
    var base := Sort(ScoreAll(products, w), Better);
    SortSorts(ScoreAll(products, w), Better);
    IsScored(products, w, i);
    IsScored(products, w, j);
    assert Better(base[i], base[j]);
  }

  lemma IsScored(products: seq<Product>, w: Profile, i: nat)
    requires i < |Sort(ScoreAll(products, w), Better)|
    ensures var x := Sort(ScoreAll(products, w), Better)[i];
            x.product in products && x.score == Score(x.product, w)
  {
    var raw := ScoreAll(products, w);
    var base := Sort(raw, Better);
    SortKeepsElements(raw, Better);
    assert base[i] in base;
    var k :| 0 <= k < |raw| && raw[k] == base[i];
    assert raw[k] == ScoreOf(products[k], w);
  }

  lemma NothingDiscussed(products: seq<Product>, w: Profile)
    ensures Ranked(products, w, []) == Sort(ScoreAll(products, w), Better)
  {
    var base := Sort(ScoreAll(products, w), Better);
    KeepAll(base);
    assert FeatureAll(Shelf(base, []), []) == Shelf(base, []);
  }

  lemma {:induction false} KeepAll(all: seq<Scored>)
    ensures Without(all, []) == all
  {
    if all != [] {
      KeepAll(all[..|all| - 1]);
    }
  }

  /** So a product is never shown behind its like that misses a need it meets, unless both are at
      the same end of the scale and the other is no dearer. */
  lemma NeedsAreShownFirst(products: seq<Product>, w: Profile, need: Need, i: nat, j: nat)
    requires i < j < |Ranked(products, w, [])|
    requires var q, p := Ranked(products, w, [])[i].product, Ranked(products, w, [])[j].product;
             && Alike(p, q) && Voiced(w, need) && Meets(p, need) && !Meets(q, need)
             && forall other :: Voiced(w, other) && Meets(q, other) ==> Meets(p, other)
    ensures var r := Ranked(products, w, []);
            && (r[i].score == r[j].score == 99 || r[i].score == r[j].score == 40)
            && r[i].product.price <= r[j].product.price
  {
    HigherScoreFirst(products, w, i, j);
    MeetingANeedPays(Ranked(products, w, [])[j].product, Ranked(products, w, [])[i].product, w, need);
  }
}
