/** The per-source scorer (`score_source`, app.py:277-318): one catalog
    entry and the query's signal bundle to a utility in [0, 0.99]. The
    catalog entry and the intent-to-source boost table are inputs. */
module Scorer {
  import opened Basics
  import opened Text
  import opened Similarity
  import opened Signals

  /** One catalog entry; `freshH` is the staleness bound in hours and `tier`
      the source's `type` ("premium", "mid", "wire", "free", ...). */
  datatype Source = Source(
    name: string,
    price: real,
    auth: real,
    topics: seq<string>,
    freshH: int,
    tier: string)

  /** The shape the catalog is assumed to have: no negative price and an
      authority between 0 and 1. */
  ghost predicate WellFormedSource(s: Source) {
    s.price >= 0.0 && 0.0 <= s.auth <= 1.0
  }

  /** `DOMAIN_BOOST`: intent to source name to boost. */
  type BoostTable = map<Intent, map<string, real>>

  ghost predicate WellFormedBoosts(t: BoostTable) {
    forall i, n :: i in t && n in t[i] ==> 0.0 <= t[i][n] <= 0.5
  }

  /** `DOMAIN_BOOST.get(intent, {}).get(name, 0)`. */
  function Boost(t: BoostTable, intent: Intent, name: string): (b: real)
    ensures WellFormedBoosts(t) ==> 0.0 <= b <= 0.5
    ensures intent !in t || name !in t[intent] ==> b == 0.0
  {
    if intent in t && name in t[intent] then t[intent][name] else 0.0
  }

  /** Overlap of the intent's name with the source's topics, scaled and
      capped. */
  function Semantic(intent: Intent, topics: seq<string>, sqrt: real -> real): (r: real)
    requires PositiveRoot(sqrt)
    ensures 0.28 <= r <= 0.96
  {
    Min(CosSim(UnderscoresToSpaces(IntentName(intent)), Join(topics, " "), sqrt) * 3.2 + 0.28, 0.96)
  }

  /** The staleness-bound cascade, before the penalty on free sources. */
  function StalenessFit(required: bool, composed: real, freshH: int): real {
    if required then
      (if freshH <= 4 then 1.0
       else if freshH <= 12 then 0.55
       else if freshH <= 24 then 0.28
       else 0.05)
    else if composed > 0.4 then
      (if freshH <= 48 then 0.90 else 0.72)
    else 0.78
  }

  /** `f_fit`, including the hard penalty: a free source gets a quarter of
      its fit whenever freshness is required. */
  function FreshnessFit(required: bool, composed: real, freshH: int, price: real): (r: real)
    ensures 0.0 <= r <= 1.0
  {
    var f := StalenessFit(required, composed, freshH);
    if required && price == 0.0 then f * 0.25 else f
  }

  /** The per-tier quality table; an unknown tier gets 0.6. */
  function TierFit(tier: string): real {
    if tier == "premium" then 1.0
    else if tier == "mid" then 0.82
    else if tier == "wire" then 0.76
    else if tier == "free" then 0.52
    else 0.6
  }

  /** `q_fit`: the tier matters only when credibility is above 0.70. */
  function QualityFit(credibility: real, tier: string): (r: real)
    ensures 0.52 <= r <= 1.0
  {
    if credibility > 0.70 then TierFit(tier) else 1.0
  }

  /** The blended utility, capped at 0.99. The weights sum to one, so equal
      terms blend to their common value and terms in [0, 1] blend into
      [0, 0.99]. */
  function Utility(semantic: real, authority: real, fit: real, domainBoost: real, quality: real): (r: real)
    ensures r <= 0.99
    ensures semantic == authority == fit == domainBoost == quality ==> r == Min(semantic, 0.99)
    ensures (0.0 <= semantic <= 1.0 && 0.0 <= authority <= 1.0 && 0.0 <= fit <= 1.0
             && 0.0 <= domainBoost <= 1.0 && 0.0 <= quality <= 1.0) ==> 0.0 <= r
  {
    Min(0.28 * semantic + 0.24 * authority + 0.24 * fit + 0.14 * domainBoost + 0.10 * quality, 0.99)
  }

  /** A catalog entry together with its scores for one query. */
  datatype ScoredSource = ScoredSource(
    src: Source,
    semantic: real,
    authority: real,
    freshnessFit: real,
    domainBoost: real,
    qualityFit: real,
    utility: real)

  function ScoreSource(sig: SignalBundle, src: Source, boosts: BoostTable, sqrt: real -> real)
    : (r: ScoredSource)
    requires PositiveRoot(sqrt)
    ensures r.src == src && r.authority == src.auth
    ensures r.semantic == Semantic(sig.intent, src.topics, sqrt)
    ensures 0.28 <= r.semantic <= 0.96 && 0.0 <= r.freshnessFit <= 1.0 && 0.52 <= r.qualityFit <= 1.0
    ensures r.freshnessFit ==
      FreshnessFit(sig.freshness.required, sig.freshness.composed, src.freshH, src.price)
    ensures r.qualityFit == QualityFit(sig.credibility.composed, src.tier)
    ensures r.domainBoost == 0.5 + Boost(boosts, sig.intent, src.name)
    ensures r.utility == Utility(r.semantic, r.authority, r.freshnessFit, r.domainBoost, r.qualityFit)
    ensures r.utility <= 0.99
    ensures WellFormedSource(src) && WellFormedBoosts(boosts) ==>
      0.5 <= r.domainBoost <= 1.0 && 0.0 <= r.utility
  {
    var semantic := Semantic(sig.intent, src.topics, sqrt);
    var fit := FreshnessFit(sig.freshness.required, sig.freshness.composed, src.freshH, src.price);
    var boost := 0.5 + Boost(boosts, sig.intent, src.name);
    var quality := QualityFit(sig.credibility.composed, src.tier);
    ScoredSource(src, semantic, src.auth, fit, boost, quality,
      Utility(semantic, src.auth, fit, boost, quality))
  }

  /** The hard penalty: under required freshness a free source has exactly a
      quarter of the fit a paid source with the same staleness bound has, so
      at most 0.25. Without required freshness the price plays no part. */
  lemma FreeSourcePenalty(required: bool, composed: real, freshH: int, price: real)
    requires price != 0.0
    ensures required ==>
      FreshnessFit(required, composed, freshH, 0.0) == 0.25 * FreshnessFit(required, composed, freshH, price)
      && FreshnessFit(required, composed, freshH, 0.0) <= 0.25
    ensures !required ==>
      FreshnessFit(required, composed, freshH, 0.0) == FreshnessFit(required, composed, freshH, price)
  {
  }

  /** A staler source never fits better than a fresher one at the same
      price. */
  lemma FreshnessFitAntitone(required: bool, composed: real, h1: int, h2: int, price: real)
    requires h1 <= h2
    ensures FreshnessFit(required, composed, h1, price) >= FreshnessFit(required, composed, h2, price)
  {
  }

  /** Tiers are ranked premium, mid, wire, unknown, free when credibility is
      above 0.70, and all fit equally (1.0) otherwise. */
  lemma QualityFitTierOrder(credibility: real, other: string)
    requires other !in {"premium", "mid", "wire", "free"}
    ensures credibility > 0.70 ==>
      QualityFit(credibility, "premium") > QualityFit(credibility, "mid") > QualityFit(credibility, "wire")
      > QualityFit(credibility, other) > QualityFit(credibility, "free")
    ensures credibility <= 0.70 ==>
      forall t :: QualityFit(credibility, t) == 1.0
  {
  }

  /** Of two sources that differ only in authority, the more authoritative one
      has at least the utility of the other. */
  lemma UtilityGrowsWithAuthority(semantic: real, a1: real, a2: real, fit: real, domainBoost: real, quality: real)
    requires a1 <= a2
    ensures Utility(semantic, a1, fit, domainBoost, quality) <= Utility(semantic, a2, fit, domainBoost, quality)
  {
    var base := 0.28 * semantic + 0.24 * fit + 0.14 * domainBoost + 0.10 * quality;
    assert Utility(semantic, a1, fit, domainBoost, quality) == Min(base + 0.24 * a1, 0.99);
    assert Utility(semantic, a2, fit, domainBoost, quality) == Min(base + 0.24 * a2, 0.99);
  }

  lemma UtilityMonotoneInAuthority(sig: SignalBundle, src: Source, auth2: real,
                                   boosts: BoostTable, sqrt: real -> real)
    requires PositiveRoot(sqrt)
    requires src.auth <= auth2
    ensures ScoreSource(sig, src, boosts, sqrt).utility <= ScoreSource(sig, src.(auth := auth2), boosts, sqrt).utility
  {
    var a := ScoreSource(sig, src, boosts, sqrt);
    var b := ScoreSource(sig, src.(auth := auth2), boosts, sqrt);
    assert a.semantic == b.semantic && a.freshnessFit == b.freshnessFit;
    assert a.domainBoost == b.domainBoost && a.qualityFit == b.qualityFit;
    UtilityGrowsWithAuthority(a.semantic, a.authority, b.authority, a.freshnessFit, a.domainBoost, a.qualityFit);
  }
}
