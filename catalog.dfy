/** The catalog the router ships with (`SOURCES`, `DOMAIN_BOOST` and
    `REDUNDANT`, app.py:11-43): ten sources, the per-intent boosts and the
    two redundant pairs, with the facts the rest of the model assumes of
    them. The licensing notes attached to each source are display text and
    are not kept. */
module Catalog {
  import opened Basics
  import opened Signals
  import opened Scorer
  import opened Ranking
  import opened Optimizer

  const Sources: seq<Source> := [
    Source("Bloomberg", 3.00, 0.95, ["finance", "economics", "markets"], 2, "premium"),
    Source("WSJ", 2.50, 0.93, ["finance", "business", "politics"], 4, "premium"),
    Source("Financial Times", 3.50, 0.94, ["finance", "geopolitics", "trade"], 3, "premium"),
    Source("Reuters", 0.80, 0.88, ["news", "finance", "breaking"], 1, "wire"),
    Source("AP", 0.70, 0.87, ["news", "general", "breaking"], 1, "wire"),
    Source("NYT", 1.50, 0.91, ["news", "politics", "culture"], 6, "mid"),
    Source("TechCrunch", 0.50, 0.82, ["tech", "startups", "AI"], 3, "mid"),
    Source("Brookings", 0.00, 0.89, ["policy", "research", "economics"], 72, "free"),
    Source("arXiv", 0.00, 0.87, ["science", "AI", "engineering"], 24, "free"),
    Source("Wikipedia", 0.00, 0.75, ["general", "reference", "history"], 168, "free")
  ]

  const DomainBoost: BoostTable := map[
    FinancialAnalysis := map["Bloomberg" := 0.32, "WSJ" := 0.24, "Financial Times" := 0.28, "Reuters" := 0.12],
    BreakingNews := map["Reuters" := 0.30, "AP" := 0.27, "Bloomberg" := 0.14, "NYT" := 0.10],
    TechProduct := map["TechCrunch" := 0.32, "arXiv" := 0.14],
    Explainer := map["Wikipedia" := 0.22, "Brookings" := 0.17, "arXiv" := 0.20],
    Policy := map["Brookings" := 0.32, "NYT" := 0.15, "Financial Times" := 0.14],
    MedicalClinical := map["arXiv" := 0.30, "NYT" := 0.12]
  ]

  const RedundantPairs: Pairs := [("Reuters", "AP"), ("Bloomberg", "Reuters")]

  /** Every shipped source has a price of zero or more and an authority in
      [0, 1]. */
  lemma ShippedSourcesWellFormed()
    ensures |Sources| > 0
    ensures forall s :: s in Sources ==> WellFormedSource(s)
  {
  }

  /** No two shipped sources share a name. */
  lemma ShippedNamesDistinct()
    ensures Injective(Sources, SourceName)
  {
    forall i, j | 0 <= i < j < |Sources| ensures SourceName(Sources[i]) != SourceName(Sources[j]) {
      assert SourceName(Sources[i]) != SourceName(Sources[j]) by {
        assert i in {0, 1, 2, 3, 4, 5, 6, 7, 8, 9};
      }
    }
  }

  /** Every shipped boost lies in [0, 0.5]. */
  lemma ShippedBoostsWellFormed()
    ensures WellFormedBoosts(DomainBoost)
  {
  }

  /** Reuters is redundant with both AP and Bloomberg, so at most one of
      each pair is ever selected, while AP and Bloomberg may go together. */
  lemma ShippedRedundancy()
    ensures RedundantPair("AP", "Reuters", RedundantPairs)
    ensures RedundantPair("Reuters", "Bloomberg", RedundantPairs)
    ensures !RedundantPair("AP", "Bloomberg", RedundantPairs)
  {
    assert RedundantPairs[0] == ("Reuters", "AP");
    assert RedundantPairs[1] == ("Bloomberg", "Reuters");
  }
}
