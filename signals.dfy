/** The signal extractor (`extract_signals`, app.py:58-274): query text to a
    bundle of four composed dimension scores and the thresholds derived from
    them. Every regular-expression search of the source is an input boolean
    of `QueryHits`; the cascades, the caps and the weighted sums are modelled
    exactly on reals. */
module Signals {
  import opened Basics
  import opened Text
  import opened Similarity

  // ---------------------------------------------------------------------
  // Intent classification (app.py:63-75)
  // ---------------------------------------------------------------------

  datatype Intent =
    | FinancialAnalysis
    | BreakingNews
    | TechProduct
    | Explainer
    | Policy
    | MedicalClinical

  /** The six profiles in declaration order; the order breaks ties. */
  const IntentOrder: seq<Intent> :=
    [FinancialAnalysis, BreakingNews, TechProduct, Explainer, Policy, MedicalClinical]

  function IntentName(i: Intent): string {
    match i
    case FinancialAnalysis => "financial_analysis"
    case BreakingNews => "breaking_news"
    case TechProduct => "tech_product"
    case Explainer => "explainer"
    case Policy => "policy"
    case MedicalClinical => "medical_clinical"
  }

  /** The keyword string of each intent profile. */
  function Profile(i: Intent): string {
    match i
    case FinancialAnalysis =>
      "earnings revenue profit stock market investment quarterly financial economics gdp tariff semiconductor fund"
    case BreakingNews =>
      "today latest breaking just announced hours minutes update urgent happened morning"
    case TechProduct =>
      "product launch release features review specs benchmark model gpt llm capabilities version"
    case Explainer =>
      "how does explain history background context overview understand mechanism works"
    case Policy =>
      "regulation law policy act eu government legislation compliance requirement providers"
    case MedicalClinical =>
      "clinical trial drug treatment therapy patient study health symptoms diagnosis results should take"
  }

  /** `{k: cos_sim(q, v) for k, v in intent_profiles.items()}`, in profile order. */
  function IntentScores(q: string, sqrt: real -> real): (scores: seq<real>)
    requires PositiveRoot(sqrt)
    ensures |scores| == |IntentOrder|
    ensures forall k :: 0 <= k < |scores| ==>
      scores[k] == CosSim(q, Profile(IntentOrder[k]), sqrt) && scores[k] >= 0.0
  {
    seq(|IntentOrder|, k requires 0 <= k < |IntentOrder| => CosSim(q, Profile(IntentOrder[k]), sqrt))
  }

  /** The head of a stable sort by descending score: the first position that
      holds the maximum. */
  function FirstMax(s: seq<real>): (k: nat)
    requires |s| > 0
    ensures k < |s|
    ensures forall j :: 0 <= j < |s| ==> s[j] <= s[k]
    ensures forall j :: 0 <= j < k ==> s[j] < s[k]
  {
    if |s| == 1 then 0
    else
      var k := FirstMax(s[..|s| - 1]);
      if s[|s| - 1] > s[k] then |s| - 1 else k
  }

  /** `semantic_raw`: the top intent score, scaled, shifted and capped. */
  function SemanticRaw(top: real): (r: real)
    requires top >= 0.0
    ensures 0.22 <= r <= 0.98
  {
    Min(top * 3.8 + 0.22, 0.98)
  }

  // ---------------------------------------------------------------------
  // The pattern hits of one query
  // ---------------------------------------------------------------------

  /** What each `re.search` / `re.findall` of extract_signals found. */
  datatype QueryHits = QueryHits(
    rawEntities: seq<string>,  // re.findall(entity_re, query)
    specific: bool,            // specific_markers
    templates: seq<bool>,      // one per entry of Templates, in order
    highStakes: bool,          // high_stakes_pat
    mediumStakes: bool,        // med_stakes_pat
    sensitive: bool,           // sensitivity_pat
    financeTerm: bool,         // finance|earnings|revenue|profit
    controversial: bool,       // controversy_pat
    now: bool,                 // now_pat
    recent: bool,              // recent_pat
    archival: bool,            // archive_pat
    quarter: bool,             // q[1-4]
    yearMention: bool,         // 202[3456]
    event: bool,               // event_pat
    analytical: bool,          // analytical_pat
    depthKeyword: bool,        // depth_pat
    navigational: bool,        // nav_pat
    transactional: bool,       // trans_pat
    ambiguous: bool)           // ambiguity_pat
  {
    predicate Valid() {
      |templates| == |Templates|
    }
  }

  // ---------------------------------------------------------------------
  // Relevance (app.py:77-103)
  // ---------------------------------------------------------------------

  /** The short capitalised function words that are not entities. */
  const SkipWords: set<string> :=
    {"The", "A", "An", "In", "On", "At", "Is", "It", "If", "Do", "Be", "We", "My"}

  predicate IsEntity(e: string) {
    |e| > 1 && e !in SkipWords
  }

  /** `[e for e in raw_entities if len(e) > 1 and e not in skip]`. */
  function Entities(raw: seq<string>): (es: seq<string>)
    ensures |es| <= |raw|
    ensures forall e :: e in es <==> e in raw && IsEntity(e)
    ensures forall e :: multiset(es)[e] == if IsEntity(e) then multiset(raw)[e] else 0
    ensures IsSubseq(es, raw)
  {
    if raw == [] then []
    else
      var rest := Entities(raw[1..]);
      assert raw == [raw[0]] + raw[1..];
      assert multiset(raw) == multiset{raw[0]} + multiset(raw[1..]);
      assert forall e :: e in raw <==> e == raw[0] || e in raw[1..];
      if IsEntity(raw[0]) then
        assert multiset([raw[0]] + rest) == multiset{raw[0]} + multiset(rest);
        SubseqConsBoth(rest, raw[1..], raw[0]);
        [raw[0]] + rest
      else
        SubseqPrepend(rest, raw[1..], raw[0]);
        rest
  }

  function EntityDensity(count: nat): (r: real)
    ensures 0.0 <= r <= 1.0
    ensures count >= 7 ==> r == 1.0
  {
    Min(count as real / 7.0, 1.0)
  }

  /** How specific the query is: a named security or an explicit period
      scores highest, a long query next, anything else lowest. */
  function Specificity(specific: bool, wordCount: nat): (r: real)
    ensures 0.38 <= r <= 0.88
    ensures r == 0.88 <==> specific
    ensures !specific ==> (r == 0.65 <==> wordCount > 9)
  {
    if specific then 0.88 else if wordCount > 9 then 0.65 else 0.38
  }

  datatype Template = Template(name: string, boost: real)

  /** The six templates in priority order. */
  const Templates: seq<Template> := [
    Template("<company>_earnings_<period>", 0.22),
    Template("<speaker>_statement", 0.18),
    Template("<medical_trial>", 0.20),
    Template("<breaking_event>", 0.15),
    Template("<policy_query>", 0.12),
    Template("<decision_query>", 0.10)
  ]

  /** The position of the first `true`, if any. */
  function FirstHit(hits: seq<bool>): (r: Option<nat>)
    ensures r.Some? ==> r.value < |hits| && hits[r.value]
    ensures r.Some? ==> forall j :: 0 <= j < r.value ==> !hits[j]
    ensures r.None? <==> forall j :: 0 <= j < |hits| ==> !hits[j]
  {
    if hits == [] then None
    else if hits[0] then Some(0)
    else
      match FirstHit(hits[1..])
      case None => None
      case Some(k) => Some(k + 1)
  }

  /** The template of the first matching pattern, if any. */
  function MatchedTemplate(hits: seq<bool>): (m: Option<Template>)
    requires |hits| == |Templates|
  {
    match FirstHit(hits)
    case None => None
    case Some(k) => Some(Templates[k])
  }

  /** The first-match loop over the templates, with its `break`. */
  method FindTemplate(hits: seq<bool>) returns (m: Option<Template>)
    requires |hits| == |Templates|
    ensures m == MatchedTemplate(hits)
    ensures m.None? <==> forall k :: 0 <= k < |hits| ==> !hits[k]
    ensures forall k :: 0 <= k < |hits| && hits[k] && (forall j :: 0 <= j < k ==> !hits[j]) ==>
      m == Some(Templates[k])
  {
    m := None;
    for k := 0 to |Templates|
      invariant m == None
      invariant forall j :: 0 <= j < k ==> !hits[j]
    {
      if hits[k] {
        m := Some(Templates[k]);
        assert FirstHit(hits) == Some(k);
        break;
      }
    }
  }

  /** `template_boost_raw`. */
  function TemplateBoost(m: Option<Template>): real {
    0.5 + (if m.Some? then m.value.boost else 0.0)
  }

  /** The boost comes from the first matching template only, whatever the
      later templates match. */
  lemma TemplateBoostIsFirstMatch(hits: seq<bool>, k: nat)
    requires |hits| == |Templates|
    requires k < |hits| && hits[k] && forall j :: 0 <= j < k ==> !hits[j]
    ensures TemplateBoost(MatchedTemplate(hits)) == 0.5 + Templates[k].boost
  {
  }

  /** With no template matching the boost is the base 0.5; otherwise it lies
      between 0.6 and 0.72. */
  lemma TemplateBoostRange(hits: seq<bool>)
    requires |hits| == |Templates|
    ensures var b := TemplateBoost(MatchedTemplate(hits));
      (FirstHit(hits).None? ==> b == 0.5) && 0.5 <= b <= 0.72
      && (FirstHit(hits).Some? ==> 0.6 <= b)
  {
    var r := FirstHit(hits);
    if r.Some? {
      var k := r.value;
      assert k < 6;
      assert Templates[k] in Templates;
    }
  }

  datatype Relevance = Relevance(
    semantic: real,
    entityDensity: real,
    specificity: real,
    specificTriggered: bool,
    wordCount: nat,
    templateBoost: real,
    composed: real)

  function RelevanceOf(top: real, entityCount: nat, specific: bool, wordCount: nat,
                       template: Option<Template>): (r: Relevance)
    requires top >= 0.0
    requires 0.5 <= TemplateBoost(template) <= 0.72
    ensures 0.0 <= r.composed <= 0.99
    ensures r.semantic == SemanticRaw(top) && r.templateBoost == TemplateBoost(template)
    ensures r.specificity == Specificity(specific, wordCount)
  {
    var semantic := SemanticRaw(top);
    var density := EntityDensity(entityCount);
    var specificity := Specificity(specific, wordCount);
    var boost := TemplateBoost(template);
    Relevance(semantic, density, specificity, specific, wordCount, boost,
      Min(0.38 * semantic + 0.25 * density + 0.22 * specificity + 0.15 * boost, 0.99))
  }

  // ---------------------------------------------------------------------
  // Credibility (app.py:105-135)
  // ---------------------------------------------------------------------

  datatype StakesLevel = HighStakes | MediumStakes | LowStakes
  datatype SensitivityLevel = HighSensitivity | FinanceSensitivity | GeneralSensitivity

  function StakesOf(h: QueryHits): StakesLevel {
    if h.highStakes then HighStakes
    else if h.mediumStakes then MediumStakes
    else LowStakes
  }

  function StakesScore(l: StakesLevel): real {
    match l
    case HighStakes => 0.95
    case MediumStakes => 0.68
    case LowStakes => 0.38
  }

  function SensitivityOf(h: QueryHits): SensitivityLevel {
    if h.sensitive then HighSensitivity
    else if h.financeTerm then FinanceSensitivity
    else GeneralSensitivity
  }

  function SensitivityScore(l: SensitivityLevel): real {
    match l
    case HighSensitivity => 0.92
    case FinanceSensitivity => 0.72
    case GeneralSensitivity => 0.30
  }

  function ControversyScore(controversial: bool): real {
    if controversial then 0.78 else 0.28
  }

  /** `corroboration_raw`: stakes and controversy, plus 0.25 for breaking news,
      capped at 1. */
  function Corroboration(stakes: real, controversy: real, intent: Intent): (r: real)
    requires 0.0 <= stakes <= 1.0 && 0.0 <= controversy <= 1.0
    ensures 0.0 <= r <= 1.0
  {
    Min(stakes * 0.5 + controversy * 0.3 + (if intent == BreakingNews then 0.25 else 0.0), 1.0)
  }

  /** The stakes and sensitivity cascades check their patterns from the
      highest score down, so each picks the highest score among the
      patterns that matched, with the last level as the floor. */
  lemma CascadesPickHighestMatch(h: QueryHits)
    ensures StakesScore(StakesOf(h)) ==
      Max(Max(if h.highStakes then 0.95 else 0.0, if h.mediumStakes then 0.68 else 0.0), 0.38)
    ensures SensitivityScore(SensitivityOf(h)) ==
      Max(Max(if h.sensitive then 0.92 else 0.0, if h.financeTerm then 0.72 else 0.0), 0.30)
  {
  }

  datatype Credibility = Credibility(
    stakes: real,
    stakesLevel: StakesLevel,
    sensitivity: real,
    sensitivityLevel: SensitivityLevel,
    corroboration: real,
    controversy: real,
    controversyTriggered: bool,
    composed: real)

  function CredibilityOf(h: QueryHits, intent: Intent): (c: Credibility)
    ensures 0.0 <= c.composed <= 0.99
    ensures 0.0 <= c.corroboration <= 1.0
    ensures c.stakes == StakesScore(c.stakesLevel) && c.stakesLevel == StakesOf(h)
    ensures c.controversy == ControversyScore(h.controversial)
    ensures c.corroboration == Corroboration(c.stakes, c.controversy, intent)
  {
    var level := StakesOf(h);
    var stakes := StakesScore(level);
    var sLevel := SensitivityOf(h);
    var sensitivity := SensitivityScore(sLevel);
    var controversy := ControversyScore(h.controversial);
    var corroboration := Corroboration(stakes, controversy, intent);
    Credibility(stakes, level, sensitivity, sLevel, corroboration, controversy, h.controversial,
      Min(0.38 * stakes + 0.28 * sensitivity + 0.22 * corroboration + 0.12 * controversy, 0.99))
  }

  // ---------------------------------------------------------------------
  // Freshness (app.py:137-187)
  // ---------------------------------------------------------------------

  datatype VelocityLevel = RealTime | Recent | Archival | NeutralVelocity

  function VelocityOf(h: QueryHits): VelocityLevel {
    if h.now then RealTime
    else if h.recent then Recent
    else if h.archival then Archival
    else NeutralVelocity
  }

  function VelocityScore(l: VelocityLevel): real {
    match l
    case RealTime => 1.0
    case Recent => 0.74
    case Archival => 0.12
    case NeutralVelocity => 0.38
  }

  /** The velocity reaches the real-time bar of 0.9 exactly when the
      real-time pattern matched, whatever the later patterns match. */
  lemma VelocityRealTimeIffNow(h: QueryHits)
    ensures VelocityScore(VelocityOf(h)) >= 0.9 <==> h.now
    ensures h.now ==> VelocityScore(VelocityOf(h)) == 1.0
    ensures !h.now && h.recent ==> VelocityScore(VelocityOf(h)) == 0.74
    ensures !h.now && !h.recent && h.archival ==> VelocityScore(VelocityOf(h)) == 0.12
    ensures !h.now && !h.recent && !h.archival ==> VelocityScore(VelocityOf(h)) == 0.38
  {
  }

  datatype TimeMarker = RealTimeMarker | RecentMarker | QuarterlyMarker | YearSpecificMarker

  /** The markers of the four independent time checks, in check order. */
  function TimeMarkers(h: QueryHits): seq<TimeMarker> {
    (if h.now then [RealTimeMarker] else [])
    + (if h.recent then [RecentMarker] else [])
    + (if h.quarter then [QuarterlyMarker] else [])
    + (if h.yearMention then [YearSpecificMarker] else [])
  }

  /** Each marker is present exactly when its check fires. */
  lemma TimeMarkersExact(h: QueryHits)
    ensures (RealTimeMarker in TimeMarkers(h) <==> h.now) && (RecentMarker in TimeMarkers(h) <==> h.recent)
    ensures (QuarterlyMarker in TimeMarkers(h) <==> h.quarter)
      && (YearSpecificMarker in TimeMarkers(h) <==> h.yearMention)
  {
    var a: seq<TimeMarker> := if h.now then [RealTimeMarker] else [];
    var b: seq<TimeMarker> := if h.recent then [RecentMarker] else [];
    var c: seq<TimeMarker> := if h.quarter then [QuarterlyMarker] else [];
    var d: seq<TimeMarker> := if h.yearMention then [YearSpecificMarker] else [];
    assert TimeMarkers(h) == a + b + c + d;
  }

  /** The position a marker takes when present. */
  function MarkerRank(m: TimeMarker): nat {
    match m
    case RealTimeMarker => 0
    case RecentMarker => 1
    case QuarterlyMarker => 2
    case YearSpecificMarker => 3
  }

  /** The markers come in check order, so there are at most four and none
      appears twice. */
  lemma TimeMarkersDistinct(h: QueryHits)
    ensures |TimeMarkers(h)| <= 4
    ensures forall i, j :: 0 <= i < j < |TimeMarkers(h)| ==> MarkerRank(TimeMarkers(h)[i]) < MarkerRank(TimeMarkers(h)[j])
    ensures forall i, j :: 0 <= i < j < |TimeMarkers(h)| ==> TimeMarkers(h)[i] != TimeMarkers(h)[j]
  {
    var m := TimeMarkers(h);
    forall i, j | 0 <= i < j < |m| ensures MarkerRank(m[i]) < MarkerRank(m[j]) {
    }
  }

  /** The `time_markers` appends. */
  method CollectTimeMarkers(h: QueryHits) returns (markers: seq<TimeMarker>)
    ensures markers == TimeMarkers(h)
  {
    markers := [];
    if h.now {
      markers := markers + [RealTimeMarker];
    }
    if h.recent {
      markers := markers + [RecentMarker];
    }
    if h.quarter {
      markers := markers + [QuarterlyMarker];
    }
    if h.yearMention {
      markers := markers + [YearSpecificMarker];
    }
  }

  /** `temporal_raw`: the velocity plus 0.04 per time marker, capped at 1. */
  function Temporal(velocity: real, markers: nat): (r: real)
    requires 0.0 <= velocity <= 1.0
    ensures velocity <= r <= 1.0
  {
    Min(velocity + markers as real * 0.04, 1.0)
  }

  function EventUrgency(event: bool): real {
    if event then 0.82 else 0.22
  }

  /** `half_life_map[intent]`; the source's default of 0.40 is never reached
      because the intent is always one of the six keys. */
  function DecayRate(i: Intent): (r: real)
    ensures 0.10 <= r <= 1.0
  {
    match i
    case FinancialAnalysis => 0.88
    case BreakingNews => 1.0
    case TechProduct => 0.58
    case Explainer => 0.10
    case Policy => 0.42
    case MedicalClinical => 0.36
  }

  /** `max_freshness_hours`. */
  function MaxFreshnessHours(required: bool, composed: real, velocity: real): (r: int)
    ensures r in {4, 12, 48, 9999}
    ensures r == 4 <==> required && velocity >= 0.9
    ensures r == 12 <==> required && velocity < 0.9
  {
    if required then (if velocity >= 0.9 then 4 else 12)
    else if composed > 0.4 then 48
    else 9999
  }

  datatype Freshness = Freshness(
    velocity: real,
    velocityLevel: VelocityLevel,
    temporal: real,
    timeMarkers: seq<TimeMarker>,
    eventUrgency: real,
    eventTriggered: bool,
    decay: real,
    composed: real,
    required: bool,
    maxFreshnessHours: int)

  function FreshnessOf(h: QueryHits, intent: Intent): (f: Freshness)
    ensures 0.0 <= f.composed <= 0.99
    ensures f.required <==> f.composed > 0.52
    ensures f.velocity == VelocityScore(f.velocityLevel) && f.velocityLevel == VelocityOf(h)
    ensures f.velocity <= f.temporal <= 1.0
    ensures f.maxFreshnessHours == MaxFreshnessHours(f.required, f.composed, f.velocity)
  {
    var level := VelocityOf(h);
    var velocity := VelocityScore(level);
    var markers := TimeMarkers(h);
    var temporal := Temporal(velocity, |markers|);
    var urgency := EventUrgency(h.event);
    var decay := DecayRate(intent);
    var composed := Min(0.42 * velocity + 0.26 * temporal + 0.22 * urgency + 0.10 * decay, 0.99);
    var required := composed > 0.52;
    Freshness(velocity, level, temporal, markers, urgency, h.event, decay, composed, required,
      MaxFreshnessHours(required, composed, velocity))
  }

  /** The freshness window follows the velocity tier: a real-time query
      always demands a source at most 4 hours stale, a recent one 12 hours,
      and an archival one sets no bound at all. Only a neutral query depends
      on the other signals, and it never gets the 4-hour window. */
  lemma {:induction false} FreshnessWindowByVelocity(h: QueryHits, intent: Intent)
    ensures var f := FreshnessOf(h, intent);
      && (f.velocityLevel == RealTime ==> f.required && f.maxFreshnessHours == 4)
      && (f.velocityLevel == Recent ==> f.required && f.maxFreshnessHours == 12)
      && (f.velocityLevel == Archival ==> !f.required && f.maxFreshnessHours == 9999)
      && (f.velocityLevel == NeutralVelocity ==> f.maxFreshnessHours in {12, 48, 9999})
      && (f.maxFreshnessHours == 4 <==> h.now)
  {
    var f := FreshnessOf(h, intent);
    var n := |TimeMarkers(h)|;
    var d := DecayRate(intent);
    var e := EventUrgency(h.event);
    assert 0.22 <= e <= 0.82;
    match VelocityOf(h)
    case RealTime =>
      assert f.temporal == 1.0;
      assert f.composed >= 0.68;
    case Recent =>
      assert n >= 1;
      assert f.temporal >= 0.78;
      assert f.composed >= 0.572;
    case Archival =>
      assert n <= 2;
      assert f.temporal <= 0.20;
      assert f.composed <= 0.3828;
    case NeutralVelocity =>
  }

  // ---------------------------------------------------------------------
  // Depth (app.py:189-217)
  // ---------------------------------------------------------------------

  datatype QuestionType = Navigational | Transactional | Informational

  /** `complexity_raw`: the analytical cue and the query length, capped. */
  function Complexity(analytical: bool, wordCount: nat): (r: real)
    ensures 0.0 < r <= 0.99
  {
    Min(0.60 * (if analytical then 0.88 else 0.35) + 0.40 * (wordCount as real / 18.0), 0.99)
  }

  function DepthRequired(depthKeyword: bool, complexity: real): real {
    if depthKeyword then 0.92
    else if complexity > 0.62 then 0.72
    else 0.32
  }

  function QuestionTypeOf(h: QueryHits): QuestionType {
    if h.navigational then Navigational
    else if h.transactional then Transactional
    else Informational
  }

  function QuestionTypeScore(t: QuestionType): real {
    match t
    case Informational => 0.65
    case Navigational => 0.30
    case Transactional => 0.48
  }

  /** The question-type cascade checks the patterns from the lowest score
      up, so it picks the lowest score among the types that matched, 0.65
      when none did. */
  lemma QuestionTypePicksLowestMatch(h: QueryHits)
    ensures QuestionTypeScore(QuestionTypeOf(h)) ==
      Min(Min(if h.navigational then 0.30 else 1.0, if h.transactional then 0.48 else 1.0), 0.65)
  {
  }

  function AmbiguityScore(ambiguous: bool): real {
    if ambiguous then 0.76 else 0.24
  }

  datatype Depth = Depth(
    complexity: real,
    analyticalTriggered: bool,
    wordCount: nat,
    depthRequired: real,
    depthKeywordsTriggered: bool,
    questionType: QuestionType,
    questionTypeScore: real,
    ambiguity: real,
    ambiguityTriggered: bool,
    composed: real)

  function DepthOf(h: QueryHits, wordCount: nat): (d: Depth)
    ensures 0.0 <= d.composed <= 0.99
    ensures d.questionType == QuestionTypeOf(h)
    ensures d.complexity == Complexity(h.analytical, wordCount)
    ensures d.wordCount == wordCount
  {
    var complexity := Complexity(h.analytical, wordCount);
    var required := DepthRequired(h.depthKeyword, complexity);
    var qt := QuestionTypeOf(h);
    var qtScore := QuestionTypeScore(qt);
    var ambiguity := AmbiguityScore(h.ambiguous);
    Depth(complexity, h.analytical, wordCount, required, h.depthKeyword, qt, qtScore,
      ambiguity, h.ambiguous,
      Min(0.40 * complexity + 0.32 * required + 0.18 * qtScore + 0.10 * ambiguity, 0.99))
  }

  /** Without analytical terms the complexity grows with the word count
      alone, and it passes the depth bar of 0.62 exactly from 19 words on. */
  lemma ComplexityFromLength(wordCount: nat)
    ensures Complexity(false, wordCount) > 0.62 <==> wordCount >= 19
    ensures DepthRequired(false, Complexity(false, wordCount)) == (if wordCount >= 19 then 0.72 else 0.32)
  {
    if wordCount >= 19 {
      assert wordCount as real / 18.0 >= 19.0 / 18.0;
    } else {
      assert wordCount as real <= 18.0;
      assert wordCount as real / 18.0 <= 1.0;
    }
  }

  // ---------------------------------------------------------------------
  // Derived thresholds and the whole bundle (app.py:219-274)
  // ---------------------------------------------------------------------

  /** `quality_threshold`. */
  function QualityThreshold(credibility: real, depth: real): (r: real)
    ensures r <= 0.96
    ensures 0.0 <= credibility && 0.0 <= depth ==> 0.60 <= r
  {
    Min(0.60 + credibility * 0.30 + depth * 0.08, 0.96)
  }

  /** `min_sources`. */
  function MinSources(corroboration: real): (r: int)
    ensures r == 1 || r == 2
  {
    if corroboration > 0.60 then 2 else 1
  }

  datatype SignalBundle = SignalBundle(
    intent: Intent,
    intentScores: seq<real>,
    entities: seq<string>,
    matchedTemplate: Option<Template>,
    relevance: Relevance,
    credibility: Credibility,
    freshness: Freshness,
    depth: Depth,
    qualityThreshold: real,
    minSources: int,
    maxFreshnessHours: int)

  /** Every score and threshold of a bundle lies in its documented range. */
  ghost predicate InRange(s: SignalBundle) {
    && 0.0 <= s.relevance.composed <= 0.99
    && 0.0 <= s.credibility.composed <= 0.99
    && 0.0 <= s.freshness.composed <= 0.99
    && 0.0 <= s.depth.composed <= 0.99
    && 0.60 <= s.qualityThreshold <= 0.96
    && (s.minSources == 1 || s.minSources == 2)
    && s.maxFreshnessHours in {4, 12, 48, 9999}
    && s.maxFreshnessHours == s.freshness.maxFreshnessHours
  }

  /** The intent with the highest score, the earliest-declared one among
      equals. */
  function ClassifyIntent(scores: seq<real>): (i: Intent)
    requires |scores| == |IntentOrder|
    ensures forall k :: 0 <= k < |scores| ==> scores[k] <= scores[Index(i)]
    ensures forall k :: 0 <= k < Index(i) ==> scores[k] < scores[Index(i)]
  {
    var k := FirstMax(scores);
    assert Index(IntentOrder[k]) == k;
    IntentOrder[k]
  }

  function ExtractSignals(query: string, h: QueryHits, sqrt: real -> real): (s: SignalBundle)
    requires PositiveRoot(sqrt) && h.Valid()
    ensures InRange(s)
    ensures s.intentScores == IntentScores(Lower(query), sqrt)
    ensures s.intent == ClassifyIntent(s.intentScores)
    ensures s.freshness == FreshnessOf(h, s.intent)
    ensures s.credibility == CredibilityOf(h, s.intent)
    ensures s.matchedTemplate == MatchedTemplate(h.templates)
    ensures s.minSources == MinSources(s.credibility.corroboration)
    ensures s.depth == DepthOf(h, |Words(Lower(query))|)
    ensures s.qualityThreshold == QualityThreshold(s.credibility.composed, s.depth.composed)
    ensures s.depth.wordCount == |Words(Lower(query))|
  {
    var q := Lower(query);
    var wordCount := |Words(q)|;
    var scores := IntentScores(q, sqrt);
    var intent := ClassifyIntent(scores);
    var entities := Entities(h.rawEntities);
    var template := MatchedTemplate(h.templates);
    TemplateBoostRange(h.templates);
    var relevance := RelevanceOf(scores[Index(intent)], |entities|, h.specific, wordCount, template);
    var credibility := CredibilityOf(h, intent);
    var freshness := FreshnessOf(h, intent);
    var depth := DepthOf(h, wordCount);
    SignalBundle(intent, scores, entities, template, relevance, credibility, freshness, depth,
      QualityThreshold(credibility.composed, depth.composed),
      MinSources(credibility.corroboration),
      freshness.maxFreshnessHours)
  }

  /** The position of an intent in declaration order. */
  function Index(i: Intent): (k: nat)
    ensures k < |IntentOrder| && IntentOrder[k] == i
  {
    match i
    case FinancialAnalysis => 0
    case BreakingNews => 1
    case TechProduct => 2
    case Explainer => 3
    case Policy => 4
    case MedicalClinical => 5
  }

  /** Two sources are asked for exactly when the stakes are high and the
      topic is controversial, or the query is breaking news that is not both
      low-stakes and uncontroversial. */
  lemma MinSourcesRule(h: QueryHits, intent: Intent)
    ensures var c := CredibilityOf(h, intent);
      MinSources(c.corroboration) == 2 <==>
        (c.stakesLevel == HighStakes && h.controversial)
        || (intent == BreakingNews && (c.stakesLevel != LowStakes || h.controversial))
  {
  }

  /** A query none of whose tokens occurs in any profile (the empty query in
      particular) falls back to the first-declared intent. */
  lemma NoOverlapGivesFirstIntent(query: string, h: QueryHits, sqrt: real -> real)
    requires PositiveRoot(sqrt) && h.Valid()
    requires NoProfileOverlap(Lower(query))
    ensures ExtractSignals(query, h, sqrt).intent == FinancialAnalysis
  {
    NoOverlapScoresTie(Lower(query), sqrt);
    var s := ExtractSignals(query, h, sqrt);
    assert s.intent == ClassifyIntent(IntentScores(Lower(query), sqrt));
  }

  /** No kept token of `q` occurs in any intent profile. */
  ghost predicate NoProfileOverlap(q: string) {
    forall k :: 0 <= k < |IntentOrder| ==> WordSet(q) * WordSet(Profile(IntentOrder[k])) == {}
  }

  lemma NoOverlapScoresTie(q: string, sqrt: real -> real)
    requires PositiveRoot(sqrt)
    requires NoProfileOverlap(q)
    ensures forall k :: 0 <= k < |IntentOrder| ==> IntentScores(q, sqrt)[k] == 0.0
    ensures ClassifyIntent(IntentScores(q, sqrt)) == FinancialAnalysis
  {
    var scores := IntentScores(q, sqrt);
    forall j | 0 <= j < |IntentOrder|
      ensures scores[j] == 0.0
    {
      assert scores[j] == CosSim(q, Profile(IntentOrder[j]), sqrt);
    }
    TiedScoresGiveFirstIntent(scores);
  }

  /** When every profile scores the same the first-declared intent wins. */
  lemma TiedScoresGiveFirstIntent(scores: seq<real>)
    requires |scores| == |IntentOrder|
    requires forall k :: 0 <= k < |scores| ==> scores[k] == scores[0]
    ensures ClassifyIntent(scores) == FinancialAnalysis
  {
    var i := ClassifyIntent(scores);
    assert scores[0] == scores[Index(i)];
  }

  /** The empty query has no words, so it overlaps no profile. */
  lemma EmptyQueryHasNoWords()
    ensures Words(Lower("")) == []
    ensures NoProfileOverlap(Lower(""))
  {
    assert Lower("") == "";
    assert Words("") == [];
    assert WordSet("") == {};
  }

  /** With no stakes, sensitivity or controversy hit, a financial-analysis
      query needs one source. */
  lemma LowStakesNeedOneSource(h: QueryHits)
    requires !h.highStakes && !h.mediumStakes && !h.controversial
    ensures CredibilityOf(h, FinancialAnalysis).corroboration == 0.274
    ensures MinSources(CredibilityOf(h, FinancialAnalysis).corroboration) == 1
  {
    var c := CredibilityOf(h, FinancialAnalysis);
    assert c.stakes == 0.38 && c.controversy == 0.28;
  }

  /** The empty query: the first-declared intent, no words, and one source
      suffices unless the pattern hits alone demand corroboration. */
  lemma EmptyQueryDefaults(h: QueryHits, sqrt: real -> real)
    requires PositiveRoot(sqrt) && h.Valid()
    requires !h.highStakes && !h.mediumStakes && !h.controversial
    ensures var s := ExtractSignals("", h, sqrt);
      s.intent == FinancialAnalysis && s.minSources == 1 && s.depth.wordCount == 0
  {
    EmptyQueryHasNoWords();
    NoOverlapGivesFirstIntent("", h, sqrt);
    LowStakesNeedOneSource(h);
  }
}
