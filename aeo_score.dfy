/** The answer-engine-optimisation score of an enrichment: five sub-scores of
    at most 20 points each, their total, and a short explanation per factor,
    computed from the enrichment and three fields of the raw product. */
module AeoScore {
  import opened Wrappers
  import opened Text

  datatype KeyAttribute = KeyAttribute(name: string, value: string)

  datatype Faq = Faq(question: string, answer: string)

  /** The enrichment record; an absent key stands for its default, the empty
      string or the empty list. */
  datatype Enrichment = Enrichment(
    enrichedTitle: string,
    longDescription: string,
    keyAttributes: seq<KeyAttribute>,
    faqs: seq<Faq>,
    semanticTags: seq<string>,
    useCases: seq<string>)

  /** The raw product fields the consistency factor compares against. */
  datatype ProductFields = ProductFields(rawTitle: string, brand: string, category: string)

  /** The `details` explanations; `title` is absent when the enriched title is
      empty, every other entry is always written. */
  datatype Details = Details(
    title: Option<string>,
    attributes: string,
    semantic: string,
    structured: string,
    consistency: string)

  datatype ScoreBreakdown = ScoreBreakdown(
    titleOptimization: int,
    attributeCompleteness: int,
    semanticRichness: int,
    structuredData: int,
    consistency: int,
    details: Details)

  datatype AeoResult = AeoResult(total: int, breakdown: ScoreBreakdown)

  const ExcellentAlignment := "Excellent alignment"
  const BrandMissing := "Brand missing from enriched title"
  const CategoryMissing := "Category not mentioned in description"
  const AndCategoryMissing := ", category not mentioned"

  // ---------------------------------------------------------------------
  // 1. Title optimisation
  // ---------------------------------------------------------------------

  /** Points for an enriched title of `len` characters: 20 inside [45, 60],
      15 within ten characters outside it on the long side or five on the
      short side, 10 for any other non-empty title, nothing for an empty one. */
  function TitleScore(len: nat): (r: int)
    ensures r == 20 <==> 45 <= len <= 60
    ensures r == 15 <==> (40 <= len < 45 || 60 < len <= 70)
    ensures r == 10 <==> (0 < len < 40 || 70 < len)
    ensures r == 0 <==> len == 0
  {
    if 45 <= len <= 60 then 20
    else if 40 <= len < 45 || 60 < len <= 70 then 15
    else if len > 0 then 10
    else 0
  }

  /** The title explanation names the scoring bucket, and is absent for an
      empty title. */
  function TitleDetail(len: nat): (d: Option<string>)
    ensures d == Some("Optimal length") <==> TitleScore(len) == 20
    ensures d == Some("Acceptable length") <==> TitleScore(len) == 15
    ensures d == Some("Suboptimal length") <==> TitleScore(len) == 10
    ensures d.None? <==> len == 0
  {
    if 45 <= len <= 60 then Some("Optimal length")
    else if 40 <= len < 45 || 60 < len <= 70 then Some("Acceptable length")
    else if len > 0 then Some("Suboptimal length")
    else None
  }

  // ---------------------------------------------------------------------
  // 2. Attribute completeness
  // ---------------------------------------------------------------------

  /** Points for `count` key attributes: 20 from seven on, 15 for five or six,
      10 for three or four, 5 below three (none included). */
  function AttributeScore(count: nat): (r: int)
    ensures r == 20 <==> count >= 7
    ensures r == 15 <==> 5 <= count <= 6
    ensures r == 10 <==> 3 <= count <= 4
    ensures r == 5 <==> count <= 2
  {
    if count >= 7 then 20
    else if count >= 5 then 15
    else if count >= 3 then 10
    else 5
  }

  /** More attributes never score fewer points. */
  lemma AttributeScoreMonotone(a: nat, b: nat)
    requires a <= b
    ensures AttributeScore(a) <= AttributeScore(b)
  {
  }

  /** The attribute explanation gives the count and the rating of its
      scoring bucket. */
  function AttributeDetail(count: nat): (d: string)
    ensures d == NatToString(count) + " attributes (excellent)" <==> AttributeScore(count) == 20
    ensures d == NatToString(count) + " attributes (good)" <==> AttributeScore(count) == 15
    ensures d == NatToString(count) + " attributes (acceptable)" <==> AttributeScore(count) == 10
    ensures d == NatToString(count) + " attributes (poor)" <==> AttributeScore(count) == 5
  {
    var n := NatToString(count);
    var rating :=
      if count >= 7 then "excellent"
      else if count >= 5 then "good"
      else if count >= 3 then "acceptable"
      else "poor";
    assert (n + " attributes (good)")[|n| + 13] == 'g';
    assert (n + " attributes (poor)")[|n| + 13] == 'p';
    n + " attributes (" + rating + ")"
  }

  // ---------------------------------------------------------------------
  // 3. Semantic richness
  // ---------------------------------------------------------------------

  /** Points for a description of `words` words: 10 for 150 to 200, 7 for
      120 to 149 or 201 to 250, 5 for any other positive count, 0 for none. */
  function DescriptionScore(words: nat): (r: int)
    ensures r == 10 <==> 150 <= words <= 200
    ensures r == 7 <==> (120 <= words < 150 || 200 < words <= 250)
    ensures r == 5 <==> (0 < words < 120 || 250 < words)
    ensures r == 0 <==> words == 0
  {
    if 150 <= words <= 200 then 10
    else if 120 <= words < 150 || 200 < words <= 250 then 7
    else if words > 0 then 5
    else 0
  }

  /** Points for `count` FAQs: 10 from five on, 7 for three or four, 5 for one
      or two, 0 for none. */
  function FaqScore(count: nat): (r: int)
    ensures r == 10 <==> count >= 5
    ensures r == 7 <==> 3 <= count <= 4
    ensures r == 5 <==> 1 <= count <= 2
    ensures r == 0 <==> count == 0
  {
    if count >= 5 then 10
    else if count >= 3 then 7
    else if count > 0 then 5
    else 0
  }

  function WordCount(s: string): nat {
    |Split(s)|
  }

  // ---------------------------------------------------------------------
  // 4. Structured data
  // ---------------------------------------------------------------------

  function Min(a: int, b: int): int {
    if a <= b then a else b
  }

  /** Two points per semantic tag, at most 10. */
  function TagsScore(count: nat): (r: int)
    ensures 0 <= r <= 10
    ensures r == 10 <==> count >= 5
    ensures r < 10 ==> r == 2 * count
  {
    Min(count * 2, 10)
  }

  /** Three points per use case, at most 10. */
  function UseCasesScore(count: nat): (r: int)
    ensures 0 <= r <= 10
    ensures r == 10 <==> count >= 4
    ensures r < 10 ==> r == 3 * count
  {
    Min(count * 3, 10)
  }

  // ---------------------------------------------------------------------
  // 5. Consistency
  // ---------------------------------------------------------------------

  /** The brand is lost: it is non-empty, missing from the enriched title and
      present in the raw title (all compared lower-cased). */
  predicate BrandPenalty(e: Enrichment, p: ProductFields) {
    var brand := Lower(p.brand);
    brand != "" && !Contains(Lower(e.enrichedTitle), brand) && Contains(Lower(p.rawTitle), brand)
  }

  /** The category is non-empty and missing from the description (lower-cased). */
  predicate CategoryPenalty(e: Enrichment, p: ProductFields) {
    var category := Lower(p.category);
    category != "" && !Contains(Lower(e.longDescription), category)
  }

  function Max(a: int, b: int): int {
    if a >= b then a else b
  }

  function ConsistencyScore(e: Enrichment, p: ProductFields): int {
    var afterBrand := if BrandPenalty(e, p) then 20 - 5 else 20;
    var afterCategory := if CategoryPenalty(e, p) then afterBrand - 5 else afterBrand;
    Max(afterCategory, 0)
  }

  function ConsistencyDetail(e: Enrichment, p: ProductFields): string {
    var afterBrand := if BrandPenalty(e, p) then Some(BrandMissing) else None;
    var afterCategory :=
      if !CategoryPenalty(e, p) then afterBrand
      else if afterBrand.Some? then Some(afterBrand.value + AndCategoryMissing)
      else Some(CategoryMissing);
    if ConsistencyScore(e, p) == 20 then ExcellentAlignment
    else afterCategory.GetOr(ExcellentAlignment)
  }

  /** Consistency loses five points per penalty and nothing else: it is one of
      10, 15 and 20, and 20 exactly when neither penalty applies. Its detail
      reads "Excellent alignment" exactly when the score is 20, and otherwise
      names the penalties that applied. */
  lemma ConsistencyMeaning(e: Enrichment, p: ProductFields)
    ensures ConsistencyScore(e, p) in {10, 15, 20}
    ensures ConsistencyScore(e, p) == 20 - 5 * ((if BrandPenalty(e, p) then 1 else 0) + (if CategoryPenalty(e, p) then 1 else 0))
    ensures ConsistencyDetail(e, p) == ExcellentAlignment <==> ConsistencyScore(e, p) == 20
    ensures BrandPenalty(e, p) && CategoryPenalty(e, p) ==> ConsistencyDetail(e, p) == BrandMissing + AndCategoryMissing
    ensures BrandPenalty(e, p) && !CategoryPenalty(e, p) ==> ConsistencyDetail(e, p) == BrandMissing
    ensures !BrandPenalty(e, p) && CategoryPenalty(e, p) ==> ConsistencyDetail(e, p) == CategoryMissing
  {
    assert (BrandMissing + AndCategoryMissing)[0] != ExcellentAlignment[0];
    assert BrandMissing[0] != ExcellentAlignment[0];
    assert CategoryMissing[0] != ExcellentAlignment[0];
  }

  // ---------------------------------------------------------------------
  // The whole score
  // ---------------------------------------------------------------------

  function Breakdown(e: Enrichment, p: ProductFields): ScoreBreakdown {
    var titleLen := |e.enrichedTitle|;
    var attrCount := |e.keyAttributes|;
    var words := WordCount(e.longDescription);
    var faqCount := |e.faqs|;
    ScoreBreakdown(
      titleOptimization := TitleScore(titleLen),
      attributeCompleteness := AttributeScore(attrCount),
      semanticRichness := DescriptionScore(words) + FaqScore(faqCount),
      structuredData := TagsScore(|e.semanticTags|) + UseCasesScore(|e.useCases|),
      consistency := ConsistencyScore(e, p),
      details := Details(
        title := TitleDetail(titleLen),
        attributes := AttributeDetail(attrCount),
        semantic := NatToString(words) + " words, " + NatToString(faqCount) + " FAQs",
        structured := NatToString(|e.semanticTags|) + " tags, " + NatToString(|e.useCases|) + " use cases",
        consistency := ConsistencyDetail(e, p)))
  }

  /** `calculate_aeo_score`: the total and the breakdown. Every sub-score lies
      in [0, 20] and the total, their sum, in [0, 100], the range the stored
      `aeo_score` accepts. */
  function CalculateAeoScore(e: Enrichment, p: ProductFields): (r: AeoResult)
    ensures 0 <= r.breakdown.titleOptimization <= 20
    ensures 0 <= r.breakdown.attributeCompleteness <= 20
    ensures 0 <= r.breakdown.semanticRichness <= 20
    ensures 0 <= r.breakdown.structuredData <= 20
    ensures 10 <= r.breakdown.consistency <= 20
    ensures r.total == r.breakdown.titleOptimization + r.breakdown.attributeCompleteness
                       + r.breakdown.semanticRichness + r.breakdown.structuredData
                       + r.breakdown.consistency
    ensures 10 <= r.total <= 100
    ensures r.breakdown == Breakdown(e, p)
  {
    var b := Breakdown(e, p);
    AeoResult(
      b.titleOptimization + b.attributeCompleteness + b.semanticRichness
      + b.structuredData + b.consistency,
      b)
  }

  /** The sub-scores of a result are the factor functions of the enrichment's
      measured quantities. */
  lemma CalculateAeoScoreFactors(e: Enrichment, p: ProductFields)
    ensures var b := CalculateAeoScore(e, p).breakdown;
      && b.titleOptimization == TitleScore(|e.enrichedTitle|)
      && b.attributeCompleteness == AttributeScore(|e.keyAttributes|)
      && b.semanticRichness == DescriptionScore(|Split(e.longDescription)|) + FaqScore(|e.faqs|)
      && b.structuredData == TagsScore(|e.semanticTags|) + UseCasesScore(|e.useCases|)
      && b.consistency == ConsistencyScore(e, p)
  {
  }

  /** A perfect score needs every factor at its best: a title of 45 to 60
      characters, seven attributes, a 150-to-200-word description, five
      FAQs, five tags, four use cases and no penalty; and conversely. */
  lemma PerfectScore(e: Enrichment, p: ProductFields)
    ensures CalculateAeoScore(e, p).total == 100 <==>
      && 45 <= |e.enrichedTitle| <= 60
      && |e.keyAttributes| >= 7
      && 150 <= |Split(e.longDescription)| <= 200
      && |e.faqs| >= 5
      && |e.semanticTags| >= 5
      && |e.useCases| >= 4
      && !BrandPenalty(e, p)
      && !CategoryPenalty(e, p)
  {
  }

  /** A 50-character title, 6 attributes, a 180-word description, 4 FAQs,
      8 tags, 3 use cases and no penalty score
      20 + 15 + (10 + 7) + (10 + 9) + 20 = 91. */
  lemma WorkedExample(e: Enrichment, p: ProductFields)
    requires |e.enrichedTitle| == 50 && |e.keyAttributes| == 6
    requires |Split(e.longDescription)| == 180 && |e.faqs| == 4
    requires |e.semanticTags| == 8 && |e.useCases| == 3
    requires !BrandPenalty(e, p) && !CategoryPenalty(e, p)
    ensures CalculateAeoScore(e, p).total == 91
  {
  }

  /** An empty enrichment of a product without brand or category scores the
      5 points even an empty attribute list earns, plus the full 20 for
      consistency. */
  lemma EmptyEnrichment(p: ProductFields)
    requires p.brand == "" && p.category == ""
    ensures CalculateAeoScore(Enrichment("", "", [], [], [], []), p).total == 25
    ensures CalculateAeoScore(Enrichment("", "", [], [], [], []), p).breakdown.details.title == None
  {
  }
}
