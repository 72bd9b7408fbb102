/** The scoring rules of src/utils/analysisEngine.ts once an answer's
    statistics are known: the two scores, the verdict banded on their mean,
    the fixed summary per verdict, and the rule-based strengths and concerns. */
module AnalysisRules {
  import opened Wrappers
  import opened Seqs
  import opened Text
  import opened Roles
  import LiveRules

  datatype Verdict = Hire | Consider | Pass

  datatype AnalysisResult = AnalysisResult(
    jobFitScore: int,
    cultureFitScore: int,
    verdict: Verdict,
    summary: string,
    strengths: seq<string>,
    concerns: seq<string>)

  /** The text statistics of one answer. */
  datatype ResponseFeatures = ResponseFeatures(
    wordCount: nat,
    sentenceCount: nat,
    technicalMatches: nat,
    softSkillMatches: nat)

  function SoftwareEngineerTerms(): seq<string> {
    [
      "javascript", "typescript", "python", "java", "c++", "react", "node", "api", "docker",
      "kubernetes", "git", "algorithm", "data structure", "debugging", "deployment", "unit test",
      "ci/cd", "graphql", "rest", "sql", "nosql"]
  }

  function DataScientistTerms(): seq<string> {
    [
      "machine learning", "data analysis", "pandas", "numpy", "regression", "classification",
      "modeling", "nlp", "clustering", "python", "statistics", "deep learning", "data cleaning",
      "feature engineering", "visualization", "jupyter"]
  }

  function UxDesignerTerms(): seq<string> {
    [
      "wireframe", "prototype", "figma", "user flow", "accessibility", "usability", "interaction",
      "personas", "a/b testing", "design thinking", "sketch", "ui", "journey map", "heuristics"]
  }

  function ProductManagerTerms(): seq<string> {
    [
      "roadmap", "agile", "backlog", "scrum", "stakeholder", "okrs", "kpi", "requirements",
      "feature", "analytics", "user story", "priority", "customer", "value proposition",
      "market research"]
  }

  function SalesManagerTerms(): seq<string> {
    [
      "quota", "pipeline", "lead", "crm", "conversion", "prospecting", "negotiation", "follow-up",
      "target", "revenue", "closing", "demo", "client", "presentation", "deal"]
  }

  function MarketingDirectorTerms(): seq<string> {
    [
      "branding", "seo", "sem", "content", "strategy", "campaign", "roi", "analytics",
      "target audience", "engagement", "reach", "click-through", "social media",
      "email marketing", "conversion rate"]
  }

  function HrManagerTerms(): seq<string> {
    [
      "recruitment", "onboarding", "employee engagement", "training", "compliance", "benefits",
      "hiring", "policy", "feedback", "appraisal", "diversity", "inclusion", "performance"]
  }

  function FinanceAnalystTerms(): seq<string> {
    [
      "forecast", "budget", "cost", "variance", "balance sheet", "p&l", "cash flow",
      "financial model", "excel", "kpi", "trend analysis", "investment", "valuation"]
  }

  function CustomerSupportTerms(): seq<string> {
    [
      "ticket", "resolution", "empathy", "response time", "faq", "support", "escalation",
      "live chat", "follow-up", "satisfaction", "issue tracking"]
  }

  function SoftSkillTerms(): seq<string> {
    [
      "communication", "teamwork", "collaboration", "adaptability", "problem solving",
      "leadership", "time management", "empathy", "creativity", "critical thinking",
      "initiative", "resilience", "accountability", "motivation", "listening",
      "emotional intelligence"]
  }

  /** The entries of the `technicalKeywords` table, one per role. */
  function TechnicalTable(r: JobRole): seq<string> {
    match r
    case SoftwareEngineer => SoftwareEngineerTerms()
    case DataScientist => DataScientistTerms()
    case UxDesigner => UxDesignerTerms()
    case ProductManager => ProductManagerTerms()
    case SalesManager => SalesManagerTerms()
    case MarketingDirector => MarketingDirectorTerms()
    case HrManager => HrManagerTerms()
    case FinanceAnalyst => FinanceAnalystTerms()
    case CustomerSupport => CustomerSupportTerms()
  }

  /** The roles with an entry in the technical keyword table. */
  predicate HasTerms(name: string) {
    RoleNamed(name).Some?
  }

  /** `technicalKeywords[jobRole] || []`, with the empty fallback applied to
      every name that has no entry of its own. */
  function TechnicalTerms(name: string): seq<string> {
    match RoleNamed(name)
    case Some(r) => TechnicalTable(r)
    case None => []
  }

  /** How many of the keywords occur anywhere in the lower-cased answer. */
  function CountIncluded(keywords: seq<string>, response: string): (n: nat)
    ensures n <= |keywords|
  {
    Count(keywords, (k: string) => Contains(Lower(response), Lower(k)))
  }

  function FeaturesOf(response: string, terms: seq<string>): (f: ResponseFeatures)
    ensures f.wordCount >= 1 && f.sentenceCount >= 1
    ensures f.technicalMatches <= |terms| && f.softSkillMatches <= |SoftSkillTerms()|
  {
    ResponseFeatures(
      |SplitRuns(Lower(response), IsJsSpace)|,
      |SplitEach(response, LiveRules.IsSentenceMark)|,
      CountIncluded(terms, response),
      CountIncluded(SoftSkillTerms(), response))
  }

  /** With no keywords there are no technical matches. */
  lemma NoTermsNoMatches(response: string)
    ensures FeaturesOf(response, []).technicalMatches == 0
  {
  }

  const SummaryHire := "Strong candidate with excellent domain knowledge and strong interpersonal fit."
  const SummaryConsider := "Potential candidate with promise. May need additional guidance or development."
  const SummaryPass := "Candidate does not currently meet expectations for this role."

  const StrengthExpertise := "Excellent domain expertise and technical terminology."
  const StrengthInterpersonal := "Strong interpersonal and communication skills."
  const StrengthThorough := "Thorough and well-articulated responses."
  const StrengthBasic := "Basic knowledge of the domain is visible."

  const ConcernDepth := "Lack of technical depth in answers."
  const ConcernSoftSkills := "Limited demonstration of soft skills."
  const ConcernBrief := "Response too brief for reliable evaluation."
  const ConcernDeeper := "Could benefit from deeper insights and clarity."

  function Summary(v: Verdict): string {
    match v
    case Hire => SummaryHire
    case Consider => SummaryConsider
    case Pass => SummaryPass
  }

  /** `avg >= 75 ? 'Hire' : avg >= 55 ? 'Consider' : 'Pass'` with
      `avg = (jobFitScore + cultureFitScore) / 2`. */
  function VerdictFor(job: int, culture: int): (v: Verdict)
    ensures v == Hire <==> job + culture >= 150
    ensures v == Consider <==> 110 <= job + culture < 150
    ensures v == Pass <==> job + culture < 110
  {
    var avg := (job + culture) as real / 2.0;
    if avg >= 75.0 then Hire else if avg >= 55.0 then Consider else Pass
  }

  /** The strengths pushed before the fallback. */
  function RuleStrengths(f: ResponseFeatures): seq<string> {
    LiveRules.When(f.technicalMatches >= 5, StrengthExpertise)
    + LiveRules.When(f.softSkillMatches >= 5, StrengthInterpersonal)
    + LiveRules.When(f.wordCount > 100, StrengthThorough)
  }

  /** The concerns pushed before the fallback. */
  function RuleConcerns(f: ResponseFeatures): seq<string> {
    LiveRules.When(f.technicalMatches <= 2, ConcernDepth)
    + LiveRules.When(f.softSkillMatches <= 2, ConcernSoftSkills)
    + LiveRules.When(f.wordCount < 40, ConcernBrief)
  }

  function OrElse(s: seq<string>, fallback: string): (r: seq<string>)
    ensures |r| >= 1
  {
    if |s| == 0 then [fallback] else s
  }

  /** What every result satisfies: scores at most 100, the verdict banded on
      their sum, the verdict's summary, and one to three strengths and
      concerns. */
  predicate Coherent(r: AnalysisResult) {
    r.jobFitScore <= 100 && r.cultureFitScore <= 100
    && r.verdict == VerdictFor(r.jobFitScore, r.cultureFitScore)
    && r.summary == Summary(r.verdict)
    && 1 <= |r.strengths| <= 3 && 1 <= |r.concerns| <= 3
  }

  /** Neither score is negative. */
  predicate NonNegativeScores(r: AnalysisResult) {
    0 <= r.jobFitScore && 0 <= r.cultureFitScore
  }

  /** The scores, verdict and feedback once the features are known. */
  function ScoreResponse(f: ResponseFeatures, jitterJob: real, jitterCulture: real): (r: AnalysisResult)
    ensures 0.0 <= jitterJob && 0.0 <= jitterCulture ==> NonNegativeScores(r)
    ensures Coherent(r)
  {
    var wordScore := LiveRules.Min(f.wordCount as real / 10.0, 20.0);
    var job := LiveRules.Round(LiveRules.Min(100.0,
                 (f.technicalMatches * 10) as real + wordScore + jitterJob));
    var culture := LiveRules.Round(LiveRules.Min(100.0,
                     (f.softSkillMatches * 10 + f.sentenceCount) as real + jitterCulture));
    var verdict := VerdictFor(job, culture);
    AnalysisResult(job, culture, verdict, Summary(verdict),
                   OrElse(RuleStrengths(f), StrengthBasic),
                   OrElse(RuleConcerns(f), ConcernDeeper))
  }

  /** The three summaries are different, so the summary tells the verdict. */
  lemma SummaryDeterminesVerdict(a: Verdict, b: Verdict)
    ensures Summary(a) == Summary(b) <==> a == b
  {
    assert |SummaryHire| == |SummaryConsider| == 78 && |SummaryPass| == 61;
    assert SummaryHire[75] == 'i' && SummaryConsider[75] == 'n';
  }

  /** The fallback strength appears exactly when no rule fired, and then
      alone; likewise for the fallback concern. */
  lemma FallbackRules(f: ResponseFeatures, jitterJob: real, jitterCulture: real)
    ensures var r := ScoreResponse(f, jitterJob, jitterCulture);
            && (StrengthBasic in r.strengths <==>
                  f.technicalMatches < 5 && f.softSkillMatches < 5 && f.wordCount <= 100)
            && (StrengthBasic in r.strengths ==> r.strengths == [StrengthBasic])
            && (ConcernDeeper in r.concerns <==>
                  f.technicalMatches > 2 && f.softSkillMatches > 2 && f.wordCount >= 40)
            && (ConcernDeeper in r.concerns ==> r.concerns == [ConcernDeeper])
  {
    assert |StrengthBasic| == 41 && |StrengthExpertise| == 53;
    assert |StrengthInterpersonal| == 46 && |StrengthThorough| == 40;
    assert StrengthBasic !in RuleStrengths(f);
    assert |ConcernDeeper| == 47 && |ConcernDepth| == 35;
    assert |ConcernSoftSkills| == 37 && |ConcernBrief| == 43;
    assert ConcernDeeper !in RuleConcerns(f);
  }

  /** A strength and a concern about the same aspect never appear together. */
  lemma FeedbackConsistent(f: ResponseFeatures, jitterJob: real, jitterCulture: real)
    ensures var r := ScoreResponse(f, jitterJob, jitterCulture);
            && !(StrengthExpertise in r.strengths && ConcernDepth in r.concerns)
            && !(StrengthInterpersonal in r.strengths && ConcernSoftSkills in r.concerns)
            && !(StrengthThorough in r.strengths && ConcernBrief in r.concerns)
  {
    var r := ScoreResponse(f, jitterJob, jitterCulture);
    assert |StrengthBasic| == 41 && |StrengthExpertise| == 53;
    assert |StrengthInterpersonal| == 46 && |StrengthThorough| == 40;
    assert |ConcernDeeper| == 47 && |ConcernDepth| == 35;
    assert |ConcernSoftSkills| == 37 && |ConcernBrief| == 43;
    assert StrengthExpertise in r.strengths ==> f.technicalMatches >= 5;
    assert ConcernDepth in r.concerns ==> f.technicalMatches <= 2;
    assert StrengthInterpersonal in r.strengths ==> f.softSkillMatches >= 5;
    assert ConcernSoftSkills in r.concerns ==> f.softSkillMatches <= 2;
    assert StrengthThorough in r.strengths ==> f.wordCount > 100;
    assert ConcernBrief in r.concerns ==> f.wordCount < 40;
  }

  /** The brevity concern appears exactly for answers of fewer than 40 words,
      and the thoroughness strength exactly for answers of more than 100. */
  lemma LengthRules(f: ResponseFeatures, jitterJob: real, jitterCulture: real)
    ensures var r := ScoreResponse(f, jitterJob, jitterCulture);
            && (ConcernBrief in r.concerns <==> f.wordCount < 40)
            && (StrengthThorough in r.strengths <==> f.wordCount > 100)
  {
    assert |StrengthBasic| == 41 && |StrengthExpertise| == 53;
    assert |StrengthInterpersonal| == 46 && |StrengthThorough| == 40;
    assert |ConcernDeeper| == 47 && |ConcernDepth| == 35;
    assert |ConcernSoftSkills| == 37 && |ConcernBrief| == 43;
  }

  lemma FewMatchesLackDepth(f: ResponseFeatures, jitterJob: real, jitterCulture: real)
    ensures f.technicalMatches <= 2 ==>
              ConcernDepth in ScoreResponse(f, jitterJob, jitterCulture).concerns
  {
    assert f.technicalMatches <= 2 ==> RuleConcerns(f)[0] == ConcernDepth;
  }

}
