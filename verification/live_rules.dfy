/** The rules of src/utils/liveAnalysisEngine.ts: the role keyword table, the
    text features, and the scoring step that blends them with the previous
    analysis (momentum 0.3) and emits rule-based insights, strengths and red
    flags. `Math.random()` becomes the three jitter values of `Jitter`, and
    `Math.round(x)` is `Floor(x + 0.5)`. */
module LiveRules {
  import opened Wrappers
  import opened Seqs
  import opened Text
  import opened Types
  import opened Roles

  datatype RoleKeywords = RoleKeywords(technical: seq<string>, soft: seq<string>)

  function SoftwareEngineerKeywords(): RoleKeywords {
    RoleKeywords(
      ["javascript", "typescript", "python", "java", "c++", "algorithm", "code", "api", "debug",
       "testing", "database", "cloud", "devops", "docker", "ci/cd", "frontend", "backend",
       "architecture"],
      ["problem-solving", "communication", "teamwork", "adaptability", "learning",
       "attention to detail"])
  }

  function ProductManagerKeywords(): RoleKeywords {
    RoleKeywords(
      ["roadmap", "strategy", "okrs", "kpi", "requirements", "stakeholder", "analytics",
       "user research", "feature", "market", "launch", "scrum", "backlog"],
      ["leadership", "communication", "decision-making", "vision", "negotiation", "ownership"])
  }

  function UxDesignerKeywords(): RoleKeywords {
    RoleKeywords(
      ["wireframe", "prototype", "accessibility", "usability", "ui", "figma", "a/b testing",
       "journey map", "interaction", "interface", "design thinking"],
      ["empathy", "creativity", "user focus", "feedback", "iteration"])
  }

  function SalesManagerKeywords(): RoleKeywords {
    RoleKeywords(
      ["pipeline", "quota", "crm", "target", "revenue", "prospecting", "negotiation",
       "conversion", "lead", "follow-up", "closing", "territory"],
      ["persuasion", "relationship", "resilience", "confidence", "communication"])
  }

  function DataScientistKeywords(): RoleKeywords {
    RoleKeywords(
      ["python", "machine learning", "data analysis", "modeling", "pandas", "regression",
       "classification", "nlp", "clustering", "deep learning", "statistics"],
      ["curiosity", "problem-solving", "attention to detail", "communication"])
  }

  function MarketingDirectorKeywords(): RoleKeywords {
    RoleKeywords(
      ["seo", "sem", "branding", "analytics", "roi", "kpi", "campaign", "strategy",
       "content marketing", "conversion", "email", "social media"],
      ["creativity", "audience understanding", "collaboration", "vision"])
  }

  function HrManagerKeywords(): RoleKeywords {
    RoleKeywords(
      ["recruitment", "onboarding", "retention", "policy", "compliance", "employee engagement",
       "benefits", "appraisal", "diversity", "interview"],
      ["empathy", "communication", "leadership", "integrity", "conflict resolution"])
  }

  /** The entries of the `roleKeywords` table; Finance Analyst and Customer
      Support have none here. */
  function LiveKeywords(r: JobRole): Option<RoleKeywords> {
    match r
    case SoftwareEngineer => Some(SoftwareEngineerKeywords())
    case ProductManager => Some(ProductManagerKeywords())
    case UxDesigner => Some(UxDesignerKeywords())
    case SalesManager => Some(SalesManagerKeywords())
    case DataScientist => Some(DataScientistKeywords())
    case MarketingDirector => Some(MarketingDirectorKeywords())
    case HrManager => Some(HrManagerKeywords())
    case FinanceAnalyst => None
    case CustomerSupport => None
  }

  /** `roleKeywords[jobRole]` restricted to the table's own entries. */
  function OwnEntry(name: string): Option<RoleKeywords> {
    match RoleNamed(name)
    case None => None
    case Some(r) => LiveKeywords(r)
  }

  /** The roles that have their own entry in the keyword table. */
  predicate IsKnownRole(name: string) {
    OwnEntry(name).Some?
  }

  /** `roleKeywords[jobRole] || roleKeywords['Software Engineer']`, with the
      fallback applied to every name that has no entry of its own. */
  function RoleKeywordsFor(name: string): RoleKeywords {
    OwnEntry(name).GetOr(SoftwareEngineerKeywords())
  }

  /** The test `word => word.length > 2`. */
  function LongWord(): string -> bool {
    (w: string) => JsLength(w) > 2
  }

  /** `text.toLowerCase().split(/\s+/).filter(word => word.length > 2)`: every
      piece of the split longer than two UTF-16 units, in order, each as often
      as it occurs. */
  function Words(text: string): (ws: seq<string>)
    ensures Selects(ws, SplitRuns(Lower(text), IsJsSpace), LongWord())
    ensures forall i :: 0 <= i < |ws| ==> NoSpace(ws[i]) && JsLength(ws[i]) > 2
  {
    var pieces := SplitRuns(Lower(text), IsJsSpace);
    var ws := Filter(pieces, LongWord());
    SelectsIsFilter(ws, pieces, LongWord());
    assert forall i :: 0 <= i < |ws| ==> ws[i] in pieces by {
      forall i | 0 <= i < |ws| ensures ws[i] in pieces {
        FilterMembers(pieces, LongWord(), ws[i]);
      }
    }
    ws
  }

  /** `words.some(word => word.includes(keyword))`. */
  predicate AnyContains(words: seq<string>, keyword: string) {
    exists i :: 0 <= i < |words| && Contains(words[i], keyword)
  }

  /** How many keywords occur inside some word. */
  function CountMatches(keywords: seq<string>, words: seq<string>): (n: nat)
    ensures n <= |keywords|
  {
    Count(keywords, (k: string) => AnyContains(words, Lower(k)))
  }

  predicate IsSentenceMark(c: char) {
    c == '.' || c == '!' || c == '?'
  }

  /** The text statistics the scores and rules are computed from. */
  datatype Features = Features(
    wordCount: nat,
    technicalMatches: nat,
    softSkillMatches: nat,
    sentenceCount: nat,
    hasExamples: bool,
    hasQuestions: bool,
    mentionsTeam: bool,
    mentionsLearn: bool)
  {
    /** `avgWordsPerSentence`: words per non-empty sentence, 0 without one. */
    function AvgWordsPerSentence(): real {
      if sentenceCount > 0 then wordCount as real / sentenceCount as real else 0.0
    }

    /** `avgWordsPerSentence > k`, decided without division. */
    predicate AvgAbove(k: nat) {
      sentenceCount > 0 && wordCount > k * sentenceCount
    }

    /** `avgWordsPerSentence < k`, decided without division (for k > 0). */
    predicate AvgBelow(k: nat) {
      sentenceCount == 0 || wordCount < k * sentenceCount
    }
  }

  /** The division-free comparisons agree with comparing the average. */
  lemma AvgComparisons(f: Features, k: nat)
    requires k > 0
    ensures f.AvgAbove(k) <==> f.AvgWordsPerSentence() > k as real
    ensures f.AvgBelow(k) <==> f.AvgWordsPerSentence() < k as real
  {
    if f.sentenceCount > 0 {
      var avg := f.AvgWordsPerSentence();
      var w, n := f.wordCount as real, f.sentenceCount as real;
      assert avg * n == w;
      assert (k * f.sentenceCount) as real == k as real * n;
      if avg > k as real {
        assert avg * n > k as real * n;
      }
      if avg < k as real {
        assert avg * n < k as real * n;
      }
      if avg <= k as real {
        assert avg * n <= k as real * n;
      }
      if avg >= k as real {
        assert avg * n >= k as real * n;
      }
    }
  }

  function FeaturesWith(text: string, kw: RoleKeywords): (f: Features)
    ensures f.technicalMatches <= |kw.technical|
    ensures f.softSkillMatches <= |kw.soft|
  {
    var words := Words(text);
    var sentences := Count(SplitRuns(text, IsSentenceMark), (s: string) => Trim(s) != "");
    var lower := Lower(text);
    Features(
      |words|,
      CountMatches(kw.technical, words),
      CountMatches(kw.soft, words),
      sentences,
      Contains(lower, "example") || Contains(lower, "instance") || Contains(lower, "such as"),
      Contains(text, "?"),
      Contains(text, "team"),
      Contains(text, "learn"))
  }

  /** A keyword with whitespace in it is never counted: words never contain
      whitespace, since they come from splitting on it. */
  lemma SpacedKeywordNeverMatches(text: string, keyword: string, k: nat)
    requires k < |keyword| && IsJsSpace(keyword[k])
    ensures !AnyContains(Words(text), Lower(keyword))
  {
    var ws := Words(text);
    var low := Lower(keyword);
    assert low[k] == keyword[k];
    forall i | 0 <= i < |ws| ensures !Contains(ws[i], low) {
      NoSpaceNeverContainsSpace(ws[i], low, k);
    }
  }

  /** The random contributions, one `Math.random()` draw each, already scaled:
      job fit adds a value in [0, 20), culture fit one in [0, 25) and
      confidence one in [0, 10). */
  datatype Jitter = Jitter(job: real, culture: real, confidence: real) {
    predicate Valid() {
      0.0 <= job < 20.0 && 0.0 <= culture < 25.0 && 0.0 <= confidence < 10.0
    }
  }

  const Momentum: real := 0.3

  /** `Math.round`. */
  function Round(x: real): int {
    (x + 0.5).Floor
  }

  function Min(a: real, b: real): real { if a <= b then a else b }

  function Max(a: real, b: real): real { if a >= b then a else b }

  /** `Math.round(Math.min(hi, Math.max(lo, x)))`. */
  function ClampRound(lo: int, hi: int, x: real): (n: int)
    requires lo <= hi
    ensures lo <= n <= hi
  {
    Round(Min(hi as real, Max(lo as real, x)))
  }

  /** The unclamped job-fit sum. */
  function JobFitSum(prevJob: int, f: Features, jitter: real): real {
    prevJob as real * Momentum
    + (f.technicalMatches * 8) as real
    + (if f.wordCount > 50 then 15.0 else f.wordCount as real * 0.3)
    + (if f.hasExamples then 10.0 else 0.0)
    + (if f.AvgAbove(8) && f.AvgBelow(25) then 10.0 else 0.0)
    + jitter
  }

  /** The unclamped culture-fit sum. */
  function CultureFitSum(prevCulture: int, f: Features, jitter: real): real {
    prevCulture as real * Momentum
    + (f.softSkillMatches * 12) as real
    + (if f.hasQuestions then 8.0 else 0.0)
    + (if f.sentenceCount > 2 then 10.0 else 0.0)
    + (if f.mentionsTeam then 8.0 else 0.0)
    + (if f.mentionsLearn then 6.0 else 0.0)
    + jitter
  }

  /** The unclamped confidence sum. */
  function ConfidenceSum(f: Features, jitter: real): real {
    (if f.wordCount > 30 then 40.0 else f.wordCount as real * 1.3)
    + (if f.technicalMatches > 0 then 20.0 else 0.0)
    + (if f.softSkillMatches > 0 then 15.0 else 0.0)
    + (if f.sentenceCount > 1 then 15.0 else 0.0)
    + jitter
  }

  const StrengthTechnical := "Demonstrates solid technical knowledge"
  const StrengthSoftSkills := "Displays soft skills like collaboration or communication"
  const StrengthClear := "Clear, concise communication"
  const StrengthExamples := "Uses concrete examples"
  const StrengthCurious := "Engaged and curious"

  const FlagNoTechnical := "No domain-specific technical terms found"
  const FlagSoftSkills := "Could highlight more interpersonal or soft skills"
  const FlagComplex := "Sentence complexity may reduce clarity"
  const FlagTooShort := "Responses are too short or vague"

  const InsightExamples := "Provides relevant examples for better clarity"
  const InsightQuestions := "Asks relevant questions during response"
  const InsightWell := "Candidate performing consistently well"
  const InsightPotential := "Candidate shows potential with room to grow"
  const InsightNeedsWork := "Performance needs improvement"

  function TechnicalInsight(matches: nat): string {
    "Strong technical vocabulary with " + NatToString(matches) + " domain keywords"
  }

  function TrendInsight(trend: int): string {
    if trend > 0 then "Improving performance (+" + IntToString(trend) + ")"
    else "Declining performance (" + IntToString(trend) + ")"
  }

  /** Insights of the form produced for a score trend: of all the insights,
      only these end in a closing parenthesis. */
  predicate IsTrendInsight(s: string) {
    |s| > 0 && s[|s| - 1] == ')'
  }

  lemma TrendInsightRecognised(trend: int)
    ensures IsTrendInsight(TrendInsight(trend))
  {
  }

  function When(c: bool, s: string): seq<string> {
    if c then [s] else []
  }

  /** The strengths pushed, in order, before `slice(0, 4)`. */
  function RawStrengths(f: Features): seq<string> {
    When(f.technicalMatches >= 3, StrengthTechnical)
    + When(f.softSkillMatches >= 2, StrengthSoftSkills)
    + When(!f.AvgAbove(25) && !f.AvgBelow(5), StrengthClear)
    + When(f.hasExamples, StrengthExamples)
    + When(f.hasQuestions, StrengthCurious)
  }

  /** The red flags pushed, in order, before `slice(0, 3)`. */
  function RawRedFlags(f: Features): seq<string> {
    When(f.technicalMatches == 0, FlagNoTechnical)
    + When(!(f.softSkillMatches >= 2), FlagSoftSkills)
    + (if f.AvgAbove(25) then [FlagComplex]
       else if f.AvgBelow(5) then [FlagTooShort]
       else [])
  }

  function ScoreBandInsight(overall: int): string {
    if overall >= 80 then InsightWell
    else if overall >= 60 then InsightPotential
    else InsightNeedsWork
  }

  function Abs(x: int): nat { if x < 0 then -x else x }

  /** The insights pushed, in order, before `slice(0, 4)`. */
  function RawInsights(f: Features, overall: int, previousOverall: int): seq<string> {
    var trend := overall - previousOverall;
    When(f.technicalMatches >= 3, TechnicalInsight(f.technicalMatches))
    + When(f.hasExamples, InsightExamples)
    + When(f.hasQuestions, InsightQuestions)
    + [ScoreBandInsight(overall)]
    + When(Abs(trend) > 5, TrendInsight(trend))
  }

  /** The scoring step once the features are known. */
  function Score(f: Features, previous: LiveAnalysis, jitter: Jitter, now: int): (r: LiveAnalysis)
    ensures WellFormedAnalysis(r)
    ensures r.jobFitScore <= r.cultureFitScore ==>
              r.jobFitScore <= r.overallScore <= r.cultureFitScore
    ensures r.cultureFitScore <= r.jobFitScore ==>
              r.cultureFitScore <= r.overallScore <= r.jobFitScore
    ensures r.lastUpdated == now
  {
    var job := ClampRound(0, 100, JobFitSum(previous.jobFitScore, f, jitter.job));
    var culture := ClampRound(0, 100, CultureFitSum(previous.cultureFitScore, f, jitter.culture));
    var overall := Round((job + culture) as real / 2.0);
    RoundBetween(job, culture);
    RoundMean(job, culture);
    var confidence := ClampRound(20, 100, ConfidenceSum(f, jitter.confidence));
    LiveAnalysis(
      job, culture, overall, confidence,
      Take(RawInsights(f, overall, previous.overallScore), 4),
      Take(RawRedFlags(f), 3),
      Take(RawStrengths(f), 4),
      now)
  }

  /** `Math.round((a + b) / 2)` in integer arithmetic. */
  lemma RoundMean(a: int, b: int)
    ensures Round((a + b) as real / 2.0) == (a + b + 1) / 2
  {
    var x := (a + b) as real / 2.0;
    var n := (x + 0.5).Floor;
    assert n as real <= x + 0.5 < n as real + 1.0;
    var m := (a + b + 1) / 2;
    assert 2 * m <= a + b + 1 < 2 * m + 2;
  }

  /** The rounded mean of two integers lies between them. */
  lemma RoundBetween(a: int, b: int)
    ensures a <= b ==> a <= Round((a + b) as real / 2.0) <= b
    ensures b <= a ==> b <= Round((a + b) as real / 2.0) <= a
  {
    var x := (a + b) as real / 2.0;
    var n := (x + 0.5).Floor;
    assert n as real <= x + 0.5 < n as real + 1.0;
  }

  /** `Math.round` never decreases. */
  lemma RoundMonotone(x: real, y: real)
    requires x <= y
    ensures Round(x) <= Round(y)
  {
    var a, b := (x + 0.5).Floor, (y + 0.5).Floor;
    assert a as real <= x + 0.5 <= y + 0.5 < b as real + 1.0;
  }

  lemma ClampRoundMonotone(lo: int, hi: int, x: real, y: real)
    requires lo <= hi && x <= y
    ensures ClampRound(lo, hi, x) <= ClampRound(lo, hi, y)
  {
    RoundMonotone(Min(hi as real, Max(lo as real, x)), Min(hi as real, Max(lo as real, y)));
  }

  /** With the features and jitter fixed, a higher previous job-fit
      (culture-fit) score never gives a lower new one. */
  lemma MomentumMonotone(f: Features, prevA: LiveAnalysis, prevB: LiveAnalysis,
                         jitter: Jitter, now: int)
    ensures prevA.jobFitScore <= prevB.jobFitScore ==>
              Score(f, prevA, jitter, now).jobFitScore <= Score(f, prevB, jitter, now).jobFitScore
    ensures prevA.cultureFitScore <= prevB.cultureFitScore ==>
              Score(f, prevA, jitter, now).cultureFitScore
              <= Score(f, prevB, jitter, now).cultureFitScore
  {
    if prevA.jobFitScore <= prevB.jobFitScore {
      ClampRoundMonotone(0, 100, JobFitSum(prevA.jobFitScore, f, jitter.job),
                         JobFitSum(prevB.jobFitScore, f, jitter.job));
    }
    if prevA.cultureFitScore <= prevB.cultureFitScore {
      ClampRoundMonotone(0, 100, CultureFitSum(prevA.cultureFitScore, f, jitter.culture),
                         CultureFitSum(prevB.cultureFitScore, f, jitter.culture));
    }
  }

  /** A valid job-fit jitter moves the job-fit score up by at most 20 points
      compared with no jitter at all. */
  lemma JitterEffectBounded(prevJob: int, f: Features, j: real)
    requires 0.0 <= j < 20.0
    ensures 0 <= ClampRound(0, 100, JobFitSum(prevJob, f, j))
                 - ClampRound(0, 100, JobFitSum(prevJob, f, 0.0)) <= 20
  {
    var x := Min(100.0, Max(0.0, JobFitSum(prevJob, f, 0.0)));
    var y := Min(100.0, Max(0.0, JobFitSum(prevJob, f, j)));
    assert x <= y < x + 20.0;
    var a, b := (x + 0.5).Floor, (y + 0.5).Floor;
    assert a as real <= x + 0.5 < a as real + 1.0;
    assert b as real <= y + 0.5 < b as real + 1.0;
  }

  lemma TakeKeeps(s: seq<string>, n: nat, x: string)
    ensures x in Take(s, n) ==> x in s
  {
  }

  /** Soft skills produce exactly one of a strength (two or more matches)
      or a red flag (fewer). */
  lemma SoftSkillsExclusive(f: Features, previous: LiveAnalysis, jitter: Jitter, now: int)
    ensures var r := Score(f, previous, jitter, now);
            && (StrengthSoftSkills in r.strengths <==> f.softSkillMatches >= 2)
            && (FlagSoftSkills in r.redFlags <==> f.softSkillMatches < 2)
  {
    SoftSkillsRule(f);
  }

  lemma SoftSkillsRule(f: Features)
    ensures (StrengthSoftSkills in Take(RawStrengths(f), 4)) <==> f.softSkillMatches >= 2
    ensures (FlagSoftSkills in Take(RawRedFlags(f), 3)) <==> f.softSkillMatches < 2
  {
    var raw := RawStrengths(f);
    TakeKeeps(raw, 4, StrengthSoftSkills);
    if f.softSkillMatches >= 2 {
      var i := if f.technicalMatches >= 3 then 1 else 0;
      assert raw[i] == StrengthSoftSkills;
      assert Take(raw, 4)[i] == StrengthSoftSkills;
    } else {
      assert StrengthSoftSkills !in raw;
    }
    assert Take(RawRedFlags(f), 3) == RawRedFlags(f);
  }

  /** Sentence length yields exactly one of three outcomes: a complexity flag
      above 25 words per sentence, a brevity flag below 5, or else the clarity
      strength. */
  lemma SentenceLengthOneOutcome(f: Features, previous: LiveAnalysis, jitter: Jitter, now: int)
    ensures var r := Score(f, previous, jitter, now);
            var avg := f.AvgWordsPerSentence();
            && (FlagComplex in r.redFlags <==> avg > 25.0)
            && (FlagTooShort in r.redFlags <==> avg < 5.0)
            && (StrengthClear in r.strengths <==> 5.0 <= avg <= 25.0)
  {
    SentenceLengthRule(f);
    AvgComparisons(f, 25);
    AvgComparisons(f, 5);
  }

  lemma SentenceLengthRule(f: Features)
    ensures FlagComplex in Take(RawRedFlags(f), 3) <==> f.AvgAbove(25)
    ensures FlagTooShort in Take(RawRedFlags(f), 3) <==> !f.AvgAbove(25) && f.AvgBelow(5)
    ensures StrengthClear in Take(RawStrengths(f), 4) <==> !f.AvgAbove(25) && !f.AvgBelow(5)
  {
    var raw := RawStrengths(f);
    TakeKeeps(raw, 4, StrengthClear);
    assert Take(RawRedFlags(f), 3) == RawRedFlags(f);
    if !f.AvgAbove(25) && !f.AvgBelow(5) {
      var i := (if f.technicalMatches >= 3 then 1 else 0) + (if f.softSkillMatches >= 2 then 1 else 0);
      assert raw[i] == StrengthClear;
      assert Take(raw, 4)[i] == StrengthClear;
    } else {
      assert StrengthClear !in raw;
    }
  }

  /** At most three red flags are ever raised, so `slice(0, 3)` drops none. */
  lemma RedFlagsNeverTruncated(f: Features, previous: LiveAnalysis, jitter: Jitter, now: int)
    ensures |RawRedFlags(f)| <= 3
    ensures Score(f, previous, jitter, now).redFlags == RawRedFlags(f)
  {
  }

  /** Every insight other than the trend one ends in a letter. */
  lemma NonTrendInsightsDiffer(f: Features, overall: int)
    ensures forall s | s in When(f.technicalMatches >= 3, TechnicalInsight(f.technicalMatches))
              + When(f.hasExamples, InsightExamples) + When(f.hasQuestions, InsightQuestions)
              + [ScoreBandInsight(overall)] :: !IsTrendInsight(s)
  {
    var t := TechnicalInsight(f.technicalMatches);
    assert t[|t| - 1] == 's';
    assert InsightExamples[|InsightExamples| - 1] == 'y';
    assert InsightQuestions[|InsightQuestions| - 1] == 'e';
    assert InsightWell[|InsightWell| - 1] == 'l';
    assert InsightPotential[|InsightPotential| - 1] == 'w';
    assert InsightNeedsWork[|InsightNeedsWork| - 1] == 't';
    assert !IsTrendInsight(t);
    assert !IsTrendInsight(InsightExamples);
    assert !IsTrendInsight(InsightQuestions);
    assert !IsTrendInsight(ScoreBandInsight(overall));
  }

  /** A trend insight appears only when the overall score moved by more than 5
      points. */
  lemma TrendInsightOnlyOnBigChange(f: Features, previous: LiveAnalysis, jitter: Jitter, now: int)
    ensures var r := Score(f, previous, jitter, now);
            forall i | 0 <= i < |r.keyInsights| && IsTrendInsight(r.keyInsights[i]) ::
              Abs(r.overallScore - previous.overallScore) > 5
  {
    var r := Score(f, previous, jitter, now);
    TrendInsightRule(f, r.overallScore, previous.overallScore);
  }

  /** When the overall score moved by more than 5 points the trend insight is
      shown, unless the technical, examples and questions insights came first. */
  lemma TrendInsightOnBigChange(f: Features, previous: LiveAnalysis, jitter: Jitter, now: int)
    ensures var r := Score(f, previous, jitter, now);
            var trend := r.overallScore - previous.overallScore;
            Abs(trend) > 5 && !(f.technicalMatches >= 3 && f.hasExamples && f.hasQuestions) ==>
              TrendInsight(trend) in r.keyInsights
  {
    var r := Score(f, previous, jitter, now);
    TrendInsightRule(f, r.overallScore, previous.overallScore);
  }

  lemma TrendInsightRule(f: Features, overall: int, previousOverall: int)
    ensures var shown := Take(RawInsights(f, overall, previousOverall), 4);
            forall i | 0 <= i < |shown| && IsTrendInsight(shown[i]) ::
              Abs(overall - previousOverall) > 5
    ensures Abs(overall - previousOverall) > 5
            && !(f.technicalMatches >= 3 && f.hasExamples && f.hasQuestions) ==>
              TrendInsight(overall - previousOverall) in Take(RawInsights(f, overall, previousOverall), 4)
  {
    NonTrendInsightsDiffer(f, overall);
    var head := When(f.technicalMatches >= 3, TechnicalInsight(f.technicalMatches))
              + When(f.hasExamples, InsightExamples) + When(f.hasQuestions, InsightQuestions)
              + [ScoreBandInsight(overall)];
    var trend := overall - previousOverall;
    var raw := RawInsights(f, overall, previousOverall);
    var shown := Take(raw, 4);
    assert raw == head + When(Abs(trend) > 5, TrendInsight(trend));
    forall i | 0 <= i < |head|
      ensures !IsTrendInsight(raw[i])
    {
      assert raw[i] == head[i];
      assert head[i] in head;
    }
    forall i | 0 <= i < |shown| && IsTrendInsight(shown[i])
      ensures Abs(trend) > 5
    {
      assert shown[i] == raw[i];
    }
    if Abs(trend) > 5 && !(f.technicalMatches >= 3 && f.hasExamples && f.hasQuestions) {
      assert |head| <= 3;
      assert shown[|head|] == raw[|head|];
    }
  }
}
