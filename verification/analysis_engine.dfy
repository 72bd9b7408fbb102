/** The one-shot analyser of src/utils/analysisEngine.ts: it scores a whole
    written answer against a job role and returns a verdict with a fixed
    summary, strengths and concerns. The simulated latency is left out and the
    two `Math.random() * 20` draws become parameters. */
module AnalysisEngine {
  import opened Wrappers
  import opened Seqs
  import opened Text
  import opened Roles
  import opened AnalysisRules
  import LiveRules

  /** `analyzeResponse(response, jobRole)`. */
  function AnalyzeResponse(response: string, role: string, jitterJob: real,
                           jitterCulture: real): (r: AnalysisResult)
    ensures Coherent(r)
    ensures 0.0 <= jitterJob && 0.0 <= jitterCulture ==> NonNegativeScores(r)
  {
    ScoreWithTerms(response, TechnicalTerms(role), jitterJob, jitterCulture)
  }

  /** The analysis once the role's technical keywords are known. */
  function ScoreWithTerms(response: string, terms: seq<string>, jitterJob: real,
                          jitterCulture: real): (r: AnalysisResult)
    ensures Coherent(r)
    ensures 0.0 <= jitterJob && 0.0 <= jitterCulture ==> NonNegativeScores(r)
  {
    ScoreResponse(FeaturesOf(response, terms), jitterJob, jitterCulture)
  }

  /** A role without technical keywords always draws the technical-depth
      concern. */
  lemma UnknownRoleLacksDepth(response: string, role: string, jitterJob: real,
                              jitterCulture: real)
    requires !HasTerms(role)
    ensures ConcernDepth in AnalyzeResponse(response, role, jitterJob, jitterCulture).concerns
  {
    NoTermsNoMatches(response);
    FewMatchesLackDepth(FeaturesOf(response, []), jitterJob, jitterCulture);
  }

  /** `split(/\s+/)` keeps empty pieces: an answer without whitespace, the
      empty one included, counts as one word. */
  lemma WordCountOfOneWord(w: string, terms: seq<string>)
    requires NoSpace(w)
    ensures FeaturesOf(w, terms).wordCount == 1
  {
    SplitRunsWithoutSeparator(Lower(w), IsJsSpace);
  }
}

