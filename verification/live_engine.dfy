/** `analyzeLiveResponse` of src/utils/liveAnalysisEngine.ts: one call scores a
    block of candidate text against a job role, by the rules of `LiveRules`.
    `new Date()` becomes the `now` parameter. */
module LiveEngine {
  import opened Wrappers
  import opened Types
  import opened Roles
  import opened LiveRules

  function ExtractFeatures(text: string, role: string): Features
  {
    FeaturesWith(text, RoleKeywordsFor(role))
  }

  /** `analyzeLiveResponse(text, jobRole, previousAnalysis)`: the features of
      the text scored by `Score`. */
  function AnalyzeLiveResponse(text: string, jobRole: string, previous: LiveAnalysis,
                               jitter: Jitter, now: int): (r: LiveAnalysis)
    ensures WellFormedAnalysis(r) && r.lastUpdated == now
  {
    Score(ExtractFeatures(text, jobRole), previous, jitter, now)
  }

  /** Technical and soft-skill match counts are bounded by the role's lists,
      and an unknown role is scored with the Software Engineer lists. */
  lemma MatchCountsBounded(text: string, role: string)
    ensures ExtractFeatures(text, role).technicalMatches <= |RoleKeywordsFor(role).technical|
    ensures ExtractFeatures(text, role).softSkillMatches <= |RoleKeywordsFor(role).soft|
    ensures !IsKnownRole(role) ==>
              ExtractFeatures(text, role) == FeaturesWith(text, SoftwareEngineerKeywords())
  {
  }

  /** The table has an entry for every role except Finance Analyst and
      Customer Support. */
  lemma KnownRoles(r: JobRole)
    ensures IsKnownRole(RoleName(r)) <==> r != FinanceAnalyst && r != CustomerSupport
  {
    RoleNamedInvertsRoleName(r);
  }

  /** Every other name falls back to the Software Engineer lists. */
  lemma UnknownRoleFallsBack(name: string)
    requires !IsKnownRole(name)
    ensures RoleKeywordsFor(name) == SoftwareEngineerKeywords()
  {
  }

}
