/** The two keyword-table lookups exactly as written. A JavaScript object
    literal also answers the names it inherits from `Object.prototype`, so for
    such a job role the lookup is truthy and skips its fallback, and the
    following `.filter` call throws a TypeError. Each function here returns
    None where the source throws, and agrees with the corrected lookup of
    `LiveRules` or `AnalysisRules` everywhere else. */
module AsWritten {
  import opened Wrappers
  import opened Types
  import opened Roles
  import opened LiveRules
  import opened LiveEngine
  import opened AnalysisRules
  import opened AnalysisEngine

  /** The table lookup as written: an inherited property name is truthy, so the
      fallback is skipped, and reading `.technical` of it gives `undefined`,
      whose `.filter` throws a TypeError (modelled as None). */
  function RoleKeywordsAsWritten(name: string): (r: Option<RoleKeywords>)
    ensures FailsExactlyWhen(r, IsObjectPrototypeKey(name), RoleKeywordsFor(name))
  {
    PrototypeKeysAreNotRoles(name);
    match OwnEntry(name)
    case Some(kw) => Some(kw)
    case None => if IsObjectPrototypeKey(name) then None else Some(SoftwareEngineerKeywords())
  }

  /** The job role "constructor" makes the lookup as written fail, although the
      fallback promises the Software Engineer lists for every unknown role. */
  lemma ConstructorRoleBreaksLookup()
    ensures RoleKeywordsAsWritten("constructor").None?
    ensures RoleKeywordsFor("constructor") == SoftwareEngineerKeywords()
  {
    assert IsObjectPrototypeKey("constructor");
    PrototypeKeysAreNotRoles("constructor");
  }

  /** The step as written: the TypeError of the role lookup rejects the call. */
  function AnalyzeLiveResponseAsWritten(text: string, jobRole: string, previous: LiveAnalysis,
                                        jitter: Jitter, now: int): (r: Option<LiveAnalysis>)
    ensures FailsExactlyWhen(r, IsObjectPrototypeKey(jobRole),
                             AnalyzeLiveResponse(text, jobRole, previous, jitter, now))
  {
    var lookup := RoleKeywordsAsWritten(jobRole);
    if lookup.None? then None
    else
      assert lookup.value == RoleKeywordsFor(jobRole);
      Some(Score(FeaturesWith(text, lookup.value), previous, jitter, now))
  }

  /** The lookup as written: an inherited `Object.prototype` name yields a
      function or object, and calling `.filter` on it throws (None). */
  function TechnicalTermsAsWritten(name: string): (r: Option<seq<string>>)
    ensures FailsExactlyWhen(r, IsObjectPrototypeKey(name), TechnicalTerms(name))
  {
    PrototypeKeysAreNotRoles(name);
    match RoleNamed(name)
    case Some(r) => Some(TechnicalTable(r))
    case None => if IsObjectPrototypeKey(name) then None else Some([])
  }

  /** `analyzeResponse` as written: the role lookup throws for names inherited
      from `Object.prototype`, so the returned promise rejects (None). */
  function AnalyzeResponseAsWritten(response: string, role: string, jitterJob: real,
                                    jitterCulture: real): (r: Option<AnalysisResult>)
    ensures FailsExactlyWhen(r, IsObjectPrototypeKey(role),
                             AnalyzeResponse(response, role, jitterJob, jitterCulture))
  {
    var lookup := TechnicalTermsAsWritten(role);
    if lookup.None? then None
    else
      assert lookup.value == TechnicalTerms(role);
      Some(ScoreWithTerms(response, lookup.value, jitterJob, jitterCulture))
  }

  /** The job role "toString" makes `analyzeResponse` as written throw, although
      it has no entry of its own and so should get the empty fallback. */
  lemma ToStringRoleRejects(response: string, jitterJob: real, jitterCulture: real)
    ensures AnalyzeResponseAsWritten(response, "toString", jitterJob, jitterCulture).None?
  {
    assert IsObjectPrototypeKey("toString");
    PrototypeKeysAreNotRoles("toString");
  }
}
