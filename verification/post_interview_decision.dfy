/** The decision modal of src/components/PostInterviewDecision.tsx: the score
    colours, the recommended decision, the form's decision and notes, and the
    lists it shows. */
module PostInterviewDecision {
  import opened Wrappers
  import opened Seqs
  import opened Types
  import AnalysisRules

  /** The three text colours a score is shown in. */
  datatype ScoreColor = Green | Yellow | Red

  /** `getScoreColor(score)`; CandidateManagement.tsx has the same bands. */
  function ScoreColorOf(score: int): (c: ScoreColor)
    ensures c == Green <==> score >= 80
    ensures c == Yellow <==> 60 <= score < 80
    ensures c == Red <==> score < 60
  {
    if score >= 80 then Green else if score >= 60 then Yellow else Red
  }

  /** Green above yellow above red. */
  function ColorRank(c: ScoreColor): nat {
    match c
    case Red => 0
    case Yellow => 1
    case Green => 2
  }

  /** A higher score is never shown in a worse colour. */
  lemma ScoreColorMonotone(a: int, b: int)
    requires a <= b
    ensures ColorRank(ScoreColorOf(a)) <= ColorRank(ScoreColorOf(b))
  {
  }

  /** `getRecommendation()`: 'hire' from a mean score of 75, 'pending' from
      55, 'reject' below. */
  function Recommendation(a: LiveAnalysis): (d: Decision)
    ensures d == Hire <==> a.jobFitScore + a.cultureFitScore >= 150
    ensures d == Pending <==> 110 <= a.jobFitScore + a.cultureFitScore < 150
    ensures d == Reject <==> a.jobFitScore + a.cultureFitScore < 110
  {
    var avg := (a.jobFitScore + a.cultureFitScore) as real / 2.0;
    if avg >= 75.0 then Hire else if avg >= 55.0 then Pending else Reject
  }

  /** Hire above pending above reject. */
  function DecisionRank(d: Decision): nat {
    match d
    case Reject => 0
    case Pending => 1
    case Hire => 2
  }

  /** Raising either score never lowers the recommendation. */
  lemma RecommendationMonotone(a: LiveAnalysis, b: LiveAnalysis)
    requires a.jobFitScore <= b.jobFitScore && a.cultureFitScore <= b.cultureFitScore
    ensures DecisionRank(Recommendation(a)) <= DecisionRank(Recommendation(b))
  {
  }

  /** The recommendation bands are the verdict bands of `analyzeResponse`:
      hire is Hire, pending is Consider, reject is Pass. */
  lemma RecommendationMatchesVerdict(a: LiveAnalysis)
    ensures Recommendation(a) == Hire
            <==> AnalysisRules.VerdictFor(a.jobFitScore, a.cultureFitScore) == AnalysisRules.Hire
    ensures Recommendation(a) == Pending
            <==> AnalysisRules.VerdictFor(a.jobFitScore, a.cultureFitScore) == AnalysisRules.Consider
    ensures Recommendation(a) == Reject
            <==> AnalysisRules.VerdictFor(a.jobFitScore, a.cultureFitScore) == AnalysisRules.Pass
  {
  }

  /** The decision buttons and the notes box. */
  datatype DecisionForm = DecisionForm(decision: Decision, notes: string)

  /** The form as the modal opens: 'pending' and no notes. */
  function InitialForm(): DecisionForm {
    DecisionForm(Pending, "")
  }

  /** A decision button. */
  function ChooseDecision(f: DecisionForm, d: Decision): (r: DecisionForm)
    ensures r.decision == d && r.notes == f.notes
  {
    f.(decision := d)
  }

  /** Typing in the notes box. */
  function EditNotes(f: DecisionForm, text: string): (r: DecisionForm)
    ensures r.notes == text && r.decision == f.decision
  {
    f.(notes := text)
  }

  /** The save button: `onSave(decision, notes)` with the form's values. */
  function SaveArguments(f: DecisionForm): (r: (Decision, Option<string>))
    ensures r.0 == f.decision && r.1 == Some(f.notes)
  {
    (f.decision, Some(f.notes))
  }

  /** Saving without touching the form passes 'pending' and empty notes, and
      the buttons and the notes box pass on exactly what was chosen last. */
  lemma SavePassesChoice(d: Decision, text: string, d2: Decision)
    ensures SaveArguments(InitialForm()) == (Pending, Some(""))
    ensures SaveArguments(ChooseDecision(EditNotes(ChooseDecision(InitialForm(), d), text), d2))
            == (d2, Some(text))
  {
  }

  /** The strengths shown: the first three. */
  function ShownStrengths(a: LiveAnalysis): (r: seq<string>)
    ensures |r| == (if |a.strengths| < 3 then |a.strengths| else 3) && r == a.strengths[..|r|]
    ensures |a.strengths| <= 3 ==> r == a.strengths
  {
    Take(a.strengths, 3)
  }

  /** The red flags shown: the first three. */
  function ShownRedFlags(a: LiveAnalysis): (r: seq<string>)
    ensures |r| == (if |a.redFlags| < 3 then |a.redFlags| else 3) && r == a.redFlags[..|r|]
  {
    Take(a.redFlags, 3)
  }

  /** A scoring pass never raises more than three red flags, so all of them
      are shown. */
  lemma AllRedFlagsShown(a: LiveAnalysis)
    requires WellFormedAnalysis(a)
    ensures ShownRedFlags(a) == a.redFlags
  {
  }
}
