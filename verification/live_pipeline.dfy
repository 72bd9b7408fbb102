/** The incremental scoring pipeline of src/hooks/useLiveAnalysis.ts: the hook
    keeps the current analysis and the history of every analysis it produced;
    `analyzeSegments` scores the candidate text of the segments not yet
    analysed and marks them, and `resetAnalysis` starts over. The segments'
    `analyzed` flags, which the hook sets in place, are returned as a new
    list. */
module LivePipeline {
  import opened Wrappers
  import opened Seqs
  import opened Text
  import opened Types
  import opened Roles
  import opened LiveRules
  import opened LiveEngine
  import opened AsWritten

  datatype LiveState = LiveState(analysis: LiveAnalysis, history: seq<LiveAnalysis>)

  /** The outcome of one `analyzeSegments` call. */
  datatype Pass = Pass(state: LiveState, segments: seq<Segment>)

  /** The all-zero analysis the hook starts from and resets to. */
  function EmptyAnalysis(now: int): LiveAnalysis {
    LiveAnalysis(0, 0, 0, 0, [], [], [], now)
  }

  predicate IsEmptyAnalysis(a: LiveAnalysis) {
    a.jobFitScore == 0 && a.cultureFitScore == 0 && a.overallScore == 0 && a.confidence == 0
    && a.keyInsights == [] && a.redFlags == [] && a.strengths == []
  }

  function InitialState(now: int): LiveState {
    LiveState(EmptyAnalysis(now), [])
  }

  /** The hook's invariant: before any scoring the analysis is the empty one;
      afterwards it is the last entry of the history, and every entry is a
      well-formed analysis. */
  predicate Valid(st: LiveState) {
    (forall i :: 0 <= i < |st.history| ==> WellFormedAnalysis(st.history[i]))
    && if |st.history| == 0 then IsEmptyAnalysis(st.analysis)
       else st.analysis == st.history[|st.history| - 1]
  }

  function Unanalyzed(segs: seq<Segment>): seq<Segment> {
    Filter(segs, (s: Segment) => !s.analyzed)
  }

  /** The texts of the unanalysed candidate segments, in transcript order. */
  function PendingCandidateTexts(segs: seq<Segment>): seq<string> {
    Map(Filter(Unanalyzed(segs), (s: Segment) => s.speaker == Candidate), (s: Segment) => s.text)
  }

  /** The text handed to the scorer: those texts joined with single spaces. */
  function CombinedText(segs: seq<Segment>): string {
    Join(PendingCandidateTexts(segs), " ")
  }

  /** Whether `analyzeSegments` calls the scorer: there are segments, a job
      role, some unanalysed segment, and non-blank combined candidate text. */
  predicate Scores(segs: seq<Segment>, role: string) {
    |segs| > 0 && role != "" && |Unanalyzed(segs)| > 0 && Trim(CombinedText(segs)) != ""
  }

  predicate AllAnalyzed(segs: seq<Segment>) {
    forall i :: 0 <= i < |segs| ==> segs[i].analyzed
  }

  /** Every segment with its `analyzed` flag set; nothing else changes. */
  function MarkAnalyzed(segs: seq<Segment>): (r: seq<Segment>)
    ensures |r| == |segs| && AllAnalyzed(r)
    ensures forall i :: 0 <= i < |segs| ==> r[i] == segs[i].(analyzed := true)
  {
    Map(segs, (s: Segment) => s.(analyzed := true))
  }

  /** The scorer `analyzeSegments` awaits, applied to the combined text and the
      current analysis: `None` when it throws, which the hook catches. */
  type Scorer = (string, LiveAnalysis) -> Option<LiveAnalysis>

  /** `analyzeLiveResponse` bound to the hook's job role, with one draw of its
      randomness and clock. It never throws. */
  function LiveScorer(role: string, jitter: Jitter, now: int): Scorer {
    (text: string, previous: LiveAnalysis) => Some(AnalyzeLiveResponse(text, role, previous, jitter, now))
  }

  /** The same scorer with the job-role lookup as written, which throws for
      role names inherited from `Object.prototype`. */
  function LiveScorerAsWritten(role: string, jitter: Jitter, now: int): Scorer {
    (text: string, previous: LiveAnalysis) =>
      AnalyzeLiveResponseAsWritten(text, role, previous, jitter, now)
  }

  /** `analyzeSegments(segments)` with the hook's current state. Every
      unanalysed segment is marked, interviewer segments included, because the
      marking loop tests membership in the unanalysed list before the speaker
      filter. */
  function AnalyzeSegments(st: LiveState, segs: seq<Segment>, role: string, score: Scorer): (p: Pass)
    ensures !Scores(segs, role) || score(CombinedText(segs), st.analysis).None? ==>
              p == Pass(st, segs)
    ensures Scores(segs, role) && score(CombinedText(segs), st.analysis).Some? ==>
              && p.state.analysis == score(CombinedText(segs), st.analysis).value
              && p.state.history == st.history + [p.state.analysis]
              && AllAnalyzed(p.segments)
    ensures |p.segments| == |segs|
    ensures forall i :: 0 <= i < |segs| ==>
              p.segments[i].(analyzed := segs[i].analyzed) == segs[i]
  {
    if |segs| == 0 || role == "" then Pass(st, segs)
    else if |Unanalyzed(segs)| == 0 then Pass(st, segs)
    else if Trim(CombinedText(segs)) == "" then Pass(st, segs)
    else
      match score(CombinedText(segs), st.analysis)
      case None => Pass(st, segs)
      case Some(a) => Pass(LiveState(a, st.history + [a]), MarkAnalyzed(segs))
  }

  /** `resetAnalysis()`. */
  function Reset(now: int): (st: LiveState)
    ensures Valid(st) && st.history == [] && st.analysis.lastUpdated == now
  {
    InitialState(now)
  }

  /** The hook starts in a state satisfying its invariant. */
  lemma InitialStateValid(now: int)
    ensures Valid(InitialState(now))
    ensures InitialState(now) == Reset(now)
  {
  }

  /** Every `analyzeSegments` call preserves the invariant, given a scorer
      that yields well-formed analyses. */
  lemma AnalyzeSegmentsPreservesValid(st: LiveState, segs: seq<Segment>, role: string,
                                      score: Scorer)
    requires Valid(st)
    requires score(CombinedText(segs), st.analysis).Some? ==>
               WellFormedAnalysis(score(CombinedText(segs), st.analysis).value)
    ensures Valid(AnalyzeSegments(st, segs, role, score).state)
  {
    var p := AnalyzeSegments(st, segs, role, score);
    if p.state != st {
      AppendWellFormed(st.history, p.state.analysis);
    }
  }

  lemma AppendWellFormed(history: seq<LiveAnalysis>, a: LiveAnalysis)
    requires forall i :: 0 <= i < |history| ==> WellFormedAnalysis(history[i])
    requires WellFormedAnalysis(a)
    ensures forall i :: 0 <= i < |history + [a]| ==> WellFormedAnalysis((history + [a])[i])
  {
  }

  /** `analyzeLiveResponse` always yields a well-formed analysis. */
  lemma LiveScorerWellFormed(role: string, jitter: Jitter, now: int, text: string,
                             previous: LiveAnalysis)
    ensures LiveScorer(role, jitter, now)(text, previous).Some?
    ensures WellFormedAnalysis(LiveScorer(role, jitter, now)(text, previous).value)
  {
    LiveScorerApplies(role, jitter, now, text, previous);
  }

  lemma LiveScorerApplies(role: string, jitter: Jitter, now: int, text: string,
                          previous: LiveAnalysis)
    ensures LiveScorer(role, jitter, now)(text, previous)
            == Some(AnalyzeLiveResponse(text, role, previous, jitter, now))
  {
  }

  /** The hook's invariant holds in every state it reaches: it holds initially
      and after every scoring pass. */
  lemma LivePassPreservesValid(st: LiveState, segs: seq<Segment>, role: string,
                               jitter: Jitter, now: int)
    requires Valid(st)
    ensures Valid(AnalyzeSegments(st, segs, role, LiveScorer(role, jitter, now)).state)
  {
    LiveScorerWellFormed(role, jitter, now, CombinedText(segs), st.analysis);
    AnalyzeSegmentsPreservesValid(st, segs, role, LiveScorer(role, jitter, now));
  }

  /** Once a pass has run, running it again over the segments it returns
      changes nothing, whatever the second scorer would compute. */
  lemma SecondPassChangesNothing(st: LiveState, segs: seq<Segment>, role: string,
                                 score: Scorer, score2: Scorer)
    ensures var p := AnalyzeSegments(st, segs, role, score);
            p.state != st ==> AnalyzeSegments(p.state, p.segments, role, score2) == p
  {
    var p := AnalyzeSegments(st, segs, role, score);
    if p.state != st {
      NoneUnanalyzed(p.segments);
    }
  }

  lemma NoneUnanalyzed(segs: seq<Segment>)
    requires AllAnalyzed(segs)
    ensures |Unanalyzed(segs)| == 0
  {
    FilterNonePass(segs, (s: Segment) => !s.analyzed);
  }

  /** With unanalysed segments present, the scorer runs exactly when some
      unanalysed candidate segment has non-blank text. */
  lemma ScoresIffCandidateSpoke(segs: seq<Segment>, role: string)
    requires |segs| > 0 && role != "" && |Unanalyzed(segs)| > 0
    ensures Scores(segs, role) <==>
              exists i :: 0 <= i < |PendingCandidateTexts(segs)|
                          && !Blank(PendingCandidateTexts(segs)[i])
  {
    TrimProperties(CombinedText(segs));
    JoinBlank(PendingCandidateTexts(segs));
  }

  /** A segment's text reaches the scorer only when it is an unanalysed
      candidate segment. */
  lemma PendingTextsComeFromCandidates(segs: seq<Segment>, t: string)
    ensures t in PendingCandidateTexts(segs) ==>
              exists i :: 0 <= i < |segs| && !segs[i].analyzed
                          && segs[i].speaker == Candidate && segs[i].text == t
  {
    var cands := Filter(Unanalyzed(segs), (s: Segment) => s.speaker == Candidate);
    if t in PendingCandidateTexts(segs) {
      var k :| 0 <= k < |cands| && cands[k].text == t;
      var s := cands[k];
      FilterMembers(Unanalyzed(segs), (s: Segment) => s.speaker == Candidate, s);
      FilterMembers(segs, (s: Segment) => !s.analyzed, s);
      var i :| 0 <= i < |segs| && segs[i] == s;
    }
  }

  /** Two transcripts that differ only in what the interviewer said produce
      the same pass: interviewer text never influences the scores. */
  lemma InterviewerTextIgnored(st: LiveState, a: seq<Segment>, b: seq<Segment>, role: string,
                               score: Scorer)
    requires |a| == |b|
    requires forall i :: 0 <= i < |a| ==>
               a[i].speaker == b[i].speaker && a[i].analyzed == b[i].analyzed
               && (a[i].speaker == Candidate ==> a[i].text == b[i].text)
    ensures AnalyzeSegments(st, a, role, score).state == AnalyzeSegments(st, b, role, score).state
  {
    FilterTwiceMapCongruent(a, b, (s: Segment) => !s.analyzed,
                            (s: Segment) => s.speaker == Candidate, (s: Segment) => s.text);
    assert CombinedText(a) == CombinedText(b);
    UnanalyzedCount(a, b);
  }

  lemma {:induction false} UnanalyzedCount(a: seq<Segment>, b: seq<Segment>)
    requires |a| == |b|
    requires forall i :: 0 <= i < |a| ==> a[i].analyzed == b[i].analyzed
    ensures |Unanalyzed(a)| == |Unanalyzed(b)|
    decreases |a|
  {
    if |a| > 0 {
      UnanalyzedCount(a[1..], b[1..]);
    }
  }

  /** With a job role inherited from `Object.prototype`, the hook as written
      never changes anything, whatever the transcript: the scorer throws and
      the error is swallowed. */
  lemma PrototypeRoleNeverScored(st: LiveState, segs: seq<Segment>, role: string,
                                 jitter: Jitter, now: int)
    requires IsObjectPrototypeKey(role)
    ensures AnalyzeSegments(st, segs, role, LiveScorerAsWritten(role, jitter, now)) == Pass(st, segs)
  {
  }

  /** With the job role "constructor", the hook as written leaves a candidate's
      answer unscored, while the corrected lookup scores it. */
  lemma ConstructorRoleNeverScored(st: LiveState, jitter: Jitter, now: int)
    ensures var segs := [Segment("1", 0, Candidate, "hello", 1.0, false)];
            && AnalyzeSegments(st, segs, "constructor", LiveScorerAsWritten("constructor", jitter, now))
               == Pass(st, segs)
            && |AnalyzeSegments(st, segs, "constructor", LiveScorer("constructor", jitter, now))
                .state.history| == |st.history| + 1
  {
    var segs := [Segment("1", 0, Candidate, "hello", 1.0, false)];
    ConstructorRoleBreaksLookup();
    PrototypeRoleNeverScored(st, segs, "constructor", jitter, now);
    assert Unanalyzed(segs) == segs;
    assert Filter(segs, (s: Segment) => s.speaker == Candidate) == segs;
    assert PendingCandidateTexts(segs) == ["hello"];
    assert CombinedText(segs) == "hello";
    assert !IsJsSpace('h');
    TrimProperties("hello");
  }
}
