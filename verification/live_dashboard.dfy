/** The bookkeeping of src/components/LiveInterviewDashboard.tsx: the elapsed
    time shown as mm:ss, the one-second timer, completing the interview and
    saving the candidate record. The clock (`Date.now()`) is a parameter;
    media, speech recognition and the session export are left out. */
module LiveDashboard {
  import opened Wrappers
  import opened Text
  import opened Types
  import opened Records
  import opened CandidateStorage
  import opened InterviewStorage
  import opened LivePipeline

  /** `n % d` as JavaScript computes it: the remainder takes the sign of `n`. */
  function JsRem(n: int, d: int): (r: int)
    requires d > 0
    ensures n >= 0 ==> 0 <= r < d
    ensures n < 0 ==> -d < r <= 0
    ensures n >= 0 ==> r == n % d
  {
    if n >= 0 then n % d else -((-n) % d)
  }

  /** `i.toString().padStart(2, '0')`. A negative number already has at
      least two characters, so only a one-digit natural number is padded. */
  function FormatField(i: int): (r: string)
    ensures |r| >= 2
    ensures i >= 0 ==> r == PadTwo(i)
    ensures i < 0 ==> r[0] == '-'
  {
    if i >= 0 then PadTwo(i) else IntToString(i)
  }

  /** A rendered duration: digits, a colon, and exactly two more digits. */
  predicate DurationShape(t: string) {
    |t| >= 5 && t[|t| - 3] == ':'
    && (forall k :: 0 <= k < |t| - 3 ==> IsDigit(t[k]))
    && IsDigit(t[|t| - 2]) && IsDigit(t[|t| - 1])
  }

  /** The number of seconds a rendered duration stands for. */
  function ReadDuration(t: string): nat
    requires DurationShape(t)
  {
    ParseNat(t[..|t| - 3]) * 60 + ParseNat(t[|t| - 2..])
  }

  /** `formatDuration(seconds)`: whole minutes (rounded down), a colon and
      the seconds left over (with the sign of `seconds`), each padded to two
      characters. The minutes field has two digits below 100 minutes and no
      leading zero from then on. */
  function FormatDuration(seconds: int): (r: string)
    ensures |r| >= 5
    ensures seconds >= 0 ==> DurationShape(r) && r[|r| - 2] <= '5'
    ensures seconds >= 0 ==> (|r| == 5 <==> seconds < 6000) && (|r| == 5 || r[0] != '0')
    ensures seconds < 0 ==> r[0] == '-'
  {
    FormatDurationFacts(seconds);
    FormatField(seconds / 60) + ":" + FormatField(JsRem(seconds, 60))
  }

  lemma FormatDurationFacts(seconds: int)
    ensures var r := FormatField(seconds / 60) + ":" + FormatField(JsRem(seconds, 60));
            seconds >= 0 ==> DurationShape(r) && r[|r| - 2] <= '5'
                             && (|r| == 5 <==> seconds < 6000) && (|r| == 5 || r[0] != '0')
  {
    if seconds >= 0 {
      var secs := seconds % 60;
      var m, s := PadTwo(seconds / 60), PadTwo(secs);
      var r := m + ":" + s;
      assert r[|r| - 2..] == s && r[..|r| - 3] == m;
      if secs >= 10 {
        assert NatToString(secs) == [DigitChar(secs / 10), DigitChar(secs % 10)];
      }
    }
  }

  /** Reading a rendered duration back gives the duration, and its seconds
      field is below 60. */
  lemma ReadFormattedDuration(seconds: nat)
    ensures ReadDuration(FormatDuration(seconds)) == seconds
    ensures ParseNat(FormatDuration(seconds)[|FormatDuration(seconds)| - 2..]) < 60
  {
    var m, s := PadTwo(seconds / 60), PadTwo(seconds % 60);
    assert FormatDuration(seconds) == m + ":" + s;
    ReadJoinedFields(m, s);
    ParsePadTwo(seconds / 60);
    ParsePadTwo(seconds % 60);
  }

  /** Minutes and seconds fields joined by a colon read back as the two
      fields. */
  lemma ReadJoinedFields(m: string, s: string)
    requires |m| >= 2 && |s| == 2
    requires forall k :: 0 <= k < |m| ==> IsDigit(m[k])
    requires forall k :: 0 <= k < |s| ==> IsDigit(s[k])
    ensures var r := m + ":" + s;
            && DurationShape(r) && r[|r| - 2..] == s
            && ReadDuration(r) == ParseNat(m) * 60 + ParseNat(s)
  {
    var r := m + ":" + s;
    assert |r| == |m| + 3 && r[|m|] == ':';
    forall k | 0 <= k < |m|
      ensures r[k] == m[k]
    {
    }
    assert r[..|m|] == m;
    assert r[|m| + 1] == s[0] && r[|m| + 2] == s[1];
    assert r[|m| + 1..] == s;
  }

  /** The dashboard's own state. */
  datatype Dashboard = Dashboard(
    startTime: int,
    duration: int,
    isPaused: bool,
    completed: bool,
    showDecisionModal: bool)

  /** The state when the dashboard mounts at `startTime`. */
  function InitialDashboard(startTime: int): Dashboard {
    Dashboard(startTime, 0, false, false, false)
  }

  /** One tick of the one-second interval at time `now`: unless paused or
      completed, the duration becomes the whole seconds since the start. */
  function Tick(d: Dashboard, now: int): (r: Dashboard)
    ensures d.isPaused || d.completed ==> r == d
    ensures !d.isPaused && !d.completed ==>
              r.duration * 1000 <= now - d.startTime < r.duration * 1000 + 1000
              && r == d.(duration := r.duration)
  {
    if !d.isPaused && !d.completed then d.(duration := (now - d.startTime) / 1000) else d
  }

  /** The ticks at the successive times `nows`. */
  function Ticks(d: Dashboard, nows: seq<int>): Dashboard
    decreases |nows|
  {
    if |nows| == 0 then d else Ticks(Tick(d, nows[0]), nows[1..])
  }

  /** While paused, or once completed, no number of ticks changes anything. */
  lemma {:induction false} FrozenTicks(d: Dashboard, nows: seq<int>)
    requires d.isPaused || d.completed
    ensures Ticks(d, nows) == d
    decreases |nows|
  {
    if |nows| > 0 {
      FrozenTicks(Tick(d, nows[0]), nows[1..]);
    }
  }

  /** The pause button. */
  function TogglePause(d: Dashboard): (r: Dashboard)
    ensures r.isPaused != d.isPaused && r.(isPaused := d.isPaused) == d
  {
    d.(isPaused := !d.isPaused)
  }

  datatype Completion = Completion(dashboard: Dashboard, interviews: InterviewStore)

  /** `handleCompleteInterview()`: the interview is completed and the decision
      modal opens; the scheduled interview it came from, if any, is marked
      completed and nothing else in the interview store changes. */
  function CompleteInterview(d: Dashboard, s: InterviewStore, scheduledId: Option<string>)
    : (r: Completion)
    ensures r.dashboard == d.(completed := true, showDecisionModal := true)
    ensures !Truthy(scheduledId) ==> r.interviews == s
    ensures Truthy(scheduledId) ==>
              r.interviews == UpdateInterviewStatus(s, scheduledId.value, Completed)
    ensures Truthy(scheduledId) && GetScheduledInterviewById(s, scheduledId.value).Some? ==>
              GetScheduledInterviewById(r.interviews, scheduledId.value)
              == Some(GetScheduledInterviewById(s, scheduledId.value).value.(status := Completed))
  {
    if Truthy(scheduledId) then
      var id := scheduledId.value;
      assert GetScheduledInterviewById(s, id).Some? ==>
               GetScheduledInterviewById(UpdateInterviewStatus(s, id, Completed), id)
               == Some(GetScheduledInterviewById(s, id).value.(status := Completed)) by {
        if GetScheduledInterviewById(s, id).Some? {
          UpdatedStatusFound(s, id, Completed);
        }
      }
      Completion(d.(completed := true, showDecisionModal := true),
                 UpdateInterviewStatus(s, scheduledId.value, Completed))
    else Completion(d.(completed := true, showDecisionModal := true), s)
  }

  /** Completing an interview stops the clock for good. */
  lemma CompletedClockStops(d: Dashboard, s: InterviewStore, scheduledId: Option<string>,
                            nows: seq<int>)
    ensures var c := CompleteInterview(d, s, scheduledId).dashboard;
            Ticks(c, nows).duration == d.duration
  {
    FrozenTicks(CompleteInterview(d, s, scheduledId).dashboard, nows);
  }

  /** The id `candidate-<now>` of a saved record. */
  function CandidateId(now: nat): string {
    "candidate-" + NatToString(now)
  }

  /** The record `handleSaveCandidate` builds for the interview described by
      `session`, which started at `startTime`. */
  function CandidateRecordFor(session: StartRequest, startTime: int, now: nat,
                              analysis: LiveAnalysis, transcript: seq<Segment>,
                              decision: Decision, notes: Option<string>): CandidateRecord {
    CandidateRecord(CandidateId(now), session.candidateName, session.candidateEmail,
                    session.jobRole, startTime, session.interviewType, analysis, transcript,
                    Some(decision), notes, "Current User", None, None, RecordCompleted)
  }

  datatype Saving = Saving(dashboard: Dashboard, candidates: CandidateStore)

  /** `handleSaveCandidate(decision, notes)`: the record is saved and the modal
      closes (the caller then ends the interview); every other stored
      candidate is kept in order and no other dashboard field changes. Looking the new id up
      afterwards finds a completed record with the chosen decision and notes,
      the current analysis, the whole transcript and the session's candidate. */
  function SaveCandidate(d: Dashboard, cs: CandidateStore, session: StartRequest, now: nat,
                         analysis: LiveAnalysis, transcript: seq<Segment>,
                         decision: Decision, notes: Option<string>): (r: Saving)
    ensures !r.dashboard.showDecisionModal
    ensures var c := GetCandidateById(r.candidates, CandidateId(now));
            && c.Some? && c.value.status == RecordCompleted
            && c.value.finalDecision == Some(decision) && c.value.notes == notes
            && c.value.analysis == analysis && c.value.transcript == transcript
            && c.value.name == session.candidateName && c.value.email == session.candidateEmail
            && c.value.jobRole == session.jobRole && c.value.interviewDate == d.startTime
            && c.value.interviewType == session.interviewType
    ensures r.dashboard == d.(showDecisionModal := false)
    ensures Others(Load(r.candidates), RecordId, CandidateId(now))
            == Others(Load(cs), RecordId, CandidateId(now))
  {
    var rec := CandidateRecordFor(session, d.startTime, now, analysis, transcript, decision, notes);
    SavedRecordFound(cs, rec);
    Saving(d.(showDecisionModal := false), SaveCandidateRecord(cs, rec))
  }

  /** The effect that re-scores whenever the transcript changes: it runs
      `analyzeSegments` only on a non-empty transcript. */
  function OnTranscriptChange(st: LiveState, transcript: seq<Segment>, role: string,
                              score: Scorer): (p: Pass)
    ensures |transcript| == 0 ==> p == Pass(st, transcript)
  {
    if |transcript| > 0 then AnalyzeSegments(st, transcript, role, score)
    else Pass(st, transcript)
  }

  /** The effect's guard changes nothing: `analyzeSegments` itself ignores an
      empty transcript. */
  lemma TranscriptGuardRedundant(st: LiveState, transcript: seq<Segment>, role: string,
                                 score: Scorer)
    ensures OnTranscriptChange(st, transcript, role, score)
            == AnalyzeSegments(st, transcript, role, score)
  {
  }
}
