/** The records of src/types/interview.ts. Dates are integer milliseconds since
    the epoch; optional fields are `Option`s. */
module Types {
  import opened Wrappers

  datatype Speaker = Interviewer | Candidate

  datatype InterviewType = Virtual | Live

  /** A candidate's final decision, `'hire' | 'reject' | 'pending'`. */
  datatype Decision = Hire | Reject | Pending

  /** One finalised utterance of the transcript. */
  datatype Segment = Segment(
    id: string,
    timestamp: int,
    speaker: Speaker,
    text: string,
    confidence: real,
    analyzed: bool)

  /** The rolling score state produced by each scoring pass. */
  datatype LiveAnalysis = LiveAnalysis(
    jobFitScore: int,
    cultureFitScore: int,
    overallScore: int,
    confidence: int,
    keyInsights: seq<string>,
    redFlags: seq<string>,
    strengths: seq<string>,
    lastUpdated: int)

  /** A `CandidateRecord`'s `status` field. */
  datatype RecordStatus = RecordScheduled | RecordCompleted

  datatype CandidateRecord = CandidateRecord(
    id: string,
    name: string,
    email: string,
    jobRole: string,
    interviewDate: int,
    interviewType: InterviewType,
    analysis: LiveAnalysis,
    transcript: seq<Segment>,
    finalDecision: Option<Decision>,
    notes: Option<string>,
    interviewer: string,
    meetingLink: Option<string>,
    scheduledDate: Option<int>,
    status: RecordStatus)

  /** A `ScheduledInterview`'s `status` field. */
  datatype InterviewStatus = Scheduled | Completed | Cancelled

  datatype ScheduledInterview = ScheduledInterview(
    id: string,
    candidateName: string,
    candidateEmail: string,
    jobRole: string,
    interviewType: InterviewType,
    scheduledDate: int,
    interviewerName: string,
    meetingLink: Option<string>,
    status: InterviewStatus,
    createdAt: int)

  /** The arguments of the application's `onStartInterview` callback. */
  datatype StartRequest = StartRequest(
    candidateName: string,
    candidateEmail: string,
    jobRole: string,
    interviewType: InterviewType,
    scheduledId: Option<string>)

  /** JavaScript truthiness of an optional string: present and non-empty. */
  predicate Truthy(s: Option<string>) {
    s.Some? && s.value != ""
  }

  /** An analysis as `analyzeLiveResponse` produces it: job-fit and
      culture-fit scores in [0, 100], the overall score their rounded mean,
      confidence in [20, 100], and at most 4 insights, 3 red flags and 4
      strengths. */
  predicate WellFormedAnalysis(a: LiveAnalysis) {
    0 <= a.jobFitScore <= 100 && 0 <= a.cultureFitScore <= 100
    && a.overallScore == (a.jobFitScore + a.cultureFitScore + 1) / 2
    && 20 <= a.confidence <= 100
    && |a.keyInsights| <= 4 && |a.redFlags| <= 3 && |a.strengths| <= 4
  }
}
