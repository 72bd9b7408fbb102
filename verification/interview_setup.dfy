/** The guards and record shapes of src/components/InterviewSetup.tsx. The
    clock (`Date.now()`, `new Date()`), the parsing of the date and time
    inputs, the random room id and the locale-formatted date are parameters;
    `alert` and the clipboard are left out. */
module InterviewSetup {
  import opened Wrappers
  import opened Text
  import opened Types
  import opened Records
  import opened InterviewStorage
  import opened EmailService

  /** The form's input values, as typed. */
  datatype SetupForm = SetupForm(
    candidateName: string,
    candidateEmail: string,
    jobRole: string,
    interviewType: InterviewType,
    interviewDate: string,
    interviewTime: string,
    interviewerName: string)

  /** A value with something other than whitespace at both ends. */
  predicate Trimmed(s: string) {
    |s| > 0 && !IsJsSpace(s[0]) && !IsJsSpace(s[|s| - 1])
  }

  /** The guard of `handleSubmit` and of the start button's click handler:
      name, email and role are not blank. */
  predicate CanStart(f: SetupForm) {
    Trim(f.candidateName) != "" && Trim(f.candidateEmail) != "" && Trim(f.jobRole) != ""
  }

  /** `handleSubmit` and the start button: the trimmed name, email and role
      and the interview type, with no scheduled id, when none of the three is
      blank. */
  function StartFromForm(f: SetupForm): (r: Option<StartRequest>)
    ensures r.Some? <==> !Blank(f.candidateName) && !Blank(f.candidateEmail) && !Blank(f.jobRole)
    ensures r.Some? ==> r.value.scheduledId.None? && r.value.interviewType == f.interviewType
                        && Trimmed(r.value.candidateName) && Trimmed(r.value.candidateEmail)
                        && Trimmed(r.value.jobRole)
    ensures r.Some? ==> r.value.candidateName == Trim(f.candidateName)
                        && r.value.candidateEmail == Trim(f.candidateEmail)
                        && r.value.jobRole == Trim(f.jobRole)
  {
    TrimProperties(f.candidateName);
    TrimProperties(f.candidateEmail);
    TrimProperties(f.jobRole);
    if CanStart(f) then
      Some(StartRequest(Trim(f.candidateName), Trim(f.candidateEmail), Trim(f.jobRole),
                        f.interviewType, None))
    else None
  }

  /** The start button's `disabled` attribute. */
  predicate StartDisabled(f: SetupForm) {
    Trim(f.candidateName) == "" || Trim(f.candidateEmail) == "" || Trim(f.jobRole) == ""
  }

  /** The start button is disabled exactly when starting would do nothing. */
  lemma StartDisabledIffRefused(f: SetupForm)
    ensures StartDisabled(f) <==> StartFromForm(f).None?
  {
  }

  /** The guard shared by scheduling, sending and copying an invitation: all
      six fields are non-empty strings. Whitespace counts as content here. */
  predicate AllFilled(f: SetupForm) {
    f.candidateName != "" && f.candidateEmail != "" && f.jobRole != ""
    && f.interviewDate != "" && f.interviewTime != "" && f.interviewerName != ""
  }

  /** The invitation built for scheduling, sending and copying. */
  function InvitationFor(f: SetupForm, link: string, scheduledDate: int): EmailInvitation {
    EmailInvitation(f.candidateEmail, f.candidateName, f.jobRole, scheduledDate, link,
                    f.interviewerName)
  }

  /** The record `handleScheduleInterview` saves: `interview-<now>` as id, the
      form values untrimmed, status scheduled, and the meeting link only for
      a virtual interview. */
  function ScheduledRecord(f: SetupForm, now: nat, link: string, scheduledDate: int)
    : (r: ScheduledInterview)
    ensures r.status == Scheduled
    ensures r.meetingLink.Some? <==> f.interviewType == Virtual
    ensures r.meetingLink.Some? ==> r.meetingLink.value == link
    ensures IsPrefix("interview-", r.id) && r.createdAt == now
    ensures r.candidateName == f.candidateName && r.candidateEmail == f.candidateEmail
            && r.jobRole == f.jobRole && r.interviewerName == f.interviewerName
            && r.interviewType == f.interviewType && r.scheduledDate == scheduledDate
  {
    ScheduledInterview("interview-" + NatToString(now), f.candidateName, f.candidateEmail,
                       f.jobRole, f.interviewType, scheduledDate, f.interviewerName,
                       if f.interviewType == Virtual then Some(link) else None, Scheduled, now)
  }

  datatype ScheduleOutcome =
    | Refused
    | Saved(store: InterviewStore, record: ScheduledInterview, invitation: Option<EmailInvitation>)

  /** `handleScheduleInterview()`: refuses with nothing saved unless all six
      fields are filled; otherwise saves the record and, for a virtual
      interview only, sends the invitation carrying the same meeting link. */
  function ScheduleInterview(f: SetupForm, s: InterviewStore, now: nat, randomDigits: string,
                             scheduledDate: int): (r: ScheduleOutcome)
    ensures r.Refused? <==> !AllFilled(f)
    ensures r.Saved? ==>
              r.record.status == Scheduled
              && GetScheduledInterviewById(r.store, r.record.id) == Some(r.record)
              && (r.invitation.Some? <==> f.interviewType == Virtual)
              && (r.invitation.Some? ==> r.record.meetingLink == Some(r.invitation.value.meetingLink))
    ensures r.Saved? ==>
              && r.record == ScheduledRecord(f, now, GenerateMeetingLink(randomDigits), scheduledDate)
              && Load(r.store)[|Load(r.store)| - 1] == r.record
              && Others(Load(r.store), InterviewId, r.record.id)
                 == Others(Load(s), InterviewId, r.record.id)
              && (r.invitation.Some? ==>
                    r.invitation.value == InvitationFor(f, r.invitation.value.meetingLink, scheduledDate))
  {
    if !AllFilled(f) then Refused
    else
      var link := GenerateMeetingLink(randomDigits);
      var record := ScheduledRecord(f, now, link, scheduledDate);
      Saved(SaveScheduledInterview(s, record), record,
            if f.interviewType == Virtual then Some(InvitationFor(f, link, scheduledDate)) else None)
  }

  /** `handleSendInvitation()`: the invitation sent, when all six fields are
      filled. */
  function SendInvitation(f: SetupForm, randomDigits: string, scheduledDate: int)
    : (r: Option<EmailInvitation>)
    ensures r.Some? <==> AllFilled(f)
    ensures r.Some? ==> IsPrefix(MeetingLinkPrefix, r.value.meetingLink)
                        && r.value.candidateName == f.candidateName
                        && r.value.candidateEmail == f.candidateEmail && r.value.jobRole == f.jobRole
                        && r.value.interviewerName == f.interviewerName
                        && r.value.interviewDate == scheduledDate
                        && r.value.meetingLink == GenerateMeetingLink(randomDigits)
  {
    if AllFilled(f) then Some(InvitationFor(f, GenerateMeetingLink(randomDigits), scheduledDate))
    else None
  }

  /** `handleCopyInvitation()`: when all six fields are filled, the text put
      on the clipboard, which greets the candidate of the form, names its
      interviewer and carries a fresh meeting link. */
  function CopyInvitation(f: SetupForm, randomDigits: string, scheduledDate: int,
                          formattedDate: string): (r: Option<string>)
    ensures r.None? <==> !AllFilled(f)
    ensures r.Some? ==>
              HasInvitationContents(r.value, InvitationFor(f, GenerateMeetingLink(randomDigits),
                                                           scheduledDate))
  {
    if AllFilled(f) then
      var inv := InvitationFor(f, GenerateMeetingLink(randomDigits), scheduledDate);
      Some(CopyInvitationText(inv, formattedDate))
    else None
  }

  /** The copied text is the invitation text of `generateEmailTemplate`. */
  lemma CopiedTextIsTemplate(f: SetupForm, randomDigits: string, scheduledDate: int,
                             formattedDate: string)
    requires AllFilled(f)
    ensures CopyInvitation(f, randomDigits, scheduledDate, formattedDate)
            == Some(GenerateEmailTemplate(InvitationFor(f, GenerateMeetingLink(randomDigits),
                                                        scheduledDate), formattedDate))
  {
  }

  /** Scheduling and sending refuse on exactly the same forms. */
  lemma ScheduleAndSendSameGuard(f: SetupForm, s: InterviewStore, now: nat, randomDigits: string,
                                 scheduledDate: int)
    ensures ScheduleInterview(f, s, now, randomDigits, scheduledDate).Refused?
            <==> SendInvitation(f, randomDigits, scheduledDate).None?
  {
  }

  /** Sending and copying refuse on exactly the same forms. */
  lemma SendAndCopySameGuard(f: SetupForm, randomDigits: string, scheduledDate: int,
                             formattedDate: string)
    ensures SendInvitation(f, randomDigits, scheduledDate).None?
            <==> CopyInvitation(f, randomDigits, scheduledDate, formattedDate).None?
  {
  }

  /** The suggested job roles. */
  function CommonRoles(): seq<string> {
    ["Software Engineer", "Product Manager", "UX Designer", "Data Scientist", "Sales Manager",
     "Marketing Director", "DevOps Engineer", "Business Analyst", "Customer Success Manager",
     "HR Manager"]
  }

  /** The role buttons under the job-role input: the first five suggestions.
      Clicking one sets the job role to exactly its name. */
  function ShortcutRoles(): (r: seq<string>)
    ensures |r| == 5 && forall i :: 0 <= i < 5 ==> r[i] == CommonRoles()[i]
  {
    CommonRoles()[..5]
  }

  /** The scheduling guard does not trim: a form of single spaces is
      scheduled, although the same form cannot start an interview. */
  lemma SpacesPassScheduleGuard(s: InterviewStore, now: nat, randomDigits: string,
                                scheduledDate: int)
    ensures var f := SetupForm(" ", " ", " ", Live, " ", " ", " ");
            ScheduleInterview(f, s, now, randomDigits, scheduledDate).Saved?
            && StartFromForm(f).None?
  {
    var f := SetupForm(" ", " ", " ", Live, " ", " ", " ");
    assert Blank(f.candidateName);
  }
}
