/** src/utils/emailService.ts: meeting links and the invitation text. The
    random room id and the locale-formatted date are parameters; opening the
    Gmail compose window is left out. */
module EmailService {
  import opened Text

  datatype EmailInvitation = EmailInvitation(
    candidateEmail: string,
    candidateName: string,
    jobRole: string,
    interviewDate: int,
    meetingLink: string,
    interviewerName: string)

  const MeetingLinkPrefix: string := "https://aihr-fawn.vercel.app/interview/join/"

  predicate IsBase36Digit(c: char) {
    '0' <= c <= '9' || 'a' <= c <= 'z'
  }

  /** What `Math.random().toString(36)` prints for a number in [0, 1) whose
      base-36 fraction digits are `digits`: "0" for zero, otherwise "0."
      followed by the digits. */
  function RandomBase36(digits: string): string {
    if digits == "" then "0" else "0." + digits
  }

  /** `generateMeetingLink()`: the fixed prefix followed by
      `substring(2, 15)` of the random number's base-36 text, which is its
      first 13 fraction digits, or all of them when there are fewer. */
  function GenerateMeetingLink(digits: string): (r: string)
    ensures IsPrefix(MeetingLinkPrefix, r)
    ensures var room := r[|MeetingLinkPrefix|..];
            IsPrefix(room, digits) && |room| == if |digits| < 13 then |digits| else 13
    ensures (forall k :: 0 <= k < |digits| ==> IsBase36Digit(digits[k])) ==>
              forall k :: |MeetingLinkPrefix| <= k < |r| ==> IsBase36Digit(r[k])
  {
    var room := Substring(RandomBase36(digits), 2, 15);
    assert digits != "" ==> RandomBase36(digits)[2..] == digits;
    MeetingLinkPrefix + room
  }

  /** The three long passages of the invitation text. */
  datatype Wording = Wording(opening: string, detailsHeading: string, closing: string)

  /** The passages as the application writes them. The long closing passage
      is written as short pieces joined together, which is the same text and
      keeps the proofs that compare it character by character small. */
  function AppWording(): Wording {
    Wording(
      "\n\nWe are pleased to invite you for a virtual interview for the ",
      " position.\n\nInterview Details:\n\U{1F4C5} Date & Time: ",
      "\n\nPlease click " + "the link above " + "at the " + "scheduled time "
      + "to join your " + "interview. " + "Make sure " + "you have:\n"
      + "\U{2713} A stable " + "internet " + "connection\n"
      + "\U{2713} Working " + "camera and " + "microphone\n"
      + "\U{2713} A quiet " + "environment\n"
      + "\U{2713} Chrome " + "or Firefox " + "browser " + "(recommended)\n\n"
      + "If you need " + "to reschedule " + "or have any " + "questions, " + "please reply "
      + "to this email." + "\n\n"
      + "We look " + "forward to " + "speaking " + "with you!\n\n"
      + "Best regards,\n")
  }

  /** The subject line. */
  function Subject(inv: EmailInvitation): string {
    "Subject: Interview Invitation - " + inv.jobRole + " Position"
  }

  /** The subject line and the greeting. */
  function Head(inv: EmailInvitation): string {
    Subject(inv) + "\n\n" + "Dear " + inv.candidateName + ","
  }

  /** The opening paragraph and the interview details, up to the link icon. */
  function Middle(w: Wording, inv: EmailInvitation, formattedDate: string): string {
    w.opening + inv.jobRole + w.detailsHeading + formattedDate
    + "\n\U{1F464} Interviewer: " + inv.interviewerName
    + "\n\U{1F4BC} Position: " + inv.jobRole + "\n\n\U{1F517} "
  }

  /** The link line, the closing paragraphs and the signature. */
  function Tail(w: Wording, inv: EmailInvitation): string {
    "Join Interview: " + inv.meetingLink + w.closing + "HR Team"
  }

  /** The invitation text between the leading newline and the trailing
      indentation that `trim()` removes, for any wording of the long
      passages. */
  function TemplateBody(w: Wording, inv: EmailInvitation, formattedDate: string): string {
    Head(inv) + Middle(w, inv, formattedDate) + Tail(w, inv)
  }

  /** The body starts with the 'S' of "Subject". */
  lemma BodyStartsWithS(w: Wording, inv: EmailInvitation, formattedDate: string)
    ensures var b := TemplateBody(w, inv, formattedDate); |b| > 0 && b[0] == 'S'
  {
    var rest := inv.jobRole + " Position" + "\n\n" + "Dear " + inv.candidateName + ","
                + Middle(w, inv, formattedDate) + Tail(w, inv);
    assert TemplateBody(w, inv, formattedDate) == "Subject: Interview Invitation - " + rest;
  }

  /** Neither end of the body is whitespace, so `trim()` removes exactly the
      padding around it. */
  lemma TrimKeepsBody(w: Wording, inv: EmailInvitation, formattedDate: string)
    ensures Trim("\n" + TemplateBody(w, inv, formattedDate) + "\n  ")
            == TemplateBody(w, inv, formattedDate)
  {
    BodyStartsWithS(w, inv, formattedDate);
    BodyEndsWithSignature(w, inv, formattedDate);
    TrimPadded("\n", TemplateBody(w, inv, formattedDate), "\n  ");
  }

  /** `generateEmailTemplate(invitation)`: the body, with the padding of the
      template literal trimmed away. */
  function GenerateEmailTemplate(inv: EmailInvitation, formattedDate: string): (r: string)
    ensures r == TemplateBody(AppWording(), inv, formattedDate)
  {
    TrimKeepsBody(AppWording(), inv, formattedDate);
    Trim("\n" + TemplateBody(AppWording(), inv, formattedDate) + "\n  ")
  }

  /** The invitation text is what the properties below are about; they hold
      for any wording of the long passages. */
  ghost predicate HasInvitationContents(t: string, inv: EmailInvitation) {
    && IsPrefix(Subject(inv), t)
    && Contains(t, "Dear " + inv.candidateName + ",")
    && Contains(t, inv.interviewerName)
    && Contains(t, "Join Interview: " + inv.meetingLink)
    && IsSuffix("HR Team", t) && !IsJsSpace(t[|t| - 1])
  }

  lemma BodyStartsWithSubject(w: Wording, inv: EmailInvitation, formattedDate: string)
    ensures IsPrefix(Subject(inv), TemplateBody(w, inv, formattedDate))
  {
    var subject := Subject(inv);
    var rest := "\n\n" + "Dear " + inv.candidateName + ","
                + Middle(w, inv, formattedDate) + Tail(w, inv);
    assert TemplateBody(w, inv, formattedDate) == subject + rest;
    assert (subject + rest)[..|subject|] == subject;
  }

  lemma BodyGreetsCandidate(w: Wording, inv: EmailInvitation, formattedDate: string)
    ensures Contains(TemplateBody(w, inv, formattedDate), "Dear " + inv.candidateName + ",")
  {
    var before := Subject(inv) + "\n\n";
    var after := Middle(w, inv, formattedDate) + Tail(w, inv);
    assert TemplateBody(w, inv, formattedDate) == before + ("Dear " + inv.candidateName + ",") + after;
    ContainsInfix(before, "Dear " + inv.candidateName + ",", after);
  }

  lemma BodyNamesInterviewer(w: Wording, inv: EmailInvitation, formattedDate: string)
    ensures Contains(TemplateBody(w, inv, formattedDate), inv.interviewerName)
  {
    var before := w.opening + inv.jobRole + w.detailsHeading + formattedDate
                  + "\n\U{1F464} Interviewer: ";
    var after := "\n\U{1F4BC} Position: " + inv.jobRole + "\n\n\U{1F517} ";
    assert Middle(w, inv, formattedDate) == before + inv.interviewerName + after;
    ContainsInfix(before, inv.interviewerName, after);
    ContainsWithin(Head(inv), Middle(w, inv, formattedDate), Tail(w, inv), inv.interviewerName);
  }

  lemma BodyGivesLink(w: Wording, inv: EmailInvitation, formattedDate: string)
    ensures Contains(TemplateBody(w, inv, formattedDate), "Join Interview: " + inv.meetingLink)
  {
    var join := "Join Interview: " + inv.meetingLink;
    var before := Head(inv) + Middle(w, inv, formattedDate);
    assert TemplateBody(w, inv, formattedDate) == before + join + (w.closing + "HR Team");
    ContainsInfix(before, join, w.closing + "HR Team");
  }

  lemma BodyEndsWithSignature(w: Wording, inv: EmailInvitation, formattedDate: string)
    ensures var t := TemplateBody(w, inv, formattedDate);
            IsSuffix("HR Team", t) && !IsJsSpace(t[|t| - 1])
  {
    var t := TemplateBody(w, inv, formattedDate);
    var before := Head(inv) + Middle(w, inv, formattedDate) + "Join Interview: "
                  + inv.meetingLink + w.closing;
    assert t == before + "HR Team";
    assert t[|t| - 1] == "HR Team"[6];
  }

  /** Whatever the wording, the body starts with its subject line, greets the
      candidate by name, names the interviewer, gives the meeting link after
      "Join Interview: " and ends with the signature, not with whitespace. */
  lemma BodyContents(w: Wording, inv: EmailInvitation, formattedDate: string)
    ensures HasInvitationContents(TemplateBody(w, inv, formattedDate), inv)
  {
    BodyStartsWithSubject(w, inv, formattedDate);
    BodyGreetsCandidate(w, inv, formattedDate);
    BodyNamesInterviewer(w, inv, formattedDate);
    BodyGivesLink(w, inv, formattedDate);
    BodyEndsWithSignature(w, inv, formattedDate);
  }

  /** So the invitation text has these contents. */
  lemma TemplateContents(inv: EmailInvitation, formattedDate: string)
    ensures HasInvitationContents(GenerateEmailTemplate(inv, formattedDate), inv)
  {
    BodyContents(AppWording(), inv, formattedDate);
  }

  /** `copyInvitationText(invitation)`: the invitation text itself, with the
      contents above. */
  function CopyInvitationText(inv: EmailInvitation, formattedDate: string): (r: string)
    ensures HasInvitationContents(r, inv)
  {
    TemplateContents(inv, formattedDate);
    GenerateEmailTemplate(inv, formattedDate)
  }
}
