/** The list of src/components/ScheduledInterviews.tsx: the status label and
    colour of each interview, the three list filters and the start and delete
    actions. The current time and the local day boundaries are parameters. */
module ScheduledInterviews {
  import opened Wrappers
  import opened Seqs
  import opened Types
  import opened Records
  import opened InterviewStorage

  const HourMs: int := 1000 * 60 * 60

  /** `getStatusText(interview)`. */
  datatype StatusLabel = Overdue | StartingSoon | Today | Later

  /** `getStatusColor(interview)`. */
  datatype StatusColor = RedStatus | OrangeStatus | BlueStatus | GreenStatus

  /** The hours from `now` until the interview, as a real number. */
  function HoursUntil(i: ScheduledInterview, now: int): real {
    (i.scheduledDate - now) as real / HourMs as real
  }

  /** 'Overdue' once the time has passed, 'Starting Soon' within the hour,
      'Today' within a day, and 'Scheduled' after that. */
  function StatusText(i: ScheduledInterview, now: int): (l: StatusLabel)
    ensures l == Overdue <==> i.scheduledDate < now
    ensures l == StartingSoon <==> now <= i.scheduledDate < now + 3_600_000
    ensures l == Today <==> now + 3_600_000 <= i.scheduledDate < now + 86_400_000
    ensures l == Later <==> now + 86_400_000 <= i.scheduledDate
  {
    var h := HoursUntil(i, now);
    if h < 0.0 then Overdue else if h < 1.0 then StartingSoon
    else if h < 24.0 then Today else Later
  }

  /** The colour with the same thresholds: red, orange, blue, green. */
  function StatusColorOf(i: ScheduledInterview, now: int): (c: StatusColor)
    ensures c == RedStatus <==> i.scheduledDate < now
    ensures c == GreenStatus <==> now + 86_400_000 <= i.scheduledDate
  {
    var h := HoursUntil(i, now);
    if h < 0.0 then RedStatus else if h < 1.0 then OrangeStatus
    else if h < 24.0 then BlueStatus else GreenStatus
  }

  /** The colour each label is shown in. */
  function LabelColor(l: StatusLabel): StatusColor {
    match l
    case Overdue => RedStatus
    case StartingSoon => OrangeStatus
    case Today => BlueStatus
    case Later => GreenStatus
  }

  /** The label and the colour always agree. */
  lemma StatusColorMatchesLabel(i: ScheduledInterview, now: int)
    ensures StatusColorOf(i, now) == LabelColor(StatusText(i, now))
  {
  }

  /** The list filter buttons. */
  datatype ListFilter = AllScheduled | TodayOnly | UpcomingOnly

  function IsScheduled(): ScheduledInterview -> bool {
    (i: ScheduledInterview) => i.status == Scheduled
  }

  /** `getFilteredInterviews()`: 'today' and 'upcoming' ask the store afresh;
      'all' shows the scheduled ones of the list `loaded` at mount. */
  function FilteredInterviews(loaded: seq<ScheduledInterview>, s: InterviewStore,
                              f: ListFilter, now: int, dayStart: int, nextDayStart: int)
    : (r: seq<ScheduledInterview>)
    ensures f == TodayOnly ==> r == TodaysInterviews(s, dayStart, nextDayStart)
    ensures f == UpcomingOnly ==> r == UpcomingInterviews(s, now)
    ensures f == AllScheduled ==>
              Selects(r, loaded, IsScheduled()) && forall x :: x in r <==> x in loaded && x.status == Scheduled
    ensures forall k :: 0 <= k < |r| ==> r[k].status == Scheduled
  {
    match f
    case TodayOnly => TodaysInterviews(s, dayStart, nextDayStart)
    case UpcomingOnly => UpcomingInterviews(s, now)
    case AllScheduled =>
      SelectsIsFilter(Filter(loaded, IsScheduled()), loaded, IsScheduled());
      forall x ensures x in Filter(loaded, IsScheduled()) <==> x in loaded && x.status == Scheduled {
        FilterMembers(loaded, IsScheduled(), x);
      }
      Filter(loaded, IsScheduled())
  }

  /** `handleStartInterview(interview)`: the interview's candidate, role and
      type, with its own id as the scheduled id. */
  function StartFromScheduled(i: ScheduledInterview): (r: StartRequest)
    ensures r.scheduledId == Some(i.id)
    ensures r.candidateName == i.candidateName && r.candidateEmail == i.candidateEmail
            && r.jobRole == i.jobRole && r.interviewType == i.interviewType
  {
    StartRequest(i.candidateName, i.candidateEmail, i.jobRole, i.interviewType, Some(i.id))
  }

  /** `handleDeleteInterview(id)` followed by the reload: when confirmed, the
      interviews with that id are gone and the rest are listed in order. */
  function HandleDeleteInterview(s: InterviewStore, id: string, confirmed: bool)
    : (r: (InterviewStore, seq<ScheduledInterview>))
    ensures r.1 == Load(r.0)
    ensures !confirmed ==> r.0 == s
    ensures confirmed ==> Selects(r.1, Load(s), KeyIsNot(InterviewId, id))
                          && forall x :: x in r.1 <==> x in Load(s) && x.id != id
  {
    var after := if confirmed then DeleteScheduledInterview(s, id) else s;
    (after, Load(after))
  }
}
