/** src/utils/interviewStorage.ts: the scheduled interviews kept under the
    `hr_scheduled_interviews` storage key, and the two queries the schedule
    views use. `new Date()` and the local midnight computation become
    parameters. */
module InterviewStorage {
  import opened Wrappers
  import opened Seqs
  import opened Types
  import opened Records
  import opened Sorting

  type InterviewStore = Stored<ScheduledInterview>

  function InterviewId(i: ScheduledInterview): string {
    i.id
  }

  function ScheduledAt(i: ScheduledInterview): int {
    i.scheduledDate
  }

  /** `saveScheduledInterview(interview)`: afterwards the interview is the one
      record with its id and the last one, and every other record is kept in
      its original order. */
  function SaveScheduledInterview(s: InterviewStore, iv: ScheduledInterview): (r: InterviewStore)
    ensures r.Parsed? && |r.records| > 0 && r.records[|r.records| - 1] == iv
    ensures Matching(r.records, InterviewId, iv.id) == [iv]
    ensures Others(r.records, InterviewId, iv.id) == Others(Load(s), InterviewId, iv.id)
  {
    UpsertSingleMatch(Load(s), iv, InterviewId);
    UpsertKeepsOthers(Load(s), iv, InterviewId);
    Parsed(Upsert(Load(s), iv, InterviewId))
  }

  /** Saving never introduces a duplicate id. */
  lemma SaveKeepsIdsUnique(s: InterviewStore, iv: ScheduledInterview)
    requires UniqueKeys(Load(s), InterviewId)
    ensures UniqueKeys(Load(SaveScheduledInterview(s, iv)), InterviewId)
  {
    UpsertKeepsUnique(Load(s), iv, InterviewId);
  }

  function WithStatus(status: InterviewStatus): ScheduledInterview -> ScheduledInterview {
    (i: ScheduledInterview) => i.(status := status)
  }

  /** `updateInterviewStatus(id, status)`: only the status of the first record
      with the id changes; with no such record nothing is written. */
  function UpdateInterviewStatus(s: InterviewStore, id: string, status: InterviewStatus)
    : (r: InterviewStore)
    ensures FirstIndex(Load(s), InterviewId, id).None? ==> r == s
    ensures FirstIndex(Load(s), InterviewId, id).Some? ==>
              var i, before := FirstIndex(Load(s), InterviewId, id).value, Load(s);
              r.Parsed? && |r.records| == |before|
              && r.records[i].status == status
              && r.records[i].(status := before[i].status) == before[i]
              && forall j :: 0 <= j < |before| && j != i ==> r.records[j] == before[j]
  {
    match FirstIndex(Load(s), InterviewId, id)
    case None => s
    case Some(_) => Parsed(UpdateFirst(Load(s), InterviewId, id, WithStatus(status)))
  }

  /** `deleteScheduledInterview(id)`: exactly the records with other ids
      remain, in their original order. */
  function DeleteScheduledInterview(s: InterviewStore, id: string): (r: InterviewStore)
    ensures r.Parsed? && Selects(r.records, Load(s), KeyIsNot(InterviewId, id))
    ensures forall x :: x in r.records <==> x in Load(s) && x.id != id
  {
    SelectsIsFilter(Others(Load(s), InterviewId, id), Load(s), KeyIsNot(InterviewId, id));
    forall x ensures x in Others(Load(s), InterviewId, id) <==> x in Load(s) && x.id != id {
      OthersMembers(Load(s), InterviewId, id, x);
    }
    Parsed(Others(Load(s), InterviewId, id))
  }

  /** Deleting an id no record has keeps the records as they were. */
  lemma DeleteAbsentIdKeepsRecords(s: InterviewStore, id: string)
    requires GetScheduledInterviewById(s, id).None?
    ensures Load(DeleteScheduledInterview(s, id)) == Load(s)
  {
    RemoveAbsentKey(Load(s), InterviewId, id);
  }

  /** Deleting twice is deleting once. */
  lemma DeleteIdempotent(s: InterviewStore, id: string)
    ensures DeleteScheduledInterview(DeleteScheduledInterview(s, id), id)
            == DeleteScheduledInterview(s, id)
  {
    RemoveIdempotent(Load(s), InterviewId, id);
  }

  /** `getScheduledInterviewById(id)`: the first record with the id, or None
      when no record has it. */
  function GetScheduledInterviewById(s: InterviewStore, id: string): (r: Option<ScheduledInterview>)
    ensures r.None? <==> forall j :: 0 <= j < |Load(s)| ==> Load(s)[j].id != id
    ensures r.Some? ==> r.value.id == id && |Matching(Load(s), InterviewId, id)| > 0
                        && r.value == Matching(Load(s), InterviewId, id)[0]
  {
    FindFirstAtFirstIndex(Load(s), InterviewId, id);
    FindFirst(Load(s), InterviewId, id)
  }

  /** A status update is seen by the next lookup of the same id. */
  lemma UpdatedStatusFound(s: InterviewStore, id: string, status: InterviewStatus)
    requires GetScheduledInterviewById(s, id).Some?
    ensures GetScheduledInterviewById(UpdateInterviewStatus(s, id, status), id)
            == Some(GetScheduledInterviewById(s, id).value.(status := status))
  {
    var rs := Load(s);
    FindFirstAtFirstIndex(rs, InterviewId, id);
    var i := FirstIndex(rs, InterviewId, id).value;
    var u := Load(UpdateInterviewStatus(s, id, status));
    assert forall j :: 0 <= j < i ==> u[j] == rs[j];
    assert FirstIndex(u, InterviewId, id) == Some(i) by {
      FirstIndexUnique(u, InterviewId, id, i);
    }
    FindFirstAtFirstIndex(u, InterviewId, id);
  }

  /** The filter of `getUpcomingInterviews`. */
  function IsUpcoming(now: int): ScheduledInterview -> bool {
    (i: ScheduledInterview) => i.status == Scheduled && i.scheduledDate > now
  }

  /** `getUpcomingInterviews()` at time `now`: the scheduled interviews dated
      strictly after now, by ascending date. */
  function UpcomingInterviews(s: InterviewStore, now: int): (r: seq<ScheduledInterview>)
    ensures forall x :: x in r <==> x in Load(s) && x.status == Scheduled && x.scheduledDate > now
    ensures SortedBy(r, ScheduledAt)
    ensures multiset(r) == multiset(Filter(Load(s), IsUpcoming(now)))
  {
    var kept := Filter(Load(s), IsUpcoming(now));
    SortBySorted(kept, ScheduledAt);
    forall x ensures x in SortBy(kept, ScheduledAt) <==> x in kept {
      assert x in SortBy(kept, ScheduledAt) <==> x in multiset(SortBy(kept, ScheduledAt));
    }
    forall x ensures x in kept <==> x in Load(s) && x.status == Scheduled && x.scheduledDate > now {
      FilterMembers(Load(s), IsUpcoming(now), x);
    }
    SortBy(kept, ScheduledAt)
  }

  /** Interviews at the same time keep their stored order. */
  lemma UpcomingStable(s: InterviewStore, now: int, d: int)
    ensures Filter(UpcomingInterviews(s, now), KeyEquals(ScheduledAt, d))
            == Filter(Filter(Load(s), IsUpcoming(now)), KeyEquals(ScheduledAt, d))
  {
    SortByStable(Filter(Load(s), IsUpcoming(now)), ScheduledAt, d);
  }

  /** The filter of `getTodaysInterviews`, for the day from local midnight
      `dayStart` up to the next local midnight `nextDayStart`. */
  function IsToday(dayStart: int, nextDayStart: int): ScheduledInterview -> bool {
    (i: ScheduledInterview) =>
      i.status == Scheduled && dayStart <= i.scheduledDate && i.scheduledDate < nextDayStart
  }

  /** `getTodaysInterviews()`: the scheduled interviews dated within the day,
      in stored order. */
  function TodaysInterviews(s: InterviewStore, dayStart: int, nextDayStart: int)
    : (r: seq<ScheduledInterview>)
    ensures forall x :: x in r <==>
              x in Load(s) && x.status == Scheduled && dayStart <= x.scheduledDate < nextDayStart
    ensures Selects(r, Load(s), IsToday(dayStart, nextDayStart))
  {
    SelectsIsFilter(Filter(Load(s), IsToday(dayStart, nextDayStart)), Load(s),
                    IsToday(dayStart, nextDayStart));
    forall x ensures x in Filter(Load(s), IsToday(dayStart, nextDayStart)) <==>
                       x in Load(s) && x.status == Scheduled
                       && dayStart <= x.scheduledDate < nextDayStart {
      FilterMembers(Load(s), IsToday(dayStart, nextDayStart), x);
    }
    Filter(Load(s), IsToday(dayStart, nextDayStart))
  }

  /** Completed and cancelled interviews appear in neither query. */
  lemma ClosedInterviewsNeverListed(s: InterviewStore, now: int, dayStart: int,
                                    nextDayStart: int, x: ScheduledInterview)
    requires x.status != Scheduled
    ensures x !in UpcomingInterviews(s, now) && x !in TodaysInterviews(s, dayStart, nextDayStart)
  {
  }
}
