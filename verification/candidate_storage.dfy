/** src/utils/candidateStorage.ts: the completed-interview records kept under
    the `hr_interview_candidates` storage key. Each operation takes the stored
    value and returns the value written back; an operation that performs no
    write returns its input. */
module CandidateStorage {
  import opened Wrappers
  import opened Seqs
  import opened Types
  import opened Records

  type CandidateStore = Stored<CandidateRecord>

  function RecordId(c: CandidateRecord): string {
    c.id
  }

  /** `saveCandidateRecord(candidate)`: afterwards the candidate is the one
      record with its id and the last one, and every other record is kept in
      its original order. */
  function SaveCandidateRecord(s: CandidateStore, c: CandidateRecord): (r: CandidateStore)
    ensures r.Parsed? && |r.records| > 0 && r.records[|r.records| - 1] == c
    ensures Matching(r.records, RecordId, c.id) == [c]
    ensures Others(r.records, RecordId, c.id) == Others(Load(s), RecordId, c.id)
  {
    UpsertSingleMatch(Load(s), c, RecordId);
    UpsertKeepsOthers(Load(s), c, RecordId);
    Parsed(Upsert(Load(s), c, RecordId))
  }

  /** Saving never introduces a duplicate id. */
  lemma SaveKeepsIdsUnique(s: CandidateStore, c: CandidateRecord)
    requires UniqueKeys(Load(s), RecordId)
    ensures UniqueKeys(Load(SaveCandidateRecord(s, c)), RecordId)
  {
    UpsertKeepsUnique(Load(s), c, RecordId);
  }

  /** `getCandidateById(id)`: the first record with the id, or None when no
      record has it. */
  function GetCandidateById(s: CandidateStore, id: string): (r: Option<CandidateRecord>)
    ensures r.None? <==> forall j :: 0 <= j < |Load(s)| ==> Load(s)[j].id != id
    ensures r.Some? ==> r.value.id == id && |Matching(Load(s), RecordId, id)| > 0
                        && r.value == Matching(Load(s), RecordId, id)[0]
  {
    FindFirstAtFirstIndex(Load(s), RecordId, id);
    FindFirst(Load(s), RecordId, id)
  }

  /** The change `updateCandidateDecision` makes to the record it finds: the
      decision is set, and the notes only when the argument is a non-empty
      string. */
  function WithDecision(decision: Decision, notes: Option<string>): CandidateRecord -> CandidateRecord {
    (c: CandidateRecord) => c.(finalDecision := Some(decision), notes := if Truthy(notes) then notes else c.notes)
  }

  /** `updateCandidateDecision(id, decision, notes)`: the first record with the
      id gets the decision, and the notes when they are a non-empty string;
      nothing else changes. With no such record nothing is written. */
  function UpdateCandidateDecision(s: CandidateStore, id: string, decision: Decision,
                                   notes: Option<string>): (r: CandidateStore)
    ensures FirstIndex(Load(s), RecordId, id).None? ==> r == s
    ensures FirstIndex(Load(s), RecordId, id).Some? ==>
              var i, before := FirstIndex(Load(s), RecordId, id).value, Load(s);
              r.Parsed? && |r.records| == |before|
              && r.records[i].finalDecision == Some(decision)
              && r.records[i].notes == (if Truthy(notes) then notes else before[i].notes)
              && r.records[i].(finalDecision := before[i].finalDecision,
                               notes := before[i].notes) == before[i]
              && forall j :: 0 <= j < |before| && j != i ==> r.records[j] == before[j]
  {
    match FirstIndex(Load(s), RecordId, id)
    case None => s
    case Some(_) => Parsed(UpdateFirst(Load(s), RecordId, id, WithDecision(decision, notes)))
  }

  /** `deleteCandidateRecord(id)`: exactly the records with other ids remain,
      in their original order. */
  function DeleteCandidateRecord(s: CandidateStore, id: string): (r: CandidateStore)
    ensures r.Parsed? && Selects(r.records, Load(s), KeyIsNot(RecordId, id))
    ensures forall x :: x in r.records <==> x in Load(s) && x.id != id
  {
    SelectsIsFilter(Others(Load(s), RecordId, id), Load(s), KeyIsNot(RecordId, id));
    forall x ensures x in Others(Load(s), RecordId, id) <==> x in Load(s) && x.id != id {
      OthersMembers(Load(s), RecordId, id, x);
    }
    Parsed(Others(Load(s), RecordId, id))
  }

  /** Deleting an id no record has keeps the records as they were. */
  lemma DeleteAbsentIdKeepsRecords(s: CandidateStore, id: string)
    requires GetCandidateById(s, id).None?
    ensures Load(DeleteCandidateRecord(s, id)) == Load(s)
  {
    RemoveAbsentKey(Load(s), RecordId, id);
  }

  /** Deleting twice is deleting once. */
  lemma DeleteIdempotent(s: CandidateStore, id: string)
    ensures DeleteCandidateRecord(DeleteCandidateRecord(s, id), id) == DeleteCandidateRecord(s, id)
  {
    RemoveIdempotent(Load(s), RecordId, id);
  }

  /** A saved record is found again by its id. */
  lemma SavedRecordFound(s: CandidateStore, c: CandidateRecord)
    ensures GetCandidateById(SaveCandidateRecord(s, c), c.id) == Some(c)
  {
  }

  /** After a delete the id is not found. */
  lemma DeletedRecordNotFound(s: CandidateStore, id: string)
    ensures GetCandidateById(DeleteCandidateRecord(s, id), id).None?
  {
    RemovedKeyGone(Load(s), RecordId, id);
  }

  /** A decision update is seen by the next lookup of the same id. */
  lemma UpdatedDecisionFound(s: CandidateStore, id: string, decision: Decision,
                             notes: Option<string>)
    requires GetCandidateById(s, id).Some?
    ensures GetCandidateById(UpdateCandidateDecision(s, id, decision, notes), id)
            == Some(WithDecision(decision, notes)(GetCandidateById(s, id).value))
  {
    var rs := Load(s);
    FindFirstAtFirstIndex(rs, RecordId, id);
    var i := FirstIndex(rs, RecordId, id).value;
    var u := Load(UpdateCandidateDecision(s, id, decision, notes));
    assert forall j :: 0 <= j < i ==> u[j] == rs[j];
    assert FirstIndex(u, RecordId, id) == Some(i) by {
      FirstIndexUnique(u, RecordId, id, i);
    }
    FindFirstAtFirstIndex(u, RecordId, id);
  }
}
