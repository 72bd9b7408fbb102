/** The candidate list of src/components/CandidateManagement.tsx: the search
    and decision filter, the summary counts, and the delete and decision
    actions with the reload that follows them. The `confirm()` dialog's answer
    is a parameter; the score colours are `PostInterviewDecision.ScoreColorOf`. */
module CandidateManagement {
  import opened Wrappers
  import opened Seqs
  import opened Text
  import opened Types
  import opened Records
  import opened CandidateStorage

  /** The decision selector: 'all' or one decision. */
  datatype DecisionFilter = AllDecisions | Only(decision: Decision)

  /** The search test: the lowercased name, email or job role contains the
      lowercased term. */
  predicate MatchesSearch(c: CandidateRecord, term: string) {
    Contains(Lower(c.name), Lower(term)) || Contains(Lower(c.email), Lower(term))
    || Contains(Lower(c.jobRole), Lower(term))
  }

  function SearchFor(term: string): CandidateRecord -> bool {
    (c: CandidateRecord) => MatchesSearch(c, term)
  }

  function HasDecision(d: Decision): CandidateRecord -> bool {
    (c: CandidateRecord) => c.finalDecision == Some(d)
  }

  /** The test a row must pass: the search when the term is non-empty, and the
      decision when the filter is not 'all'. */
  function Shown(term: string, f: DecisionFilter): CandidateRecord -> bool {
    (c: CandidateRecord) =>
      (term != "" ==> MatchesSearch(c, term)) && (f.Only? ==> c.finalDecision == Some(f.decision))
  }

  /** `filterCandidates()`: the search applies only to a non-empty term, the
      decision test only to a filter other than 'all'. Every passing record is
      kept, in order. A record without a decision passes no decision test. */
  function FilterCandidates(cs: seq<CandidateRecord>, term: string, f: DecisionFilter)
    : (r: seq<CandidateRecord>)
    ensures Selects(r, cs, Shown(term, f))
    ensures forall x :: x in r <==>
              x in cs && (term != "" ==> MatchesSearch(x, term))
              && (f.Only? ==> x.finalDecision == Some(f.decision))
  {
    var searched := if term != "" then Filter(cs, SearchFor(term)) else cs;
    var shown := if f.Only? then Filter(searched, HasDecision(f.decision)) else searched;
    assert shown == Filter(cs, Shown(term, f)) by {
      if term != "" && f.Only? {
        FilterFilter(cs, SearchFor(term), HasDecision(f.decision), Shown(term, f));
      } else if term != "" {
        FilterCongruent(cs, SearchFor(term), Shown(term, f));
      } else if f.Only? {
        FilterCongruent(cs, HasDecision(f.decision), Shown(term, f));
      } else {
        FilterAllPass(cs, Shown(term, f));
      }
    }
    SelectsIsFilter(shown, cs, Shown(term, f));
    forall x ensures x in shown <==> x in cs && Shown(term, f)(x) {
      FilterMembers(cs, Shown(term, f), x);
    }
    shown
  }

  /** With no search term and the 'all' filter the whole list is shown. */
  lemma UnfilteredShowsAll(cs: seq<CandidateRecord>)
    ensures FilterCandidates(cs, "", AllDecisions) == cs
  {
  }

  /** `candidate.finalDecision || 'pending'`: what a row's selector shows. */
  function DisplayedDecision(c: CandidateRecord): Decision {
    c.finalDecision.GetOr(Pending)
  }

  /** A record with no decision is displayed as pending, yet the 'pending'
      filter leaves it out. */
  lemma UndecidedShownPendingButFilteredOut(cs: seq<CandidateRecord>, term: string,
                                            c: CandidateRecord)
    requires c.finalDecision.None?
    ensures DisplayedDecision(c) == Pending
    ensures c !in FilterCandidates(cs, term, Only(Pending))
  {
  }

  datatype Stats = Stats(total: nat, hired: nat, rejected: nat, pending: nat)

  function Undecided(): CandidateRecord -> bool {
    (c: CandidateRecord) => c.finalDecision.None?
  }

  /** `stats`: the number of records and of those with each decision. */
  function StatsOf(cs: seq<CandidateRecord>): (r: Stats)
    ensures r.total == |cs|
    ensures r.hired == Count(cs, HasDecision(Hire)) && r.rejected == Count(cs, HasDecision(Reject))
            && r.pending == Count(cs, HasDecision(Pending))
    ensures r.hired + r.rejected + r.pending + Count(cs, Undecided()) == r.total
  {
    CountsPartition(cs);
    Stats(|cs|, Count(cs, HasDecision(Hire)), Count(cs, HasDecision(Reject)),
          Count(cs, HasDecision(Pending)))
  }

  /** Every record is undecided or has exactly one of the three decisions. */
  lemma {:induction false} CountsPartition(cs: seq<CandidateRecord>)
    ensures Count(cs, HasDecision(Hire)) + Count(cs, HasDecision(Reject))
            + Count(cs, HasDecision(Pending)) + Count(cs, Undecided()) == |cs|
    decreases |cs|
  {
    if |cs| > 0 {
      CountsPartition(cs[1..]);
      var c, t := cs[0], cs[1..];
      assert |cs| == 1 + |t|;
      match c.finalDecision
      case None =>
      case Some(d) => assert d == Hire || d == Reject || d == Pending;
    }
  }

  /** No undecided record is counted exactly when none exists. */
  lemma {:induction false} NoneUndecided(cs: seq<CandidateRecord>)
    ensures Count(cs, Undecided()) == 0 <==> forall i :: 0 <= i < |cs| ==> cs[i].finalDecision.Some?
    decreases |cs|
  {
    if |cs| > 0 {
      NoneUndecided(cs[1..]);
      assert forall i :: 1 <= i < |cs| ==> cs[i] == cs[1..][i - 1];
    }
  }

  /** The three decision counts add up to at most the total, and to the
      total exactly when every record has a decision. */
  lemma StatsAddUp(cs: seq<CandidateRecord>)
    ensures StatsOf(cs).hired + StatsOf(cs).rejected + StatsOf(cs).pending <= StatsOf(cs).total
    ensures StatsOf(cs).hired + StatsOf(cs).rejected + StatsOf(cs).pending == StatsOf(cs).total
            <==> forall i :: 0 <= i < |cs| ==> cs[i].finalDecision.Some?
  {
    NoneUndecided(cs);
  }

  /** `handleDeleteCandidate(id)` followed by the reload: when confirmed, the
      records with that id are gone and the rest are listed; otherwise nothing
      is written. */
  function HandleDelete(s: CandidateStore, id: string, confirmed: bool)
    : (r: (CandidateStore, seq<CandidateRecord>))
    ensures r.1 == Load(r.0)
    ensures !confirmed ==> r.0 == s
    ensures confirmed ==> Selects(r.1, Load(s), KeyIsNot(RecordId, id))
                          && forall x :: x in r.1 <==> x in Load(s) && x.id != id
  {
    var after := if confirmed then DeleteCandidateRecord(s, id) else s;
    (after, Load(after))
  }

  /** `handleUpdateDecision(id, decision)` followed by the reload: the first
      record with the id gets the decision and keeps its notes; every other
      record stays where it was, unchanged. */
  function HandleUpdateDecision(s: CandidateStore, id: string, decision: Decision)
    : (r: (CandidateStore, seq<CandidateRecord>))
    ensures r.1 == Load(r.0)
    ensures GetCandidateById(s, id).None? ==> r.0 == s
    ensures GetCandidateById(s, id).Some? ==>
              GetCandidateById(r.0, id)
              == Some(GetCandidateById(s, id).value.(finalDecision := Some(decision)))
    ensures r.0 == UpdateCandidateDecision(s, id, decision, None)
    ensures |Load(r.0)| == |Load(s)|
    ensures forall j :: 0 <= j < |Load(s)| && FirstIndex(Load(s), RecordId, id) != Some(j) ==>
              Load(r.0)[j] == Load(s)[j]
  {
    var after := UpdateCandidateDecision(s, id, decision, None);
    assert GetCandidateById(s, id).Some? ==>
             GetCandidateById(after, id)
             == Some(GetCandidateById(s, id).value.(finalDecision := Some(decision))) by {
      if GetCandidateById(s, id).Some? {
        UpdatedDecisionFound(s, id, decision, None);
      }
    }
    assert GetCandidateById(s, id).None? ==> after == s by {
      FindFirstAtFirstIndex(Load(s), RecordId, id);
    }
    (after, Load(after))
  }
}
