/** The derived views of src/components/InsightsPanel.tsx: the score trend,
    the recent-history list and the empty-state condition. */
module InsightsPanel {
  import opened Wrappers
  import opened Seqs
  import opened Types
  import opened LiveRules
  import opened LiveEngine
  import opened LivePipeline

  datatype Direction = Up | Down | Stable

  datatype Trend = Trend(change: int, direction: Direction, percentage: nat)

  /** `getScoreTrend()`: none before two analyses exist; otherwise the change
      of the current overall score against the one before the last history
      entry, its direction and its size. */
  function ScoreTrend(a: LiveAnalysis, history: seq<LiveAnalysis>): (r: Option<Trend>)
    ensures r.None? <==> |history| < 2
    ensures r.Some? ==>
              && r.value.change == a.overallScore - history[|history| - 2].overallScore
              && (r.value.direction == Up <==> r.value.change > 0)
              && (r.value.direction == Down <==> r.value.change < 0)
              && (r.value.direction == Stable <==> r.value.change == 0)
              && r.value.percentage as int == (if r.value.change < 0 then -r.value.change else r.value.change)
  {
    if |history| < 2 then None
    else
      var change := a.overallScore - history[|history| - 2].overallScore;
      var direction := if change > 0 then Up else if change < 0 then Down else Stable;
      Some(Trend(change, direction, if change < 0 then -change else change))
  }

  /** In the hook's states the current analysis is the last history entry, so
      the trend compares the last two entries, and it is stable exactly when
      their overall scores agree. */
  lemma TrendComparesLastTwo(st: LiveState)
    requires Valid(st) && |st.history| >= 2
    ensures var h := st.history; var t := ScoreTrend(st.analysis, h);
            && t.Some?
            && t.value.change == h[|h| - 1].overallScore - h[|h| - 2].overallScore
            && (t.value.percentage == 0 <==> h[|h| - 1].overallScore == h[|h| - 2].overallScore)
  {
  }

  /** The history list: shown only when there are at least two entries, and
      then the last five (or all), newest first. */
  function HistoryView(history: seq<LiveAnalysis>): (r: Option<seq<LiveAnalysis>>)
    ensures r.None? <==> |history| <= 1
    ensures r.Some? ==>
              && |r.value| == (if |history| < 5 then |history| else 5)
              && forall k :: 0 <= k < |r.value| ==> r.value[k] == history[|history| - 1 - k]
  {
    if |history| > 1 then Some(Reverse(TakeLast(history, 5))) else None
  }

  /** The placeholder shown when the analysis has no insight, strength or red
      flag. */
  predicate ShowsEmptyState(a: LiveAnalysis) {
    |a.keyInsights| == 0 && |a.strengths| == 0 && |a.redFlags| == 0
  }

  /** Before any scoring, and after a reset, the placeholder is shown. */
  lemma InitialShowsEmptyState(now: int)
    ensures ShowsEmptyState(InitialState(now).analysis)
    ensures ShowsEmptyState(Reset(now).analysis)
  {
  }

  /** Every scoring pass yields either the soft-skills strength or the
      soft-skills red flag, so after one the placeholder is gone. */
  lemma ScoredHidesEmptyState(text: string, role: string, previous: LiveAnalysis,
                              jitter: Jitter, now: int)
    ensures !ShowsEmptyState(AnalyzeLiveResponse(text, role, previous, jitter, now))
  {
    var f := ExtractFeatures(text, role);
    SoftSkillsExclusive(f, previous, jitter, now);
  }
}
