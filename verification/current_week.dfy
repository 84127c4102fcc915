/**
 * The lifecycle of the single current week: reset, and the archive
 * transition that snapshots it into the history.
 */
module CurrentWeek {
  import opened Wrappers
  import opened Text
  import opened Records
  import opened Calc
  import opened History

  /** The locally stored documents this component reads and writes; an absent current week is `None`. */
  datatype Local = Local(current: Option<WeekRecord>, history: seq<ArchivedWeek>)

  /** Why an archive attempt stopped, or what it archived. */
  datatype ArchiveOutcome =
    | NothingToArchive                         // no current week is stored
    | MissingDates                             // the start or end date is empty
    | Archived(entry: ArchivedWeek, reset: bool)

  datatype Transition = Transition(state: Local, outcome: ArchiveOutcome)

  /**
   * Discards the stored current week once the user confirms. The table is
   * then drawn empty, but nothing is stored until the next edit.
   */
  function Reset(s: Local, confirmed: bool): (r: Local)
    ensures r.history == s.history
    ensures confirmed ==> r.current.None?
    ensures !confirmed ==> r == s
  {
    if confirmed then s.(current := None) else s
  }

  /**
   * The profit kept from the archive prompt: nothing when the prompt was
   * cancelled (`None`) or answered with blank text, otherwise the trimmed
   * answer.
   */
  function ProfitFromPrompt(answer: Option<string>): (p: Option<string>)
    ensures p.Some? <==> answer.Some? && !IsBlank(answer.value)
    ensures p.Some? ==> p.value == Trim(answer.value) && p.value != ""
  {
    if answer.Some? && !IsBlank(answer.value) then Some(Trim(answer.value)) else None
  }

  /** The archive can proceed: a week is stored and both of its dates are filled in. */
  predicate Archivable(s: Local) {
    s.current.Some? && s.current.value.dateRange.start != "" && s.current.value.dateRange.end != ""
  }

  /**
   * Archives the current week. `answer` is the reply to the profit prompt,
   * `now` the clock reading, `resetConfirmed` the reply to the reset
   * confirmation asked afterwards. The entry is appended before that
   * confirmation is asked, so declining it keeps the current week and the
   * new entry both.
   */
  function Archive(s: Local, answer: Option<string>, now: string, resetConfirmed: bool): (t: Transition)
    requires Archivable(s) ==> Tallyable(s.current.value.days)
    ensures s.current.None? ==> t == Transition(s, NothingToArchive)
    ensures s.current.Some? && !Archivable(s) ==> t == Transition(s, MissingDates)
    ensures Archivable(s) ==>
              && t.outcome.Archived?
              && t.outcome.reset == resetConfirmed
              && t.state.history == s.history + [t.outcome.entry]
              && t.outcome.entry.dateRange == s.current.value.dateRange
              && t.outcome.entry.days == s.current.value.days
              && t.outcome.entry.stats == WeekStatsOf(s.current.value)
              && t.outcome.entry.archivedAt == now
              && t.outcome.entry.profit == ProfitFromPrompt(answer)
              && (resetConfirmed ==> t.state.current.None?)
              && (!resetConfirmed ==> t.state.current == s.current)
  {
    match s.current
    case None => Transition(s, NothingToArchive)
    case Some(w) =>
      if w.dateRange.start == "" || w.dateRange.end == "" then Transition(s, MissingDates)
      else
        var entry := ArchivedWeek(w.dateRange, w.days, now, WeekStatsOf(w), ProfitFromPrompt(answer));
        var appended := s.(history := s.history + [entry]);
        Transition(Reset(appended, resetConfirmed), Archived(entry, resetConfirmed))
  }

  /** Archiving never alters a week that was already archived: the old entries stay as they were. */
  lemma ArchiveKeepsEarlierEntries(s: Local, answer: Option<string>, now: string, resetConfirmed: bool)
    requires Archivable(s) ==> Tallyable(s.current.value.days)
    ensures var h := Archive(s, answer, now, resetConfirmed).state.history;
            |h| >= |s.history| && h[..|s.history|] == s.history
  {
    var h := Archive(s, answer, now, resetConfirmed).state.history;
    if Archivable(s) {
      assert h[..|s.history|] == s.history;
    }
  }

  /** Deleting the newest entry right after an archive gives back the history as it was before. */
  lemma DeleteUndoesArchive(s: Local, answer: Option<string>, now: string, resetConfirmed: bool)
    requires Archivable(s) && Tallyable(s.current.value.days)
    ensures DeleteItem(Archive(s, answer, now, resetConfirmed).state.history, |s.history|, true) == s.history
  {
    var h := Archive(s, answer, now, resetConfirmed).state.history;
    assert h[..|s.history|] == s.history;
  }

  /** After an archive the history totals grow by exactly the archived week's points. */
  lemma ArchiveAddsWeekToTotals(s: Local, answer: Option<string>, now: string, resetConfirmed: bool)
    requires Archivable(s) && Tallyable(s.current.value.days)
    ensures var st := WeekStatsOf(s.current.value);
            SumTotals(Archive(s, answer, now, resetConfirmed).state.history)
              == Plus(SumTotals(s.history), Totals(st.totalChecked, st.totalPossible, st.perfectDays))
  {
    var t := Archive(s, answer, now, resetConfirmed);
    assert t.state.history[..|t.state.history| - 1] == s.history;
  }

  /** Archiving a well-formed week keeps every snapshot in the history consistent with its rows. */
  lemma ArchivePreservesConsistent(s: Local, answer: Option<string>, now: string, resetConfirmed: bool)
    requires Consistent(s.history)
    requires Archivable(s) ==> WellFormedDays(s.current.value.days) && Tallyable(s.current.value.days)
    ensures Consistent(Archive(s, answer, now, resetConfirmed).state.history)
  {
    var h := Archive(s, answer, now, resetConfirmed).state.history;
    forall j | 0 <= j < |h| ensures Snapshotted(h[j]) {
      if j < |s.history| {
        assert h[j] == s.history[j];
      }
    }
  }

  /**
   * With the reset declined the same week can be archived again: a second
   * archive appends a second entry with the same dates and rows.
   */
  lemma DeclinedResetAllowsRepeatArchive(s: Local, a1: Option<string>, now1: string, a2: Option<string>, now2: string)
    requires Archivable(s) && Tallyable(s.current.value.days)
    ensures var first := Archive(s, a1, now1, false);
            var second := Archive(first.state, a2, now2, false);
            && second.outcome.Archived?
            && |second.state.history| == |s.history| + 2
            && second.state.history[|s.history|].days == second.state.history[|s.history| + 1].days
            && second.state.history[|s.history|].dateRange == second.state.history[|s.history| + 1].dateRange
  {
  }
}
