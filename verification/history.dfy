/**
 * The archive of past weeks: an ordered list, oldest first, whose entries
 * are addressed by position. Each entry keeps the statistics frozen at the
 * moment it was archived; only its profit can be edited later.
 */
module History {
  import opened Wrappers
  import opened Records
  import opened Calc

  /**
   * An archived week. `archivedAt` is the clock reading taken at archive
   * time; `profit` is the text the user entered, if any.
   */
  datatype ArchivedWeek = ArchivedWeek(
    dateRange: DateRange,
    days: seq<Day>,
    archivedAt: string,
    stats: WeekStats,
    profit: Option<string>)

  /** Entry `index` exists: a JavaScript array lookup outside this range yields `undefined`. */
  predicate InRange(h: seq<ArchivedWeek>, index: int) {
    0 <= index < |h|
  }

  /**
   * Removes entry `index` once the user confirms; a missing entry, or a
   * declined confirmation, leaves the history as it was.
   */
  function DeleteItem(h: seq<ArchivedWeek>, index: int, confirmed: bool): (r: seq<ArchivedWeek>)
    ensures !InRange(h, index) || !confirmed ==> r == h
    ensures InRange(h, index) && confirmed ==>
              && |r| == |h| - 1
              && (forall j :: 0 <= j < index ==> r[j] == h[j])
              && (forall j :: index <= j < |r| ==> r[j] == h[j + 1])
              && multiset(r) + multiset{h[index]} == multiset(h)
  {
    if InRange(h, index) && confirmed then
      assert h == h[..index] + [h[index]] + h[index + 1..];
      h[..index] + h[index + 1..]
    else h
  }

  /** Putting the deleted entry back at its position gives back the original history. */
  lemma ReinsertUndoesDelete(h: seq<ArchivedWeek>, index: int)
    requires InRange(h, index)
    ensures var r := DeleteItem(h, index, true);
            r[..index] + [h[index]] + r[index..] == h
  {
    var r := DeleteItem(h, index, true);
    assert r[..index] == h[..index];
    assert r[index..] == h[index + 1..];
    assert h == h[..index] + [h[index]] + h[index + 1..];
  }

  /** Sets the profit of entry `index`; a missing entry leaves the history as it was. */
  function UpdateProfit(h: seq<ArchivedWeek>, index: int, value: string): (r: seq<ArchivedWeek>)
    ensures |r| == |h|
    ensures forall j :: 0 <= j < |h| && j != index ==> r[j] == h[j]
    ensures InRange(h, index) ==>
              && r[index].profit == Some(value)
              && r[index].dateRange == h[index].dateRange
              && r[index].days == h[index].days
              && r[index].archivedAt == h[index].archivedAt
              && r[index].stats == h[index].stats
    ensures !InRange(h, index) ==> r == h
  {
    if InRange(h, index) then h[index := h[index].(profit := Some(value))] else h
  }

  /** Deletes the whole history once the user confirms. */
  function Clear(h: seq<ArchivedWeek>, confirmed: bool): (r: seq<ArchivedWeek>)
    ensures confirmed ==> r == []
    ensures !confirmed ==> r == h
  {
    if confirmed then [] else h
  }

  // ---------------------------------------------------------------------
  // Aggregate over the frozen snapshots
  // ---------------------------------------------------------------------

  datatype Totals = Totals(checked: int, possible: nat, perfectDays: nat)

  function Contribution(a: ArchivedWeek): Totals {
    Totals(a.stats.totalChecked, a.stats.totalPossible, a.stats.perfectDays)
  }

  function Plus(x: Totals, y: Totals): Totals {
    Totals(x.checked + y.checked, x.possible + y.possible, x.perfectDays + y.perfectDays)
  }

  /** The snapshots' counters summed in list order. */
  function SumTotals(h: seq<ArchivedWeek>): Totals {
    if |h| == 0 then Totals(0, 0, 0) else Plus(SumTotals(h[..|h| - 1]), Contribution(h[|h| - 1]))
  }

  /**
   * The history panel. `NoHistory` is the "no data" card shown for an empty
   * history. Otherwise the average percentage is recomputed from the summed
   * points (not averaged over weeks), and the average number of perfect
   * days is `totalPerfectDays / totalWeeks`.
   */
  datatype Summary =
    | NoHistory
    | Summary(totalWeeks: nat, totalChecked: int, totalPossible: nat, avgPercentage: Percentage,
              totalPerfectDays: nat, avgPerfectDays: Fraction)

  /** An exact quotient `numerator / denominator`. */
  datatype Fraction = Fraction(numerator: int, denominator: nat)

  function Aggregate(h: seq<ArchivedWeek>): (r: Summary)
    ensures r.NoHistory? <==> |h| == 0
    ensures r.Summary? ==> r.totalWeeks == |h| > 0
    ensures r.Summary? ==> Totals(r.totalChecked, r.totalPossible, r.totalPerfectDays) == SumTotals(h)
    ensures r.Summary? ==> r.avgPerfectDays == Fraction(r.totalPerfectDays, r.totalWeeks)
    ensures r.Summary? ==> (r.avgPercentage == Zero <==> r.totalPossible == 0)
    ensures r.Summary? && r.avgPercentage.Ratio? ==> r.avgPercentage == Ratio(r.totalChecked, r.totalPossible)
  {
    if |h| == 0 then NoHistory
    else
      var t := SumTotals(h);
      Summary(|h|, t.checked, t.possible, if t.possible > 0 then Ratio(t.checked, t.possible) else Zero,
              t.perfectDays, Fraction(t.perfectDays, |h|))
  }

  /** Summing over two consecutive stretches of history adds their sums. */
  lemma {:induction false} SumTotalsAppend(a: seq<ArchivedWeek>, b: seq<ArchivedWeek>)
    ensures SumTotals(a + b) == Plus(SumTotals(a), SumTotals(b))
    decreases |b|
  {
    if |b| == 0 {
      assert a + b == a;
    } else {
      var b' := b[..|b| - 1];
      assert (a + b)[..|a + b| - 1] == a + b';
      SumTotalsAppend(a, b');
    }
  }

  /** A confirmed deletion removes exactly the deleted week's snapshot from the totals. */
  lemma DeleteItemTotals(h: seq<ArchivedWeek>, index: int)
    requires InRange(h, index)
    ensures Plus(SumTotals(DeleteItem(h, index, true)), Contribution(h[index])) == SumTotals(h)
  {
    var r := DeleteItem(h, index, true);
    assert h == r[..index] + [h[index]] + r[index..] by {
      ReinsertUndoesDelete(h, index);
    }
    assert r == r[..index] + r[index..];
    SumTotalsAppend(r[..index], r[index..]);
    SumTotalsAppend(r[..index] + [h[index]], r[index..]);
    SumTotalsAppend(r[..index], [h[index]]);
    assert [h[index]][..0] == [];
  }

  /** Two histories with the same snapshots, entry by entry, sum to the same totals. */
  lemma {:induction false} SumTotalsDependsOnStatsOnly(h: seq<ArchivedWeek>, g: seq<ArchivedWeek>)
    requires |h| == |g|
    requires forall j :: 0 <= j < |h| ==> h[j].stats == g[j].stats
    ensures SumTotals(h) == SumTotals(g)
    decreases |h|
  {
    if |h| > 0 {
      SumTotalsDependsOnStatsOnly(h[..|h| - 1], g[..|g| - 1]);
    }
  }

  /** Editing a profit never changes the history panel: profit is independent of the frozen statistics. */
  lemma UpdateProfitKeepsAggregate(h: seq<ArchivedWeek>, index: int, value: string)
    ensures Aggregate(UpdateProfit(h, index, value)) == Aggregate(h)
  {
    SumTotalsDependsOnStatsOnly(UpdateProfit(h, index, value), h);
  }

  /** A confirmed clear leaves the "no data" panel. */
  lemma ClearEmptiesAggregate(h: seq<ArchivedWeek>)
    ensures Aggregate(Clear(h, true)) == NoHistory
    ensures Aggregate(Clear(h, false)) == Aggregate(h)
  {
  }

  // ---------------------------------------------------------------------
  // Snapshot consistency
  // ---------------------------------------------------------------------

  /** An entry whose frozen statistics are those of its own well-formed rows. */
  predicate Snapshotted(a: ArchivedWeek) {
    && WellFormedDays(a.days)
    && Tallyable(a.days)
    && a.stats == WeekStatsOf(WeekRecord(a.dateRange, a.days))
  }

  predicate Consistent(h: seq<ArchivedWeek>) {
    forall j :: 0 <= j < |h| ==> Snapshotted(h[j])
  }

  /** Deleting an entry and editing a profit keep every snapshot consistent with its rows. */
  lemma EditsPreserveConsistent(h: seq<ArchivedWeek>, index: int, confirmed: bool, value: string)
    requires Consistent(h)
    ensures Consistent(DeleteItem(h, index, confirmed))
    ensures Consistent(UpdateProfit(h, index, value))
  {
    var r := DeleteItem(h, index, confirmed);
    forall j | 0 <= j < |r| ensures Snapshotted(r[j]) {
      if InRange(h, index) && confirmed && j >= index {
        assert r[j] == h[j + 1];
      } else {
        assert r[j] == h[j];
      }
    }
    var u := UpdateProfit(h, index, value);
    forall j | 0 <= j < |u| ensures Snapshotted(u[j]) {
      assert Snapshotted(h[j]);
    }
  }

  /**
   * Over consistent snapshots the summed points are never negative and never
   * exceed the possible points, and five points are possible per perfect day.
   */
  lemma {:induction false} ConsistentTotalsBounded(h: seq<ArchivedWeek>)
    requires Consistent(h)
    ensures 0 <= SumTotals(h).checked <= SumTotals(h).possible
    ensures |Fields| * SumTotals(h).perfectDays <= SumTotals(h).possible
    decreases |h|
  {
    if |h| > 0 {
      var init := h[..|h| - 1];
      var last := h[|h| - 1];
      assert Consistent(init) by {
        forall j | 0 <= j < |init| ensures Snapshotted(init[j]) {
          assert init[j] == h[j];
        }
      }
      ConsistentTotalsBounded(init);
      assert Snapshotted(last);
      WeekStatsInvariants(WeekRecord(last.dateRange, last.days));
    }
  }

  /** The history panel of a consistent history shows a percentage between 0 and 100. */
  lemma ConsistentAggregateBounded(h: seq<ArchivedWeek>)
    requires Consistent(h) && |h| > 0
    ensures Aggregate(h).avgPercentage.Ratio? ==>
              0 <= Aggregate(h).avgPercentage.checked <= Aggregate(h).avgPercentage.possible
  {
    ConsistentTotalsBounded(h);
  }
}
