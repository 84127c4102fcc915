/**
 * Week statistics: the fold over a week's rows that produces the checked
 * and possible points, the perfect and active day counts and the
 * per-category tallies.
 */
module Calc {
  import opened Records

  /** Per-category counter: points checked and rows counted. */
  datatype Tally = Tally(checked: int, total: nat)

  /**
   * The completion percentage `checked / possible * 100`, kept as the exact
   * fraction; `Zero` is the value shown when no point was possible.
   */
  datatype Percentage = Zero | Ratio(checked: int, possible: nat)

  /** The running state of the fold. */
  datatype Counters = Counters(totalChecked: int, activeDays: nat, perfectDays: nat, categories: seq<Tally>)

  datatype WeekStats = WeekStats(
    totalChecked: int,
    totalPossible: nat,
    percentage: Percentage,
    perfectDays: nat,
    activeDays: nat,
    categoryStats: seq<Tally>)  // index-aligned to Fields

  /**
   * What the fold demands of its input: no active row has more toggles than
   * there are categories (a sixth toggle would address a category that does
   * not exist, and the fold would fail). The toggles of a day off are never
   * read, so they may have any shape.
   */
  predicate Tallyable(days: seq<Day>) {
    forall i :: 0 <= i < |days| && !days[i].isDayOff ==> |days[i].toggles| <= |Fields|
  }

  function Sum(s: seq<int>): int {
    if |s| == 0 then 0 else Sum(s[..|s| - 1]) + s[|s| - 1]
  }

  function SumChecked(cats: seq<Tally>): int {
    if |cats| == 0 then 0 else SumChecked(cats[..|cats| - 1]) + cats[|cats| - 1].checked
  }

  /** Adds toggle `i` of a row to category `i`, for every toggle the row has. */
  function AddToggles(cats: seq<Tally>, toggles: seq<int>): (r: seq<Tally>)
    requires |toggles| <= |cats|
    ensures |r| == |cats|
  {
    seq(|cats|, i requires 0 <= i < |cats| =>
      if i < |toggles| then Tally(cats[i].checked + toggles[i], cats[i].total + 1) else cats[i])
  }

  /** One step of the fold; a day off is skipped entirely. */
  function AddDay(c: Counters, d: Day): Counters
    requires !d.isDayOff ==> |d.toggles| <= |c.categories|
  {
    if d.isDayOff then c
    else
      var daySum := Sum(d.toggles);
      Counters(
        c.totalChecked + daySum,
        c.activeDays + 1,
        if daySum == |Fields| then c.perfectDays + 1 else c.perfectDays,
        AddToggles(c.categories, d.toggles))
  }

  function Start(): Counters {
    Counters(0, 0, 0, seq(|Fields|, _ => Tally(0, 0)))
  }

  /** The fold over the rows in order. */
  function Accumulate(days: seq<Day>): (c: Counters)
    requires Tallyable(days)
    ensures |c.categories| == |Fields|
    ensures c.perfectDays <= c.activeDays <= |days|
    ensures forall f :: 0 <= f < |c.categories| ==> c.categories[f].total <= c.activeDays
    decreases |days|
  {
    if |days| == 0 then Start()
    else
      assert Tallyable(days[..|days| - 1]);
      AddDay(Accumulate(days[..|days| - 1]), days[|days| - 1])
  }

  /** The statistics of one week. */
  function WeekStatsOf(w: WeekRecord): (s: WeekStats)
    requires Tallyable(w.days)
    ensures s.totalPossible == |Fields| * s.activeDays
    ensures s.perfectDays <= s.activeDays <= |w.days|
    ensures |s.categoryStats| == |Fields|
    ensures forall f :: 0 <= f < |Fields| ==> s.categoryStats[f].total <= s.activeDays
    ensures s.percentage == Zero <==> s.activeDays == 0
    ensures s.activeDays == 0 ==> s.totalPossible == 0
    ensures s.percentage.Ratio? ==> s.percentage == Ratio(s.totalChecked, s.totalPossible) && s.totalPossible > 0
  {
    var c := Accumulate(w.days);
    var possible := c.activeDays * |Fields|;
    WeekStats(
      c.totalChecked,
      possible,
      if possible > 0 then Ratio(c.totalChecked, possible) else Zero,
      c.perfectDays,
      c.activeDays,
      c.categories)
  }

  // ---------------------------------------------------------------------
  // Reference definitions: each counter defined on its own, by what it counts.
  // ---------------------------------------------------------------------

  function CountWhere(days: seq<Day>, p: Day -> bool): nat {
    if |days| == 0 then 0 else CountWhere(days[..|days| - 1], p) + (if p(days[|days| - 1]) then 1 else 0)
  }

  function SumOver(days: seq<Day>, v: Day -> int): int {
    if |days| == 0 then 0 else SumOver(days[..|days| - 1], v) + v(days[|days| - 1])
  }

  predicate AllOnes(d: Day) {
    |d.toggles| == |Fields| && forall i :: 0 <= i < |d.toggles| ==> d.toggles[i] == 1
  }

  /** Number of rows not marked as a day off. */
  function ActiveDays(days: seq<Day>): nat {
    CountWhere(days, (d: Day) => !d.isDayOff)
  }

  /** Points checked on rows not marked as a day off. */
  function CheckedOnActiveDays(days: seq<Day>): int {
    SumOver(days, (d: Day) => if d.isDayOff then 0 else Sum(d.toggles))
  }

  /** Active rows with every category checked. */
  function PerfectCount(days: seq<Day>): nat {
    CountWhere(days, (d: Day) => !d.isDayOff && AllOnes(d))
  }

  /** Points of category `f` checked on active rows. */
  function FieldChecked(days: seq<Day>, f: nat): int {
    SumOver(days, (d: Day) => if !d.isDayOff && f < |d.toggles| then d.toggles[f] else 0)
  }

  /** Active rows that have a toggle for category `f`. */
  function FieldTotal(days: seq<Day>, f: nat): nat {
    CountWhere(days, (d: Day) => !d.isDayOff && f < |d.toggles|)
  }

  /** A sequence of bits sums to at most its length, and to exactly its length when every bit is set. */
  lemma {:induction false} BitSum(s: seq<int>)
    requires forall i :: 0 <= i < |s| ==> IsBit(s[i])
    ensures 0 <= Sum(s) <= |s|
    ensures Sum(s) == |s| <==> forall i :: 0 <= i < |s| ==> s[i] == 1
  {
    if |s| > 0 {
      var init := s[..|s| - 1];
      BitSum(init);
      if Sum(s) == |s| {
        forall i | 0 <= i < |s| ensures s[i] == 1 {
          if i < |s| - 1 {
            assert s[i] == init[i];
          }
        }
      }
      if forall i :: 0 <= i < |s| ==> s[i] == 1 {
        assert forall i :: 0 <= i < |init| ==> init[i] == 1 by {
          forall i | 0 <= i < |init| ensures init[i] == 1 {
            assert init[i] == s[i];
          }
        }
      }
    }
  }

  /** For a well-formed row, "the toggles sum to the category count" means "every category is checked". */
  lemma PerfectIffAllOnes(d: Day)
    requires WellFormedDay(d)
    ensures Sum(d.toggles) == |Fields| <==> AllOnes(d)
  {
    BitSum(d.toggles);
  }

  /** The fold computes each counter as its reference definition does. */
  lemma {:induction false} AccumulateMatchesReference(days: seq<Day>)
    requires Tallyable(days)
    ensures Accumulate(days).activeDays == ActiveDays(days)
    ensures Accumulate(days).totalChecked == CheckedOnActiveDays(days)
    ensures forall f :: 0 <= f < |Fields| ==>
              Accumulate(days).categories[f] == Tally(FieldChecked(days, f), FieldTotal(days, f))
    ensures WellFormedDays(days) ==> Accumulate(days).perfectDays == PerfectCount(days)
    decreases |days|
  {
    if |days| > 0 {
      var init := days[..|days| - 1];
      var d := days[|days| - 1];
      assert Tallyable(init);
      AccumulateMatchesReference(init);
      if WellFormedDays(days) {
        assert WellFormedDays(init);
        PerfectIffAllOnes(d);
      }
    }
  }

  lemma {:induction false} StartSumsToZero(cats: seq<Tally>)
    requires forall i :: 0 <= i < |cats| ==> cats[i].checked == 0
    ensures SumChecked(cats) == 0
  {
    if |cats| > 0 {
      StartSumsToZero(cats[..|cats| - 1]);
    }
  }

  lemma {:induction false} AddTogglesSum(cats: seq<Tally>, t: seq<int>)
    requires |t| <= |cats|
    ensures SumChecked(AddToggles(cats, t)) == SumChecked(cats) + Sum(t)
  {
    if |cats| > 0 {
      var n := |cats|;
      var r := AddToggles(cats, t);
      var t' := if |t| == n then t[..n - 1] else t;
      assert r[..n - 1] == AddToggles(cats[..n - 1], t');
      AddTogglesSum(cats[..n - 1], t');
    }
  }

  /** Summed over the categories, the per-category checked points give the week's checked points. */
  lemma {:induction false} CategoriesSumToTotal(days: seq<Day>)
    requires Tallyable(days)
    ensures SumChecked(Accumulate(days).categories) == Accumulate(days).totalChecked
    decreases |days|
  {
    if |days| == 0 {
      StartSumsToZero(Start().categories);
    } else {
      var init := days[..|days| - 1];
      assert Tallyable(init);
      CategoriesSumToTotal(init);
      if !days[|days| - 1].isDayOff {
        AddTogglesSum(Accumulate(init).categories, days[|days| - 1].toggles);
      }
    }
  }

  /**
   * On well-formed rows every category is counted once per active row, no
   * category is checked more often than it is counted, and the checked
   * points never exceed the possible ones.
   */
  lemma {:induction false} WellFormedCounters(days: seq<Day>)
    requires WellFormedDays(days)
    ensures Tallyable(days)
    ensures 0 <= Accumulate(days).totalChecked <= |Fields| * Accumulate(days).activeDays
    ensures forall f :: 0 <= f < |Fields| ==>
              && Accumulate(days).categories[f].total == Accumulate(days).activeDays
              && 0 <= Accumulate(days).categories[f].checked <= Accumulate(days).categories[f].total
    decreases |days|
  {
    if |days| > 0 {
      var init := days[..|days| - 1];
      var d := days[|days| - 1];
      assert WellFormedDays(init);
      WellFormedCounters(init);
      assert WellFormedDay(d);
      BitSum(d.toggles);
    }
  }

  /** The properties of a week's statistics that hold whenever its rows are well formed. */
  lemma WeekStatsInvariants(w: WeekRecord)
    requires WellFormedDays(w.days)
    ensures Tallyable(w.days)
    ensures forall f :: 0 <= f < |Fields| ==>
              && WeekStatsOf(w).categoryStats[f].total == WeekStatsOf(w).activeDays
              && 0 <= WeekStatsOf(w).categoryStats[f].checked <= WeekStatsOf(w).categoryStats[f].total
    ensures 0 <= WeekStatsOf(w).totalChecked <= WeekStatsOf(w).totalPossible
    ensures SumChecked(WeekStatsOf(w).categoryStats) == WeekStatsOf(w).totalChecked
    ensures WeekStatsOf(w).perfectDays == PerfectCount(w.days)
    ensures WeekStatsOf(w).activeDays == ActiveDays(w.days)
  {
    WellFormedCounters(w.days);
    CategoriesSumToTotal(w.days);
    AccumulateMatchesReference(w.days);
  }

  /** A day off contributes nothing: removing it from anywhere in the week leaves the statistics unchanged. */
  lemma {:induction false} DayOffContributesNothing(r: DateRange, a: seq<Day>, off: Day, b: seq<Day>)
    requires off.isDayOff && Tallyable(a + [off] + b)
    ensures Tallyable(a + b)
    ensures WeekStatsOf(WeekRecord(r, a + [off] + b)) == WeekStatsOf(WeekRecord(r, a + b))
  {
    AccumulateSkipsDayOff(a, off, b);
  }

  lemma {:induction false} AccumulateSkipsDayOff(a: seq<Day>, off: Day, b: seq<Day>)
    requires off.isDayOff && Tallyable(a + [off] + b)
    ensures Tallyable(a + b)
    ensures Accumulate(a + [off] + b) == Accumulate(a + b)
    decreases |b|
  {
    var whole := a + [off] + b;
    assert Tallyable(a + b) by {
      forall i | 0 <= i < |a + b| && !(a + b)[i].isDayOff ensures |(a + b)[i].toggles| <= |Fields| {
        if i < |a| {
          assert (a + b)[i] == whole[i];
        } else {
          assert (a + b)[i] == whole[i + 1];
        }
      }
    }
    if |b| == 0 {
      assert whole[..|whole| - 1] == a;
      assert a + b == a;
    } else {
      var b' := b[..|b| - 1];
      assert whole[..|whole| - 1] == a + [off] + b';
      assert (a + b)[..|a + b| - 1] == a + b';
      assert Tallyable(a + [off] + b');
      AccumulateSkipsDayOff(a, off, b');
    }
  }

  /** A week whose every row is a day off has all-zero statistics and a zero percentage. */
  lemma {:induction false} AllDaysOff(w: WeekRecord)
    requires forall i :: 0 <= i < |w.days| ==> w.days[i].isDayOff
    ensures Tallyable(w.days)
    ensures WeekStatsOf(w) == WeekStats(0, 0, Zero, 0, 0, seq(|Fields|, _ => Tally(0, 0)))
  {
    AllDaysOffAccumulate(w.days);
  }

  lemma {:induction false} AllDaysOffAccumulate(days: seq<Day>)
    requires forall i :: 0 <= i < |days| ==> days[i].isDayOff
    ensures Tallyable(days)
    ensures Accumulate(days) == Start()
    decreases |days|
  {
    if |days| > 0 {
      var init := days[..|days| - 1];
      assert Tallyable(init);
      assert forall i :: 0 <= i < |init| ==> init[i].isDayOff by {
        forall i | 0 <= i < |init| ensures init[i].isDayOff {
          assert init[i] == days[i];
        }
      }
      AllDaysOffAccumulate(init);
      assert days[|days| - 1].isDayOff;
    }
  }

  lemma {:induction false} CountWhereAll(days: seq<Day>, p: Day -> bool)
    requires forall i :: 0 <= i < |days| ==> p(days[i])
    ensures CountWhere(days, p) == |days|
  {
    if |days| > 0 {
      CountWhereAll(days[..|days| - 1], p);
    }
  }

  lemma {:induction false} SumOverConstant(days: seq<Day>, v: Day -> int, k: int)
    requires forall i :: 0 <= i < |days| ==> v(days[i]) == k
    ensures SumOver(days, v) == k * |days|
  {
    if |days| > 0 {
      SumOverConstant(days[..|days| - 1], v, k);
    }
  }

  /** A full week with every category checked on every day scores 100% with five perfect days. */
  lemma AllCheckedWeek(w: WeekRecord)
    requires WellFormed(w)
    requires forall i :: 0 <= i < |w.days| ==> !w.days[i].isDayOff && AllOnes(w.days[i])
    ensures Tallyable(w.days)
    ensures WeekStatsOf(w).percentage == Ratio(25, 25)
    ensures WeekStatsOf(w).perfectDays == 5 && WeekStatsOf(w).activeDays == 5
  {
    WeekStatsInvariants(w);
    AccumulateMatchesReference(w.days);
    CountWhereAll(w.days, (d: Day) => !d.isDayOff);
    CountWhereAll(w.days, (d: Day) => !d.isDayOff && AllOnes(d));
    forall i | 0 <= i < |w.days| ensures Sum(w.days[i].toggles) == |Fields| {
      PerfectIffAllOnes(w.days[i]);
    }
    SumOverConstant(w.days, (d: Day) => if d.isDayOff then 0 else Sum(d.toggles), 5);
  }

  /** Two active days, one with 5/5 and one with 2/5, and three days off: 7 of 10 points, one perfect day. */
  lemma TwoActiveDaysExample()
    ensures var full := Day([1, 1, 1, 1, 1], "", false);
            var partial := Day([1, 1, 0, 0, 0], "", false);
            var off := Day([0, 0, 0, 0, 0], "", true);
            var w := WeekRecord(DateRange("2024-01-01", "2024-01-05"), [full, partial, off, off, off]);
            && Tallyable(w.days)
            && WeekStatsOf(w).activeDays == 2
            && WeekStatsOf(w).totalPossible == 10
            && WeekStatsOf(w).totalChecked == 7
            && WeekStatsOf(w).percentage == Ratio(7, 10)
            && WeekStatsOf(w).perfectDays == 1
  {
    var full := Day([1, 1, 1, 1, 1], "", false);
    var partial := Day([1, 1, 0, 0, 0], "", false);
    var off := Day([0, 0, 0, 0, 0], "", true);
    var days := [full, partial, off, off, off];
    assert Sum(full.toggles) == 5 by {
      assert full.toggles[..4] == [1, 1, 1, 1];
      assert [1, 1, 1, 1][..3] == [1, 1, 1];
      assert [1, 1, 1][..2] == [1, 1];
      assert [1, 1][..1] == [1];
    }
    assert Sum(partial.toggles) == 2 by {
      assert partial.toggles[..4] == [1, 1, 0, 0];
      assert [1, 1, 0, 0][..3] == [1, 1, 0];
      assert [1, 1, 0][..2] == [1, 1];
      assert [1, 1][..1] == [1];
    }
    assert Tallyable(days);
    assert days[..1] == [full];
    assert days[..2] == [full, partial];
    assert |Fields| == 5;
    assert [full, partial][..1] == [full];
    var none: seq<Day> := [];
    assert Accumulate(none) == Start();
    assert [full][..0] == none;
    var one := Accumulate([full]);
    assert one == AddDay(Accumulate(none), full);
    assert one.perfectDays == 1;
    var two := Accumulate([full, partial]);
    assert two == AddDay(one, partial);
    assert two.activeDays == 2 && two.totalChecked == 7 && two.perfectDays == 1;
    AccumulateSkipsDayOff([full, partial], off, [off, off]);
    AccumulateSkipsDayOff([full, partial], off, [off]);
    AccumulateSkipsDayOff([full, partial], off, []);
    assert [full, partial] + [off] + [off, off] == days;
    assert [full, partial] + [off] + [off] == [full, partial] + [off, off];
    assert [full, partial] + [off] + [] == [full, partial] + [off];
    assert [full, partial] + [] == [full, partial];
  }
}
