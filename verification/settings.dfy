/** The two goal settings and the integer clamp applied to their inputs. */
module Settings {
  import opened Wrappers

  datatype Goals = Goals(weeklyGoal: int, perfectDaysGoal: int)

  /** The goals used while none have been saved. */
  const Defaults: Goals := Goals(75, 2)

  /** The range the clamp uses when the caller gives none. */
  const DefaultMin: int := 0
  const DefaultMax: int := 100

  /**
   * Clamps an already-parsed integer input to [min, max]; an input that did
   * not parse as an integer (`None`) yields `min`. When `min > max` the
   * result is `min`, because the lower bound is applied last.
   */
  function Number(val: Option<int>, min: int, max: int): (r: int)
    ensures r >= min
    ensures min > max ==> r == min
    ensures min <= max ==> r <= max
    ensures val.None? ==> r == min
    ensures val.Some? && min <= val.value <= max ==> r == val.value
    ensures val.Some? && min <= max && val.value > max ==> r == max
    ensures val.Some? && val.value < min ==> r == min
  {
    match val
    case None => min
    case Some(n) =>
      var upper := if n < max then n else max;
      if min > upper then min else upper
  }

  /** Clamping a clamped value changes nothing. */
  lemma NumberIdempotent(val: Option<int>, min: int, max: int)
    requires min <= max
    ensures Number(Some(Number(val, min, max)), min, max) == Number(val, min, max)
  {
  }

  /** The goals in effect: the saved ones, or the defaults when none are saved. */
  function Get(stored: Option<Goals>): (g: Goals)
    ensures stored.None? ==> g == Defaults
    ensures stored.Some? ==> g == stored.value
  {
    stored.GetOr(Defaults)
  }

  /** Both goals lie in the range a save clamps to. */
  predicate InBounds(g: Goals) {
    && DefaultMin <= g.weeklyGoal <= DefaultMax
    && DefaultMin <= g.perfectDaysGoal <= DefaultMax
  }

  /**
   * The goals saved from the two setting inputs: an input in [0, 100] is kept,
   * one outside is clamped to the nearer bound, and one that is not a number
   * saves 0.
   */
  function Save(weeklyInput: Option<int>, perfectDaysInput: Option<int>): (g: Goals)
    ensures InBounds(g)
    ensures weeklyInput.None? ==> g.weeklyGoal == DefaultMin
    ensures weeklyInput.Some? && DefaultMin <= weeklyInput.value <= DefaultMax ==> g.weeklyGoal == weeklyInput.value
    ensures weeklyInput.Some? && weeklyInput.value > DefaultMax ==> g.weeklyGoal == DefaultMax
    ensures weeklyInput.Some? && weeklyInput.value < DefaultMin ==> g.weeklyGoal == DefaultMin
    ensures perfectDaysInput.None? ==> g.perfectDaysGoal == DefaultMin
    ensures perfectDaysInput.Some? && DefaultMin <= perfectDaysInput.value <= DefaultMax ==> g.perfectDaysGoal == perfectDaysInput.value
    ensures perfectDaysInput.Some? && perfectDaysInput.value > DefaultMax ==> g.perfectDaysGoal == DefaultMax
    ensures perfectDaysInput.Some? && perfectDaysInput.value < DefaultMin ==> g.perfectDaysGoal == DefaultMin
  {
    Goals(Number(weeklyInput, DefaultMin, DefaultMax), Number(perfectDaysInput, DefaultMin, DefaultMax))
  }

  /**
   * `load` fills the setting inputs with the goals in effect; saving that form
   * unchanged stores exactly those goals again. This holds for the defaults
   * and for any goals an earlier save produced.
   */
  lemma LoadSaveRoundTrip(stored: Option<Goals>)
    requires stored.Some? ==> InBounds(stored.value)
    ensures var g := Get(stored);
            Save(Some(g.weeklyGoal), Some(g.perfectDaysGoal)) == g
  {
  }
}
