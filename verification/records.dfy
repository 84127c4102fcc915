/**
 * The persisted shape of a tracked week: five weekday rows, each with one
 * 0/1 toggle per tracked category, a note and a day-off flag.
 */
module Records {

  /** The weekday rows of the table, in order. */
  const DayNames: seq<string> := ["Poniedziałek", "Wtorek", "Środa", "Czwartek", "Piątek"]

  /** The five tracked categories, in column order; a day's toggles are index-aligned to them. */
  const Fields: seq<string> := ["AlertMode", "Limit", "Aligned", "Reset 5min", "Process/notPnL"]

  datatype DateRange = DateRange(start: string, end: string)

  /** One row. `toggles` holds the parsed value of each toggle cell (stored as "0"/"1"). */
  datatype Day = Day(toggles: seq<int>, note: string, isDayOff: bool)

  datatype WeekRecord = WeekRecord(dateRange: DateRange, days: seq<Day>)

  predicate IsBit(v: int) {
    v == 0 || v == 1
  }

  /** A row as the table writes it: one 0/1 value per category. */
  predicate WellFormedDay(d: Day) {
    && |d.toggles| == |Fields|
    && forall i :: 0 <= i < |d.toggles| ==> IsBit(d.toggles[i])
  }

  predicate WellFormedDays(days: seq<Day>) {
    forall i :: 0 <= i < |days| ==> WellFormedDay(days[i])
  }

  /** A week as the table writes it: one well-formed row per weekday. */
  predicate WellFormed(w: WeekRecord) {
    |w.days| == |DayNames| && WellFormedDays(w.days)
  }

  /** The new value of a clicked toggle: 1 becomes 0, anything else becomes 1. */
  function Flip(v: int): (r: int)
    ensures IsBit(r)
    ensures r == 0 <==> v == 1
    ensures IsBit(v) ==> r == 1 - v
  {
    if v == 1 then 0 else 1
  }

  /** A click on toggle `field` of row `day`. */
  function ToggleField(w: WeekRecord, day: nat, field: nat): (r: WeekRecord)
    requires day < |w.days| && field < |w.days[day].toggles|
    ensures r.dateRange == w.dateRange && |r.days| == |w.days|
    ensures forall i :: 0 <= i < |w.days| && i != day ==> r.days[i] == w.days[i]
    ensures r.days[day].note == w.days[day].note && r.days[day].isDayOff == w.days[day].isDayOff
    ensures |r.days[day].toggles| == |w.days[day].toggles|
    ensures r.days[day].toggles[field] == Flip(w.days[day].toggles[field])
    ensures forall j :: 0 <= j < |w.days[day].toggles| && j != field ==>
              r.days[day].toggles[j] == w.days[day].toggles[j]
  {
    var d := w.days[day];
    w.(days := w.days[day := d.(toggles := d.toggles[field := Flip(d.toggles[field])])])
  }

  /** A click on the day-off button of row `day`. */
  function ToggleDayOff(w: WeekRecord, day: nat): (r: WeekRecord)
    requires day < |w.days|
    ensures r.dateRange == w.dateRange && |r.days| == |w.days|
    ensures forall i :: 0 <= i < |w.days| && i != day ==> r.days[i] == w.days[i]
    ensures r.days[day].toggles == w.days[day].toggles && r.days[day].note == w.days[day].note
    ensures r.days[day].isDayOff != w.days[day].isDayOff
  {
    w.(days := w.days[day := w.days[day].(isDayOff := !w.days[day].isDayOff)])
  }

  /** Clicking a toggle or the day-off button keeps a week well formed. */
  lemma EditsPreserveWellFormed(w: WeekRecord, day: nat, field: nat)
    requires WellFormed(w) && day < |w.days| && field < |Fields|
    ensures WellFormed(ToggleField(w, day, field))
    ensures WellFormed(ToggleDayOff(w, day))
  {
    var r := ToggleField(w, day, field);
    assert WellFormedDay(r.days[day]) by {
      forall j | 0 <= j < |r.days[day].toggles|
        ensures IsBit(r.days[day].toggles[j])
      {
        if j != field {
          assert IsBit(w.days[day].toggles[j]);
        }
      }
    }
    forall i | 0 <= i < |r.days|
      ensures WellFormedDay(r.days[i])
    {
      if i != day {
        assert WellFormedDay(w.days[i]);
      }
    }
  }
}
