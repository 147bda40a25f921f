/**
 * The weekly business-hours editor: one form per weekday holding an
 * `enabled` toggle and a list of shift rows. The form is filled from the
 * stored schedule (either a list of shifts or the older single
 * open/close/closed record), edited in place (add, remove, reset), emitted
 * back as a schedule of complete shifts, and checked shift by shift for
 * ordering and overlap of "HH:mm" times compared as strings.
 *
 * A time the user has not filled in is the empty text, the only falsy
 * string.
 */
module BusinessHours {
  import opened Common
  import opened Clock

  datatype DayKey = Monday | Tuesday | Wednesday | Thursday | Friday | Saturday | Sunday

  const DaysOfWeek: seq<DayKey> := [Monday, Tuesday, Wednesday, Thursday, Friday, Saturday, Sunday]

  /** The position of a weekday in the week. */
  function DayIndex(d: DayKey): (i: nat)
    ensures i < |DaysOfWeek| && DaysOfWeek[i] == d
  {
    match d
    case Monday => 0
    case Tuesday => 1
    case Wednesday => 2
    case Thursday => 3
    case Friday => 4
    case Saturday => 5
    case Sunday => 6
  }

  datatype Shift = Shift(open: string, close: string)

  /** The row `createShiftFormGroup()` adds when given no shift. */
  const DefaultShift := Shift("09:00", "19:00")

  /** A stored day: a list of shifts, the older single record, or nothing usable. */
  datatype DaySchedule =
    | ShiftList(shifts: seq<Shift>)
    | LegacyHours(open: string, close: string, closed: bool)
    | NoSchedule

  /** One weekday of the form. */
  datatype DayForm = DayForm(enabled: bool, shifts: seq<Shift>)

  predicate Complete(s: Shift) {
    s.open != "" && s.close != ""
  }

  /** The shifts a stored day yields; an older record yields one unless closed or missing a time. */
  function ScheduleShifts(d: DaySchedule): (shifts: seq<Shift>)
    ensures d.LegacyHours? ==>
      (shifts == if !d.closed && d.open != "" && d.close != "" then [Shift(d.open, d.close)] else [])
    ensures d.NoSchedule? ==> shifts == []
    ensures d.ShiftList? ==> shifts == d.shifts
  {
    match d
    case ShiftList(s) => s
    case LegacyHours(o, c, closed) => if !closed && o != "" && c != "" then [Shift(o, c)] else []
    case NoSchedule => []
  }

  /** `createShiftFormGroup(shift)`: a missing time falls back to the default one. */
  function FormShift(s: Shift): (r: Shift)
    ensures Complete(r)
    ensures Complete(s) ==> r == s
  {
    Shift(if s.open != "" then s.open else DefaultShift.open,
          if s.close != "" then s.close else DefaultShift.close)
  }

  function FormShifts(s: seq<Shift>): (r: seq<Shift>)
    ensures |r| == |s| && forall i :: 0 <= i < |s| ==> r[i] == FormShift(s[i])
  {
    if |s| == 0 then [] else [FormShift(s[0])] + FormShifts(s[1..])
  }

  /**
   * The form `initializeForm` builds for one stored day: enabled exactly when
   * the day yields a shift; the yielded shifts as rows, or one default row
   * when there are none.
   */
  function InitialDay(d: DaySchedule): (f: DayForm)
    ensures f.enabled <==> |ScheduleShifts(d)| > 0
    ensures f.enabled ==> f.shifts == FormShifts(ScheduleShifts(d))
    ensures !f.enabled ==> f.shifts == [DefaultShift]
    ensures |f.shifts| >= 1
  {
    var shifts := ScheduleShifts(d);
    DayForm(|shifts| > 0, if |shifts| > 0 then FormShifts(shifts) else [DefaultShift])
  }

  /** A closed older record, or one missing a time, starts disabled with one default row. */
  lemma ClosedLegacyDayStartsDisabled(o: string, c: string, closed: bool)
    requires closed || o == "" || c == ""
    ensures InitialDay(LegacyHours(o, c, closed)) == DayForm(false, [DefaultShift])
  {
  }

  /** The stored day of a weekday; a weekday missing from the stored schedule has none. */
  function ScheduleOf(input: map<DayKey, DaySchedule>, d: DayKey): DaySchedule {
    if d in input then input[d] else NoSchedule
  }

  // ---------------------------------------------------------------------------
  // Pure helpers of the edits and of the emitted schedule

  /** `FormArray.removeAt(index)`: the row at `index` goes, the rest keep their order. */
  function RemoveAt(s: seq<Shift>, index: nat): (r: seq<Shift>)
    requires index < |s|
    ensures |r| == |s| - 1
    ensures forall j :: 0 <= j < index ==> r[j] == s[j]
    ensures forall j :: index <= j < |r| ==> r[j] == s[j + 1]
  {
    s[..index] + s[index + 1..]
  }

  /** The complete shifts of a list, in order. */
  function CompleteShifts(s: seq<Shift>): (r: seq<Shift>)
    ensures |r| <= |s|
  {
    if |s| == 0 then [] else (if Complete(s[0]) then [s[0]] else []) + CompleteShifts(s[1..])
  }

  /**
   * The filter keeps every complete shift as often as it occurs and drops
   * every incomplete one.
   */
  lemma {:induction false} CompleteShiftsCounts(s: seq<Shift>, x: Shift)
    ensures multiset(CompleteShifts(s))[x] == if Complete(x) then multiset(s)[x] else 0
  {
    if |s| > 0 {
      CompleteShiftsCounts(s[1..], x);
      assert s == [s[0]] + s[1..];
    }
  }

  /** The filter distributes over concatenation, so it keeps the order of the shifts it keeps. */
  lemma {:induction false} CompleteShiftsAppend(a: seq<Shift>, b: seq<Shift>)
    ensures CompleteShifts(a + b) == CompleteShifts(a) + CompleteShifts(b)
  {
    if |a| > 0 {
      CompleteShiftsAppend(a[1..], b);
      assert (a + b)[1..] == a[1..] + b;
    } else {
      assert a + b == b;
    }
  }

  /** A list of complete shifts passes the filter unchanged. */
  lemma {:induction false} CompleteShiftsKeepsComplete(s: seq<Shift>)
    requires forall i :: 0 <= i < |s| ==> Complete(s[i])
    ensures CompleteShifts(s) == s
  {
    if |s| > 0 {
      CompleteShiftsKeepsComplete(s[1..]);
      assert s == [s[0]] + s[1..];
    }
  }

  /** Every form row is complete, so the filter keeps them all. */
  lemma FormShiftsComplete(s: seq<Shift>)
    ensures CompleteShifts(FormShifts(s)) == FormShifts(s)
  {
    CompleteShiftsKeepsComplete(FormShifts(s));
  }

  /**
   * `emitChanges` over a whole form: the enabled days with at least one row,
   * each with its complete shifts in order.
   */
  function EmitHours(days: map<DayKey, DayForm>): (hours: map<DayKey, seq<Shift>>)
    ensures forall d :: d in hours <==> d in days && days[d].enabled && |days[d].shifts| > 0
  {
    map d | d in days && days[d].enabled && |days[d].shifts| > 0 :: CompleteShifts(days[d].shifts)
  }

  /**
   * Filling the form from a stored list of complete shifts and emitting it
   * gives the list back; an older open record comes back as its one shift;
   * a day that yields no shift is not emitted.
   */
  lemma EmitInitialDay(day: DayKey, d: DaySchedule)
    requires d.ShiftList? ==> forall i :: 0 <= i < |d.shifts| ==> Complete(d.shifts[i])
    ensures var hours := EmitHours(map[day := InitialDay(d)]);
      (day in hours <==> |ScheduleShifts(d)| > 0)
      && (day in hours ==> hours[day] == ScheduleShifts(d))
  {
    var shifts := ScheduleShifts(d);
    if |shifts| > 0 {
      FormShiftsComplete(shifts);
      assert forall i :: 0 <= i < |shifts| ==> Complete(shifts[i]);
      assert FormShifts(shifts) == shifts;
    }
  }

  // ---------------------------------------------------------------------------
  // Shift validation

  const OrderError := "La hora de cierre debe ser posterior a la hora de apertura"
  const OverlapError := "Los horarios no pueden solaparse"

  /** JavaScript's `a <= b` on strings. */
  predicate LexLe(a: string, b: string) {
    !LexLess(b, a)
  }

  /** The three-clause overlap test of `validateShiftTimes`. */
  predicate Clash(a: Shift, b: Shift) {
    (LexLe(b.open, a.open) && LexLess(a.open, b.close))
    || (LexLess(b.open, a.close) && LexLe(a.close, b.close))
    || (LexLe(a.open, b.open) && LexLe(b.close, a.close))
  }

  /** A shift that closes after it opens. */
  predicate WellOrdered(s: Shift) {
    LexLess(s.open, s.close)
  }

  /** What `validateShiftTimes` reports for row `index` of a day's rows. */
  function ShiftError(shifts: seq<Shift>, index: nat): Option<string>
    requires index < |shifts|
  {
    var s := shifts[index];
    if !Complete(s) then None
    else if !WellOrdered(s) then Some(OrderError)
    else if exists i :: 0 <= i < |shifts| && i != index && Complete(shifts[i]) && Clash(s, shifts[i]) then Some(OverlapError)
    else None
  }

  /**
   * For well-ordered shifts the three-clause test is the overlap of the
   * half-open intervals [open, close): each opens before the other closes.
   */
  lemma ClashIsOverlap(a: Shift, b: Shift)
    requires WellOrdered(a) && WellOrdered(b)
    ensures Clash(a, b) <==> LexLess(a.open, b.close) && LexLess(b.open, a.close)
  {
    LexLessTotal(a.open, b.open);
    LexLessTotal(a.close, b.close);
    LexLessTotal(a.open, b.close);
    LexLessTotal(b.open, a.close);
    LexLessTotal(a.open, a.close);
    LexLessTotal(b.open, b.close);
    if Clash(a, b) {
      if LexLe(b.open, a.open) && LexLess(a.open, b.close) {
        LessAfterLe(b.open, a.open, a.close);
      } else if LexLess(b.open, a.close) && LexLe(a.close, b.close) {
        LessBeforeLe(a.open, a.close, b.close);
      } else {
        LessAfterLe(a.open, b.open, b.close);
        LessBeforeLe(a.open, b.close, a.close);
        LessBeforeLe(b.open, b.close, a.close);
      }
    }
  }

  /** `a <= b < c` gives `a < c`. */
  lemma LessAfterLe(a: string, b: string, c: string)
    requires LexLe(a, b) && LexLess(b, c)
    ensures LexLess(a, c)
  {
    LexLessTotal(a, b);
    if a != b {
      LexLessTransitive(a, b, c);
    }
  }

  /** `a < b <= c` gives `a < c`. */
  lemma LessBeforeLe(a: string, b: string, c: string)
    requires LexLess(a, b) && LexLe(b, c)
    ensures LexLess(a, c)
  {
    LexLessTotal(b, c);
    if b != c {
      LexLessTransitive(a, b, c);
    }
  }

  /** Shifts that only touch (one closes when the other opens) do not clash. */
  lemma TouchingShiftsAccepted(a: Shift, b: Shift)
    requires WellOrdered(a) && WellOrdered(b) && a.close == b.open
    ensures !Clash(a, b) && !Clash(b, a)
  {
    ClashIsOverlap(a, b);
    ClashIsOverlap(b, a);
    LexLessIrreflexive(a.close);
    LexLessTotal(b.open, a.close);
  }

  /** For well-ordered shifts the test is symmetric. */
  lemma ClashSymmetric(a: Shift, b: Shift)
    requires WellOrdered(a) && WellOrdered(b)
    ensures Clash(a, b) <==> Clash(b, a)
  {
    ClashIsOverlap(a, b);
    ClashIsOverlap(b, a);
  }

  /**
   * On canonical clock texts the test is the overlap of the minute
   * intervals: each starts before the other ends.
   */
  lemma ClashInMinutes(a: Shift, b: Shift)
    requires IsCanonicalClock(a.open) && IsCanonicalClock(a.close)
    requires IsCanonicalClock(b.open) && IsCanonicalClock(b.close)
    requires WellOrdered(a) && WellOrdered(b)
    ensures Clash(a, b) <==>
      ParseClock(a.open).value < ParseClock(b.close).value && ParseClock(b.open).value < ParseClock(a.close).value
  {
    ClashIsOverlap(a, b);
    CanonicalOrder(a.open, b.close);
    CanonicalOrder(b.open, a.close);
  }

  // ---------------------------------------------------------------------------
  // The editor

  class HoursEditor {
    var days: map<DayKey, DayForm>

    /** Every weekday has its form, with at least one row. */
    predicate Valid()
      reads this
    {
      forall d: DayKey :: d in days && |days[d].shifts| >= 1
    }

    /** `initializeForm`: one form per weekday from the stored schedule. */
    constructor(input: map<DayKey, DaySchedule>)
      ensures Valid()
      ensures forall d: DayKey :: days[d] == InitialDay(ScheduleOf(input, d))
    {
      var built: map<DayKey, DayForm> := map[];
      var i := 0;
      while i < |DaysOfWeek|
        invariant 0 <= i <= |DaysOfWeek|
        invariant forall d :: d in built <==> d in DaysOfWeek[..i]
        invariant forall d :: d in built ==> built[d] == InitialDay(ScheduleOf(input, d))
      {
        var d := DaysOfWeek[i];
        built := built[d := InitialDay(ScheduleOf(input, d))];
        i := i + 1;
      }
      assert DaysOfWeek[..i] == DaysOfWeek;
      forall d: DayKey
        ensures d in DaysOfWeek
      {
        assert DaysOfWeek[DayIndex(d)] == d;
      }
      days := built;
    }

    /** `addShift`: one default row is appended. */
    method AddShift(day: DayKey)
      requires Valid()
      modifies this
      ensures Valid()
      ensures days == old(days)[day := old(days)[day].(shifts := old(days)[day].shifts + [DefaultShift])]
    {
      days := days[day := days[day].(shifts := days[day].shifts + [DefaultShift])];
    }

    /**
     * `removeShift`: with a single row nothing happens; otherwise the row at
     * `index` goes, and an index past the end removes nothing.
     */
    method RemoveShift(day: DayKey, index: nat)
      requires Valid()
      modifies this
      ensures Valid()
      ensures |old(days)[day].shifts| > 1 && index < |old(days)[day].shifts| ==>
        days == old(days)[day := old(days)[day].(shifts := RemoveAt(old(days)[day].shifts, index))]
      ensures |old(days)[day].shifts| <= 1 || index >= |old(days)[day].shifts| ==> days == old(days)
    {
      var shifts := days[day].shifts;
      if |shifts| > 1 && index < |shifts| {
        days := days[day := days[day].(shifts := RemoveAt(shifts, index))];
      }
    }

    /** `toggleDay`: a day that is now off is reset to exactly one default row. */
    method ToggleDay(day: DayKey)
      requires Valid()
      modifies this
      ensures Valid()
      ensures !old(days)[day].enabled ==> days == old(days)[day := DayForm(false, [DefaultShift])]
      ensures old(days)[day].enabled ==> days == old(days)
    {
      if !days[day].enabled {
        days := days[day := DayForm(false, [DefaultShift])];
      }
    }

    /** `emitChanges`. */
    function Emitted(): map<DayKey, seq<Shift>>
      reads this
    {
      EmitHours(days)
    }

    /** `validateShiftTimes`: the first problem with row `index`, if any. */
    method ValidateShiftTimes(day: DayKey, index: nat) returns (error: Option<string>)
      requires Valid() && index < |days[day].shifts|
      ensures error == ShiftError(days[day].shifts, index)
    {
      var shifts := days[day].shifts;
      var shift := shifts[index];
      if shift.open == "" || shift.close == "" {
        return None;
      }
      if LexLe(shift.close, shift.open) {
        return Some(OrderError);
      }
      var i := 0;
      while i < |shifts|
        invariant 0 <= i <= |shifts|
        invariant forall j :: 0 <= j < i && j != index && Complete(shifts[j]) ==> !Clash(shift, shifts[j])
      {
        if i != index {
          var other := shifts[i];
          if other.open != "" && other.close != "" {
            if (LexLe(other.open, shift.open) && LexLess(shift.open, other.close))
              || (LexLess(other.open, shift.close) && LexLe(shift.close, other.close))
              || (LexLe(shift.open, other.open) && LexLe(other.close, shift.close))
            {
              return Some(OverlapError);
            }
          }
        }
        i := i + 1;
      }
      return None;
    }
  }

  /** Removing a row from a day with several keeps at least one row and shortens the day by one. */
  lemma RemoveShortensByOne(s: seq<Shift>, index: nat)
    requires |s| > 1 && index < |s|
    ensures |RemoveAt(s, index)| == |s| - 1 >= 1
    ensures multiset(RemoveAt(s, index)) + multiset{s[index]} == multiset(s)
  {
    assert s == s[..index] + [s[index]] + s[index + 1..];
  }

  /** An ordering error comes before any overlap: a row that closes no later than it opens never reports an overlap. */
  lemma OrderCheckedFirst(shifts: seq<Shift>, index: nat)
    requires index < |shifts| && Complete(shifts[index]) && !WellOrdered(shifts[index])
    ensures ShiftError(shifts, index) == Some(OrderError)
  {
  }
}
