/** The home schedule (ClassSchedule): a swipeable strip of three weeks, the
    selected day highlighted in it, and that day's classes from the live
    subscription, sorted by start time.  The component's state hooks are the
    fields of `ClassSchedule`.  Dates are day numbers; `iso` is
    `format("YYYY-MM-DD")` of a day. */
module Home {
  import opened ClassRecords
  import opened Sequences
  import opened Times
  import opened DaySort
  import opened WeekGrid
  import Admin
  import UseClasses

  /** Ten characters `YYYY-MM-DD`: digits, with dashes at positions 4 and 7. */
  predicate IsoShaped(s: string)
  {
    |s| == 10 && s[4] == '-' && s[7] == '-' && IsDigits(s[..4]) && IsDigits(s[5..7]) && IsDigits(s[8..])
  }

  predicate LeapYear(y: int)
  {
    y % 4 == 0 && (y % 100 != 0 || y % 400 == 0)
  }

  function DaysInMonth(y: int, m: int): int
    requires 1 <= m <= 12
  {
    if m == 2 then (if LeapYear(y) then 29 else 28)
    else if m == 4 || m == 6 || m == 9 || m == 11 then 30
    else 31
  }

  /** An ISO-shaped string naming a day of the Gregorian calendar. */
  predicate IsCalendarDate(s: string)
  {
    IsoShaped(s) &&
    var y, m, d := DigitsValue(s[..4]), DigitsValue(s[5..7]), DigitsValue(s[8..]);
    1 <= m <= 12 && 1 <= d <= DaysInMonth(y, m)
  }

  /** What `moment(date).format("YYYY-MM-DD")` gives, as far as it is modelled: a calendar date
      in ISO form renders as itself; an ISO-shaped string that names no day renders as
      `"Invalid date"`.  Every other string (other ISO 8601 forms such as a date with a time,
      RFC 2822 dates, and whatever `Date` then parses) and `undefined` (the current time) are
      `Unmodelled`. */
  datatype Rendering = Day(iso: string) | InvalidDate | Unmodelled

  function NormaliseDate(v: Value): (r: Rendering)
    ensures r.Day? <==> v.Str? && IsCalendarDate(v.s)
    ensures r.Day? ==> v == Str(r.iso)
  {
    if v.Str? && IsoShaped(v.s) then
      (if IsCalendarDate(v.s) then Day(v.s) else InvalidDate)
    else Unmodelled
  }

  /** Whether a record's normalised date is the selected day. */
  function OnSelectedDay(selected: string): ClassDetails -> bool
  {
    (c: ClassDetails) => NormaliseDate(c.date) == Day(selected)
  }

  /** The effect's filter: the records whose normalised date is the selected day. */
  function ClassesOnDay(classes: seq<ClassDetails>, selected: string): (r: seq<ClassDetails>)
    ensures |r| <= |classes|
    ensures forall i :: 0 <= i < |r| ==> r[i].date == Str(selected)
    ensures forall x :: x in r <==> x in classes && x.date == Str(selected) && IsCalendarDate(selected)
  {
    FilterMembers(classes, OnSelectedDay(selected));
    Filter(classes, OnSelectedDay(selected))
  }

  /** Exactly the records whose date is the selected calendar day are kept, each as often as it occurs. */
  lemma ClassesOnDayExactly(classes: seq<ClassDetails>, selected: string, x: ClassDetails)
    ensures x in ClassesOnDay(classes, selected) <==>
      x in classes && x.date == Str(selected) && IsCalendarDate(selected)
    ensures multiset(ClassesOnDay(classes, selected))[x] ==
      if x.date == Str(selected) && IsCalendarDate(selected) then multiset(classes)[x] else 0
  {
    FilterCount(classes, OnSelectedDay(selected), x);
    assert x in ClassesOnDay(classes, selected) <==> x in multiset(ClassesOnDay(classes, selected));
    assert x in classes <==> x in multiset(classes);
  }

  /** The kept records stay in fetched order. */
  lemma ClassesOnDayInOrder(a: seq<ClassDetails>, b: seq<ClassDetails>, selected: string)
    ensures ClassesOnDay(a + b, selected) == ClassesOnDay(a, selected) + ClassesOnDay(b, selected)
  {
    FilterAppend(a, b, OnSelectedDay(selected));
  }

  /** When every stored date is an ISO calendar date the normalisation is the identity, and the
      home filter keeps what the admin screen's exact comparison keeps. */
  lemma NormalisedFilterIsExact(classes: seq<ClassDetails>, selected: string)
    requires IsCalendarDate(selected)
    requires forall i :: 0 <= i < |classes| ==> classes[i].date.Str? && IsCalendarDate(classes[i].date.s)
    ensures ClassesOnDay(classes, selected) == Admin.ClassesOnDate(classes, selected)
  {
    FilterAgree(classes, OnSelectedDay(selected), Admin.OnDate(selected));
  }

  class ClassSchedule {
    var value: int
    var week: int
    var fetchedClasses: seq<ClassDetails>
    var filteredClasses: array<ClassDetails>
    /** `format("YYYY-MM-DD")` of a day. */
    const iso: int -> string
    /** A day on which the locale's week begins. */
    const weekAnchor: int

    /** The initial state: today selected, offset 0, nothing fetched or filtered yet. */
    constructor (today: int, iso: int -> string, weekAnchor: int)
      ensures value == today && week == 0 && fetchedClasses == []
      ensures fresh(filteredClasses) && filteredClasses.Length == 0
      ensures this.iso == iso && this.weekAnchor == weekAnchor
    {
      value := today;
      week := 0;
      fetchedClasses := [];
      filteredClasses := new ClassDetails[0];
      this.iso := iso;
      this.weekAnchor := weekAnchor;
    }

    /** `useClasses`: each subscription snapshot replaces the fetched list. */
    method OnSnapshot(snapshot: Option<WireObject>)
      modifies this`fetchedClasses
      ensures fetchedClasses == UseClasses.SnapshotClasses(snapshot)
    {
      fetchedClasses := UseClasses.SnapshotClasses(snapshot);
    }

    /** The effect on `[value, fetchedClasses]`: a new filtered array for the selected day. */
    method FilterEffect()
      modifies this`filteredClasses
      ensures fresh(filteredClasses)
      ensures filteredClasses[..] == ClassesOnDay(fetchedClasses, iso(value))
    {
      filteredClasses := NewArray(ClassesOnDay(fetchedClasses, iso(value)));
    }

    /** `sortedClasses = filteredClasses.sort(...)`: sorts the state array in place and returns it. */
    method SortClasses() returns (sortedClasses: array<ClassDetails>)
      requires AllTimed(filteredClasses[..])
      modifies filteredClasses
      ensures sortedClasses == filteredClasses
      ensures sortedClasses[..] == StableSort(old(filteredClasses[..]))
    {
      SortInPlace(filteredClasses);
      sortedClasses := filteredClasses;
    }

    /** The start of the middle week of the strip on day `today`. */
    function StartOfShownWeek(today: int): (start: int)
      reads this
      ensures start <= today + 7 * week < start + 7
      ensures (start - weekAnchor) % 7 == 0
    {
      StartOfWeek(today + 7 * week, weekAnchor)
    }

    /** `weeks`: the previous, the current and the next week of the strip. */
    function Weeks(today: int): (rows: seq<seq<int>>)
      reads this
      ensures |rows| == 3
      ensures forall r :: 0 <= r < 3 ==> rows[r] == WeekRow(StartOfShownWeek(today) + 7 * (r - 1))
    {
      WeeksGrid(StartOfShownWeek(today))
    }

    /** `isActive`: the cell shows the selected calendar day, so it formats as the selected date
        and the classes listed under the strip are the ones of that cell. */
    predicate IsActive(day: int)
      reads this
      ensures IsActive(day) ==> iso(day) == iso(value)
      ensures IsActive(day) ==> ClassesOnDay(fetchedClasses, iso(day)) == ClassesOnDay(fetchedClasses, iso(value))
    {
      day == value
    }

    /** `isActive` on the strip: each row has at most one active cell, and has one exactly
        when the selected day lies in that row's week. */
    lemma ActiveCellOnce(today: int, r: int)
      requires 0 <= r < 3
      ensures forall i, j ::
        (0 <= i < 7 && 0 <= j < 7 && IsActive(Weeks(today)[r][i]) && IsActive(Weeks(today)[r][j])) ==> i == j
      ensures (exists i :: 0 <= i < 7 && IsActive(Weeks(today)[r][i])) <==>
        Weeks(today)[r][0] <= value < Weeks(today)[r][0] + 7
    {
      ActiveAtMostOnce(Weeks(today), StartOfShownWeek(today), value, r);
    }

    /** Tapping a day selects it. */
    method SelectDay(day: int)
      modifies this`value
      ensures value == day
    {
      value := day;
    }

    /** `onIndexChanged`: index 1 is the middle page and changes nothing; any other index moves
        the strip and the selected day by `ind - 1` weeks. */
    method OnIndexChanged(ind: int)
      modifies this`week, this`value
      ensures ind == 1 ==> week == old(week) && value == old(value)
      ensures ind != 1 ==> week == old(week) + (ind - 1) && value == old(value) + 7 * (ind - 1)
      ensures forall today :: StartOfShownWeek(today) == old(StartOfShownWeek(today)) + 7 * (ind - 1)
      ensures forall today, r, i :: 0 <= r < 3 && 0 <= i < 7 ==>
        (IsActive(Weeks(today)[r][i]) <==> old(IsActive(Weeks(today)[r][i])))
    {
      if ind == 1 {
        return;
      }
      var newIndex := ind - 1;
      week := week + newIndex;
      value := value + 7 * newIndex;
      forall today ensures StartOfShownWeek(today) == old(StartOfShownWeek(today)) + 7 * newIndex {
        OffsetShift(today, old(week), newIndex, weekAnchor);
      }
      forall today, r, i | 0 <= r < 3 && 0 <= i < 7
        ensures IsActive(Weeks(today)[r][i]) <==> old(IsActive(Weeks(today)[r][i]))
      {
        OffsetShift(today, old(week), newIndex, weekAnchor);
        SwipeKeepsHighlight(old(StartOfShownWeek(today)), StartOfShownWeek(today), old(value), newIndex);
      }
    }
  }

  /** A row of the strip highlights at most one day, and one exactly when the selected day is in it. */
  lemma ActiveAtMostOnce(rows: seq<seq<int>>, start: int, value: int, r: int)
    requires rows == WeeksGrid(start) && 0 <= r < 3
    ensures forall i, j :: 0 <= i < 7 && 0 <= j < 7 && rows[r][i] == value && rows[r][j] == value ==> i == j
    ensures (exists i :: 0 <= i < 7 && rows[r][i] == value) <==> rows[r][0] <= value < rows[r][0] + 7
  {
    WeekRowAtMostOne(rows[r][0], value);
  }

  /** A swipe moves the strip and the selected day by the same number of weeks, so the same
      cell (row and column) stays highlighted. */
  lemma SwipeKeepsHighlight(start: int, start': int, value: int, n: int)
    requires start' == start + 7 * n
    ensures forall r, i :: 0 <= r < 3 && 0 <= i < 7 ==>
      (WeeksGrid(start')[r][i] == value + 7 * n <==> WeeksGrid(start)[r][i] == value)
  {
  }
}
