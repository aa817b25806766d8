/** Weeks over day numbers.  A day is an integer (consecutive days differ by
    one); `moment().add(n, "weeks")` adds `7 * n` days, and `startOf("week")`
    goes back to the latest day on or before it on which the locale's week
    begins.  The locale enters only as `anchor`, some day on which a week begins. */
module WeekGrid {

  /** `startOf("week")`: the first day of the week that holds `d`. */
  function StartOfWeek(d: int, anchor: int): (s: int)
    ensures s <= d < s + 7
    ensures (s - anchor) % 7 == 0
  {
    d - (d - anchor) % 7
  }

  /** Only one day within the week up to `d` begins a week. */
  lemma StartOfWeekUnique(d: int, anchor: int, s: int)
    requires s <= d < s + 7 && (s - anchor) % 7 == 0
    ensures s == StartOfWeek(d, anchor)
  {
    var t := StartOfWeek(d, anchor);
    assert (s - t) % 7 == 0;
  }

  /** Moving the day by whole weeks moves the start of its week by the same amount. */
  lemma StartOfWeekShift(d: int, n: int, anchor: int)
    ensures StartOfWeek(d + 7 * n, anchor) == StartOfWeek(d, anchor) + 7 * n
  {
    var s := StartOfWeek(d, anchor) + 7 * n;
    assert (s - anchor) % 7 == 0;
    StartOfWeekUnique(d + 7 * n, anchor, s);
  }

  /** Changing a week offset by `n` moves the start of the shown week by `n` weeks. */
  lemma OffsetShift(today: int, offset: int, n: int, anchor: int)
    ensures StartOfWeek(today + 7 * (offset + n), anchor) == StartOfWeek(today + 7 * offset, anchor) + 7 * n
  {
    var d := today + 7 * offset;
    StartOfWeekShift(d, n, anchor);
    assert today + 7 * (offset + n) == d + 7 * n;
  }

  /** Seven consecutive days from `start`. */
  function WeekRow(start: int): (row: seq<int>)
    ensures |row| == 7
    ensures forall i :: 0 <= i < 7 ==> row[i] == start + i
  {
    seq(7, i => start + i)
  }

  /** A row started at a week start is exactly that week: the days whose week starts there. */
  lemma WeekRowIsWeek(start: int, anchor: int, x: int)
    requires (start - anchor) % 7 == 0
    ensures x in WeekRow(start) <==> StartOfWeek(x, anchor) == start
  {
    var row := WeekRow(start);
    if x in row {
      var i :| 0 <= i < 7 && row[i] == x;
      StartOfWeekUnique(x, anchor, start);
    }
    if StartOfWeek(x, anchor) == start {
      assert row[x - start] == x;
    }
  }

  /** The same, for every day at once. */
  lemma WeekRowIsWeekAll(start: int, anchor: int)
    requires (start - anchor) % 7 == 0
    ensures forall x :: x in WeekRow(start) <==> StartOfWeek(x, anchor) == start
  {
    forall x ensures x in WeekRow(start) <==> StartOfWeek(x, anchor) == start {
      WeekRowIsWeek(start, anchor, x);
    }
  }

  /** Each day of a row is the highlighted one exactly when it equals the selected day. */
  lemma WeekRowAtMostOne(start: int, value: int)
    ensures forall i, j :: 0 <= i < 7 && 0 <= j < 7 && WeekRow(start)[i] == value && WeekRow(start)[j] == value ==> i == j
    ensures (exists i :: 0 <= i < 7 && WeekRow(start)[i] == value) <==> start <= value < start + 7
  {
    if start <= value < start + 7 {
      assert WeekRow(start)[value - start] == value;
    }
  }

  /** Three rows, for the week before, the week of, and the week after `start`. */
  function WeeksGrid(start: int): (rows: seq<seq<int>>)
    ensures |rows| == 3
    ensures forall r :: 0 <= r < 3 ==> rows[r] == WeekRow(start + 7 * (r - 1))
  {
    seq(3, r => WeekRow(start + 7 * (r - 1)))
  }

  /** Read row by row, the grid is 21 consecutive days beginning one week before `start`. */
  lemma WeeksGridConsecutive(start: int)
    ensures var rows := WeeksGrid(start);
      forall r, i :: 0 <= r < 3 && 0 <= i < 7 ==> rows[r][i] == start - 7 + (7 * r + i)
  {
  }
}
