/** Wall-clock times as the schedule screens read them:
    `time.split(":").map(Number)` destructured into `[h, m]`, and `h * 60 + m`.
    `Number` is modelled only on strings of decimal digits (the empty string
    converts to 0); outside digit strings the model does not follow `Number`.
    The value is the exact integer; `Number` rounds it to a double. */
module Times {

  predicate IsDigit(c: char)
  {
    '0' <= c <= '9'
  }

  predicate IsDigits(s: string)
  {
    forall i :: 0 <= i < |s| ==> IsDigit(s[i])
  }

  function DigitValue(c: char): (n: nat)
    requires IsDigit(c)
    ensures n < 10
  {
    c as int - '0' as int
  }

  /** `Number(s)` for a string of decimal digits, read most significant digit first. */
  function DigitsValue(s: string): (v: nat)
    requires IsDigits(s)
    ensures s == [] ==> v == 0
    ensures |s| == 1 ==> v == DigitValue(s[0])
    ensures s != [] && s[0] == '0' ==> v == DigitsValue(s[1..])
  {
    if s == [] then 0
    else
      var init := s[..|s| - 1];
      assert |s| >= 2 ==> init[1..] == s[1..][..|s| - 2] && s[1..][|s| - 2] == s[|s| - 1];
      10 * DigitsValue(init) + DigitValue(s[|s| - 1])
  }

  /** `s.split(":")`: the pieces between the colons, from left to right. */
  function SplitColon(s: string): (parts: seq<string>)
    ensures |parts| >= 1
  {
    if s == [] then [""]
    else if s[0] == ':' then [""] + SplitColon(s[1..])
    else
      var rest := SplitColon(s[1..]);
      [[s[0]] + rest[0]] + rest[1..]
  }

  /** `parts.join(":")`. */
  function JoinColon(parts: seq<string>): string
    requires |parts| >= 1
  {
    if |parts| == 1 then parts[0] else parts[0] + ":" + JoinColon(parts[1..])
  }

  /** Splitting loses nothing: the pieces hold no colon and joining them gives back `s`. */
  lemma {:induction false} SplitColonJoin(s: string)
    ensures JoinColon(SplitColon(s)) == s
    ensures forall i :: 0 <= i < |SplitColon(s)| ==> ':' !in SplitColon(s)[i]
  {
    if s != [] {
      SplitColonJoin(s[1..]);
      var rest := SplitColon(s[1..]);
      if s[0] == ':' {
        assert SplitColon(s)[1..] == rest;
        assert s == ":" + s[1..];
      } else {
        var parts := SplitColon(s);
        assert parts[0] == [s[0]] + rest[0];
        assert parts[1..] == rest[1..];
        if |rest| == 1 {
          assert s == [s[0]] + s[1..];
        } else {
          assert JoinColon(rest) == rest[0] + ":" + JoinColon(rest[1..]);
          assert s == [s[0]] + s[1..];
        }
        forall i | 0 <= i < |parts| ensures ':' !in parts[i] {
          if i > 0 { assert parts[i] == rest[i]; }
        }
      }
    }
  }

  /** A colon-free prefix followed by a colon becomes the first piece. */
  lemma {:induction false} SplitColonAfterPiece(h: string, t: string)
    requires ':' !in h
    ensures SplitColon(h + ":" + t) == [h] + SplitColon(t)
  {
    if h == [] {
      assert h + ":" + t == [':'] + t;
      assert ([':'] + t)[1..] == t;
    } else {
      assert (h + ":" + t)[0] == h[0];
      assert (h + ":" + t)[1..] == h[1..] + ":" + t;
      SplitColonAfterPiece(h[1..], t);
      assert [h[0]] + h[1..] == h;
    }
  }

  /** A colon-free string is a single piece. */
  lemma {:induction false} SplitColonNoColon(m: string)
    requires ':' !in m
    ensures SplitColon(m) == [m]
  {
    if m != [] {
      SplitColonNoColon(m[1..]);
      assert [m[0]] + m[1..] == m;
    }
  }

  lemma DigitsHaveNoColon(s: string)
    requires IsDigits(s)
    ensures ':' !in s
  {
    forall i | 0 <= i < |s| ensures s[i] != ':' {
      assert IsDigit(s[i]);
    }
  }

  /** The times the comparator is defined on: at least two pieces, the first two all digits. */
  predicate ValidTime(s: string)
  {
    var parts := SplitColon(s);
    |parts| >= 2 && IsDigits(parts[0]) && IsDigits(parts[1])
  }

  /** `toMinutes` / `parseTime`: minutes since midnight. */
  function ToMinutes(s: string): (m: nat)
    requires ValidTime(s)
    ensures m >= 60 * DigitsValue(SplitColon(s)[0])
    ensures DigitsValue(SplitColon(s)[1]) < 60 ==>
      m / 60 == DigitsValue(SplitColon(s)[0]) && m % 60 == DigitsValue(SplitColon(s)[1])
  {
    var parts := SplitColon(s);
    DigitsValue(parts[0]) * 60 + DigitsValue(parts[1])
  }

  /** On an `"H:MM"` string of digits, `toMinutes` is `H * 60 + MM`. */
  lemma ToMinutesOfClock(h: string, m: string)
    requires IsDigits(h) && IsDigits(m)
    ensures ValidTime(h + ":" + m)
    ensures ToMinutes(h + ":" + m) == DigitsValue(h) * 60 + DigitsValue(m)
  {
    DigitsHaveNoColon(h);
    DigitsHaveNoColon(m);
    SplitColonAfterPiece(h, m);
    SplitColonNoColon(m);
  }

  /** Minutes are compared as numbers, not as text: `"9:00"` comes before `"10:00"`. */
  lemma UnpaddedHourComesFirst()
    ensures ValidTime("9:00") && ValidTime("10:00")
    ensures ToMinutes("9:00") == 540 && ToMinutes("10:00") == 600
  {
    ToMinutesOfClock("9", "00");
    ToMinutesOfClock("10", "00");
    assert "9" + ":" + "00" == "9:00";
    assert "10" + ":" + "00" == "10:00";
  }
}
