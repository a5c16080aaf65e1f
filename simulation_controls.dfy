/** `formatTime` of src/components/SimulationControls.tsx: the simulation
    clock shown as hours, minutes and seconds, each left-padded with '0' to
    two characters and joined by ':'. */
module SimulationControls {
  import opened Entities

  /** Scaling by a positive factor keeps order. */
  lemma MulLe(a: real, b: real, y: real)
    requires 0.0 < y && a <= b
    ensures a * y <= b * y
  {
  }

  /** Scaling by a positive factor keeps strict order. */
  lemma MulLt(a: real, b: real, y: real)
    requires 0.0 < y && a < b
    ensures a * y < b * y
  {
  }

  /** Order between multiples of a positive factor is the order of the
      multiplicands. */
  lemma CancelLe(a: real, b: real, y: real)
    requires 0.0 < y && a * y <= b * y
    ensures a <= b
  {
    if b < a {
      MulLt(b, a, y);
      assert false;
    }
  }

  /** Strict order between multiples of a positive factor is the strict
      order of the multiplicands. */
  lemma CancelLt(a: real, b: real, y: real)
    requires 0.0 < y && a * y < b * y
    ensures a < b
  {
    if b <= a {
      MulLe(b, a, y);
      assert false;
    }
  }

  /** Dividing by y and multiplying back gives x. */
  lemma DivThenMul(x: real, y: real)
    requires 0.0 < y
    ensures (x / y) * y == x
  {
  }

  /** x / y lies in [q, q + 1) when x lies in [q * y, (q + 1) * y). */
  lemma FloorFromBounds(x: real, y: real, q: int)
    requires 0.0 < y
    requires q as real * y <= x < (q as real + 1.0) * y
    ensures (x / y).Floor == q
  {
    var z := x / y;
    assert z * y == x by {
      DivThenMul(x, y);
    }
    assert q as real <= z by {
      CancelLe(q as real, z, y);
    }
    assert z < q as real + 1.0 by {
      CancelLt(z, q as real + 1.0, y);
    }
  }

  /** A product of whole numbers is the same taken as reals. */
  lemma CastMul(a: int, b: int)
    ensures (a * b) as real == a as real * b as real
  {
  }

  /** `Math.floor(x / d)` for a whole divisor is the whole quotient of
      `Math.floor(x)`. */
  lemma FloorDiv(x: real, d: int)
    requires 0.0 <= x && 0 < d
    ensures (x / d as real).Floor == x.Floor / d
  {
    var n := x.Floor;
    var q := n / d;
    assert q * d <= n < (q + 1) * d;
    CastMul(q, d);
    CastMul(q + 1, d);
    FloorFromBounds(x, d as real, q);
  }

  /** JavaScript `x % d` for x >= 0 and a whole divisor d > 0: x less the
      largest whole multiple of d that does not exceed it. It keeps the
      fraction of x and reduces the whole part of x modulo d, which fixes
      the result and puts it in [0, d). */
  function JsRem(x: real, d: int): (r: real)
    requires 0.0 <= x && 0 < d
    ensures r.Floor == x.Floor % d
    ensures r - r.Floor as real == x - x.Floor as real
    ensures 0.0 <= r < d as real
  {
    FloorDiv(x, d);
    var n := x.Floor;
    var q := n / d;
    CastMul(q, d);
    assert (x - (q * d) as real).Floor == n - q * d;
    x - (x / d as real).Floor as real * d as real
  }

  /** The three fields `formatTime` prints. */
  datatype Clock = Clock(hours: int, minutes: int, secs: int)

  /** Splitting whole seconds into hours, minutes and seconds and adding
      them back up gives the whole seconds again. */
  lemma ClockArithmetic(n: int)
    requires 0 <= n
    ensures 0 <= (n % 3600) / 60 < 60
    ensures n / 3600 * 3600 + (n % 3600) / 60 * 60 + n % 60 == n
  {
    assert n % 3600 == (n % 3600) / 60 * 60 + (n % 3600) % 60;
    assert n == n / 3600 * 3600 + n % 3600;
    assert n % 60 == (n % 3600) % 60 by {
      assert n == (n / 3600 * 60) * 60 + n % 3600;
    }
  }

  /** The three floors of `formatTime` in terms of the whole seconds n. */
  lemma FieldFloors(seconds: real)
    requires 0.0 <= seconds
    ensures (seconds / 3600.0).Floor == seconds.Floor / 3600
    ensures (JsRem(seconds, 3600) / 60.0).Floor == (seconds.Floor % 3600) / 60
    ensures JsRem(seconds, 60).Floor == seconds.Floor % 60
  {
    FloorDiv(seconds, 3600);
    FloorDiv(JsRem(seconds, 3600), 60);
  }

  /** `hours`, `minutes` and `secs` of `formatTime`: whole minutes and
      seconds below 60, and together exactly the whole seconds elapsed. */
  function Fields(seconds: real): (c: Clock)
    requires 0.0 <= seconds
    ensures 0 <= c.hours && 0 <= c.minutes < 60 && 0 <= c.secs < 60
    ensures c.hours * 3600 + c.minutes * 60 + c.secs == seconds.Floor
  {
    FieldFloors(seconds);
    ClockArithmetic(seconds.Floor);
    Clock((seconds / 3600.0).Floor, (JsRem(seconds, 3600) / 60.0).Floor, JsRem(seconds, 60).Floor)
  }

  predicate IsDigit(c: char) {
    '0' <= c <= '9'
  }

  predicate AllDigits(s: string) {
    forall i :: 0 <= i < |s| ==> IsDigit(s[i])
  }

  function DigitChar(d: int): (c: char)
    requires 0 <= d < 10
    ensures IsDigit(c) && c as int - '0' as int == d
  {
    ('0' as int + d) as char
  }

  /** `n.toString()` for a whole number n >= 0: its decimal digits, with no
      leading zero. */
  function DecimalString(n: nat): (s: string)
    ensures 1 <= |s| && AllDigits(s)
    ensures |s| == 1 || s[0] != '0'
    ensures n < 10 <==> |s| == 1
    ensures 10 <= n < 100 ==> |s| == 2
  {
    if n < 10 then [DigitChar(n)] else DecimalString(n / 10) + [DigitChar(n % 10)]
  }

  /** The number a string of decimal digits denotes. */
  function DigitsValue(s: string): nat
    requires AllDigits(s)
  {
    if s == [] then 0 else DigitsValue(s[..|s| - 1]) * 10 + (s[|s| - 1] as int - '0' as int)
  }

  /** Reading back the decimal string gives the number. */
  lemma {:induction false} DecimalRoundTrip(n: nat)
    ensures DigitsValue(DecimalString(n)) == n
  {
    if n >= 10 {
      DecimalRoundTrip(n / 10);
      var s := DecimalString(n);
      assert s[..|s| - 1] == DecimalString(n / 10);
    }
  }

  /** `s.padStart(2, '0')`. */
  function PadStart2(s: string): (r: string)
    ensures |r| == if |s| < 2 then 2 else |s|
    ensures r[|r| - |s|..] == s
    ensures forall i :: 0 <= i < |r| - |s| ==> r[i] == '0'
  {
    if |s| == 0 then "00" else if |s| == 1 then "0" + s else s
  }

  /** Leading zeros do not change the number a digit string denotes. */
  lemma {:induction false} LeadingZeroValue(s: string)
    requires AllDigits(s)
    ensures AllDigits("0" + s) && DigitsValue("0" + s) == DigitsValue(s)
  {
    if s != [] {
      var t := "0" + s;
      assert t[..|t| - 1] == "0" + s[..|s| - 1];
      LeadingZeroValue(s[..|s| - 1]);
    }
  }

  /** Padding a digit string keeps it a digit string and keeps its value. */
  lemma PadKeepsValue(s: string)
    requires AllDigits(s)
    ensures AllDigits(PadStart2(s)) && DigitsValue(PadStart2(s)) == DigitsValue(s)
  {
    if |s| == 0 {
      assert DigitsValue("0") == 0 by {
        assert "0"[..0] == [];
      }
      assert "00"[..1] == "0";
    } else if |s| == 1 {
      LeadingZeroValue(s);
    }
  }

  /** One field as `formatTime` prints it. */
  function Field(n: nat): (r: string)
    ensures 2 <= |r| && AllDigits(r) && DigitsValue(r) == n
    ensures n < 100 ==> |r| == 2
  {
    DecimalRoundTrip(n);
    PadKeepsValue(DecimalString(n));
    PadStart2(DecimalString(n))
  }

  /** `formatTime(seconds)` for seconds >= 0. */
  function FormatTime(seconds: real): string
    requires 0.0 <= seconds
  {
    var c := Fields(seconds);
    Field(c.hours) + ":" + Field(c.minutes) + ":" + Field(c.secs)
  }

  /** Reads an `H:MM:SS` clock with at least two hour digits. */
  function ParseClock(s: string): Option<Clock> {
    var n := |s|;
    if n >= 8 && s[n - 6] == ':' && s[n - 3] == ':'
       && AllDigits(s[..n - 6]) && AllDigits(s[n - 5..n - 3]) && AllDigits(s[n - 2..])
    then Some(Clock(DigitsValue(s[..n - 6]), DigitsValue(s[n - 5..n - 3]), DigitsValue(s[n - 2..])))
    else None
  }

  /** Where the parts of a joined `H:MM:SS` text sit. */
  lemma JoinedParts(h: string, m: string, x: string)
    requires |m| == 2 && |x| == 2
    ensures var s := h + ":" + m + ":" + x;
      && |s| == |h| + 6 && s[|s| - 6] == ':' && s[|s| - 3] == ':'
      && s[..|s| - 6] == h && s[|s| - 5..|s| - 3] == m && s[|s| - 2..] == x
  {
  }

  /** A joined `H:MM:SS` text reads back as its three digit strings. */
  lemma ParseJoined(h: string, m: string, x: string)
    requires 2 <= |h| && |m| == 2 && |x| == 2
    requires AllDigits(h) && AllDigits(m) && AllDigits(x)
    ensures ParseClock(h + ":" + m + ":" + x) == Some(Clock(DigitsValue(h), DigitsValue(m), DigitsValue(x)))
  {
    JoinedParts(h, m, x);
  }

  /** The clock text reads back as the three fields: no field is
      truncated, so the hours, minutes and seconds shown add up to the
      whole seconds elapsed. */
  lemma FormatTimeReadsBack(seconds: real)
    requires 0.0 <= seconds
    ensures ParseClock(FormatTime(seconds)) == Some(Fields(seconds))
    ensures var c := ParseClock(FormatTime(seconds)).value;
      c.hours * 3600 + c.minutes * 60 + c.secs == seconds.Floor
  {
    var c := Fields(seconds);
    ParseJoined(Field(c.hours), Field(c.minutes), Field(c.secs));
  }

  /** Under 100 hours the clock is exactly `DD:DD:DD`. */
  lemma ShortClockShape(seconds: real)
    requires 0.0 <= seconds < 360000.0
    ensures var s := FormatTime(seconds);
      && |s| == 8 && s[2] == ':' && s[5] == ':'
      && IsDigit(s[0]) && IsDigit(s[1]) && IsDigit(s[3]) && IsDigit(s[4]) && IsDigit(s[6]) && IsDigit(s[7])
  {
    var c := Fields(seconds);
    assert c.hours < 100 by {
      assert seconds.Floor < 360000;
    }
    var h, m, x := Field(c.hours), Field(c.minutes), Field(c.secs);
    assert FormatTime(seconds) == h + ":" + m + ":" + x;
    JoinedParts(h, m, x);
    var s := h + ":" + m + ":" + x;
    assert s[0] == h[0] && s[1] == h[1] && s[3] == m[0] && s[4] == m[1] && s[6] == x[0] && s[7] == x[1];
  }
}
