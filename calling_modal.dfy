/**
 * The in-call panel of src/components/CallingModal.tsx: `formatTime` with
 * JavaScript's number semantics (`Math.floor` of the quotient, a remainder that
 * takes the dividend's sign, `toString`, `padStart(2, '0')`), its inverse on
 * clock strings, and the panel's three state hooks.
 */
module CallingModal {
  import opened Wrappers

  predicate IsDigit(c: char) {
    '0' <= c <= '9'
  }

  predicate AllDigits(s: string) {
    forall k :: 0 <= k < |s| ==> IsDigit(s[k])
  }

  function DigitChar(d: nat): (c: char)
    requires d < 10
    ensures IsDigit(c) && (c as int) - ('0' as int) == d
  {
    ('0' as int + d) as char
  }

  /** `n.toString()` for a non-negative integer: decimal digits, no leading zero. */
  function NatToString(n: nat): (s: string)
    ensures |s| >= 1 && AllDigits(s)
    ensures |s| == 1 <==> n < 10
    ensures n >= 10 ==> s[0] != '0'
  {
    if n < 10 then [DigitChar(n)] else NatToString(n / 10) + [DigitChar(n % 10)]
  }

  /** `i.toString()` for any integer. */
  function IntToString(i: int): (s: string)
    ensures i >= 0 ==> s == NatToString(i)
    ensures i < 0 ==> s == "-" + NatToString(-i)
  {
    if i >= 0 then NatToString(i) else "-" + NatToString(-i)
  }

  /** `s.padStart(2, '0')`: a leading zero for a one-character string, nothing otherwise. */
  function PadStart2(s: string): (r: string)
    ensures |s| >= 2 ==> r == s
    ensures |s| < 2 ==> |r| == 2 && r[2 - |s|..] == s && forall k :: 0 <= k < 2 - |s| ==> r[k] == '0'
  {
    if |s| >= 2 then s else if |s| == 1 then "0" + s else "00"
  }

  /** JavaScript's `a % b`: truncating division, so the remainder has the sign of a. */
  function JsRemainder(a: int, b: int): (r: int)
    requires b > 0
    ensures a >= 0 ==> 0 <= r < b
    ensures a < 0 ==> -b < r <= 0
  {
    if a >= 0 then a % b else -((-a) % b)
  }

  /** JavaScript's `Math.trunc(a / b)`: the quotient rounded toward zero. */
  function TruncQuotient(a: int, b: int): (q: int)
    requires b > 0
    ensures a >= 0 ==> q >= 0
    ensures a < 0 ==> q <= 0
  {
    if a >= 0 then a / b else -((-a) / b)
  }

  /** The remainder is what truncating division leaves of the dividend. */
  lemma JsRemainderDivides(a: int, b: int)
    requires b > 0
    ensures a == TruncQuotient(a, b) * b + JsRemainder(a, b)
  {
    var n := if a >= 0 then a else -a;
    assert n == (n / b) * b + n % b;
    if a < 0 {
      assert -(n / b) * b == -((n / b) * b);
    }
  }

  /** `formatTime` (src/components/CallingModal.tsx:25-29); Dafny's `/` by a positive divisor is `Math.floor` of the quotient. */
  function FormatTime(seconds: int): (t: string)
    ensures |t| >= 5
  {
    var minutes := seconds / 60;
    var remainingSeconds := JsRemainder(seconds, 60);
    PadStart2(IntToString(minutes)) + ":" + PadStart2(IntToString(remainingSeconds))
  }

  /** The value of a string of decimal digits, leading zeros allowed. */
  function DecimalValue(s: string): (v: nat)
    requires AllDigits(s)
  {
    if s == [] then 0 else 10 * DecimalValue(s[..|s| - 1]) + ((s[|s| - 1] as int) - ('0' as int))
  }

  lemma {:induction false} DecimalOfNatToString(n: nat)
    ensures DecimalValue(NatToString(n)) == n
  {
    if n >= 10 {
      var s := NatToString(n);
      DecimalOfNatToString(n / 10);
      assert s[..|s| - 1] == NatToString(n / 10);
    }
  }

  /** A leading zero does not change the value. */
  lemma {:induction false} DecimalLeadingZero(s: string)
    requires AllDigits(s)
    ensures AllDigits("0" + s) && DecimalValue("0" + s) == DecimalValue(s)
    decreases |s|
  {
    if s != [] {
      var z := "0" + s;
      assert z[..|z| - 1] == "0" + s[..|s| - 1];
      DecimalLeadingZero(s[..|s| - 1]);
    }
  }

  /** The minutes field of a clock string: at least two digits, reading as the count. */
  lemma MinutesField(n: nat)
    ensures var f := PadStart2(NatToString(n));
            |f| >= 2 && AllDigits(f) && DecimalValue(f) == n
  {
    DecimalOfNatToString(n);
    if n < 10 {
      DecimalLeadingZero(NatToString(n));
    }
  }

  /** A two-digit field of a clock string. */
  lemma PaddedField(n: nat)
    requires n < 100
    ensures var f := PadStart2(NatToString(n));
            |f| == 2 && AllDigits(f) && DecimalValue(f) == n
  {
    MinutesField(n);
  }

  /** Reads "M…M:SS" back into seconds: digits, a colon, two digits. */
  function ParseClock(t: string): (r: Option<int>)
    ensures r.Some? ==> r.value >= 0
  {
    if |t| >= 4 && t[|t| - 3] == ':' && AllDigits(t[..|t| - 3]) && AllDigits(t[|t| - 2..]) then
      Some(60 * DecimalValue(t[..|t| - 3]) + DecimalValue(t[|t| - 2..]))
    else None
  }

  /** ParseClock reads a minutes field of two digits or more, a colon and a two-digit seconds field. */
  lemma ParseClockParts(minutes: string, seconds: string)
    requires |minutes| >= 2 && AllDigits(minutes) && |seconds| == 2 && AllDigits(seconds)
    ensures ParseClock(minutes + ":" + seconds) == Some(60 * DecimalValue(minutes) + DecimalValue(seconds))
  {
    var t := minutes + ":" + seconds;
    assert t[..|t| - 3] == minutes;
    assert t[|t| - 2..] == seconds;
  }

  /**
   * For a non-negative count formatTime gives a minutes field of at least two
   * digits reading as floor(s / 60), a colon, and a seconds field of two digits
   * reading as s mod 60, from 00 to 59.
   */
  lemma FormatTimeFields(s: int) returns (minutes: string, seconds: string)
    requires s >= 0
    ensures FormatTime(s) == minutes + ":" + seconds
    ensures |minutes| >= 2 && AllDigits(minutes) && DecimalValue(minutes) == s / 60
    ensures |seconds| == 2 && AllDigits(seconds) && DecimalValue(seconds) == s % 60 && s % 60 < 60
  {
    var m, r := s / 60, s % 60;
    minutes, seconds := PadStart2(NatToString(m)), PadStart2(NatToString(r));
    MinutesField(m);
    PaddedField(r);
  }

  /** Minutes and seconds give back the count: ParseClock inverts formatTime on non-negative counts. */
  lemma ParseFormatTime(s: int)
    requires s >= 0
    ensures ParseClock(FormatTime(s)) == Some(s)
  {
    var minutes, seconds := FormatTimeFields(s);
    ParseClockParts(minutes, seconds);
    assert 60 * (s / 60) + s % 60 == s;
  }

  /** Up to 99:59 the clock is exactly five characters; from 100 minutes on padStart does not truncate. */
  lemma FormatTimeLength(s: int)
    requires s >= 0
    ensures s < 6000 ==> |FormatTime(s)| == 5
    ensures s >= 6000 ==> |FormatTime(s)| > 5
  {
    var mins := NatToString(s / 60);
    if s / 60 >= 10 {
      assert |NatToString(s / 60 / 10)| >= 1;
    }
    if s / 60 >= 100 {
      assert |NatToString(s / 60 / 10)| >= 2;
    }
  }

  /** No time elapsed shows as "00:00". */
  lemma FormatTimeZero()
    ensures FormatTime(0) == "00:00"
  {
    assert NatToString(0) == "0";
    assert PadStart2("0") == "00";
  }

  /** A negative count, which the timer never produces, shows two signed fields. */
  lemma FormatTimeNegative()
    ensures FormatTime(-5) == "-1:-5"
  {
    assert -5 / 60 == -1;
    assert JsRemainder(-5, 60) == -5;
  }

  class Panel {
    var isLoading: bool
    var elapsedTime: int
    var isMuted: bool

    /** The three useState initial values (src/components/CallingModal.tsx:12-14). */
    constructor ()
      ensures isLoading && elapsedTime == 0 && !isMuted
      ensures Clock() == "00:00"
    {
      isLoading, elapsedTime, isMuted := true, 0, false;
      FormatTimeZero();
    }

    /** What the panel shows: `formatTime(elapsedTime)`. */
    function Clock(): (t: string)
      reads this
      ensures elapsedTime >= 0 ==> ParseClock(t) == Some(elapsedTime)
    {
      if elapsedTime >= 0 then ParseFormatTime(elapsedTime); FormatTime(elapsedTime)
      else FormatTime(elapsedTime)
    }

    /** The interval callback (src/components/CallingModal.tsx:18). */
    method Tick()
      modifies this
      ensures elapsedTime == old(elapsedTime) + 1
      ensures isLoading == old(isLoading) && isMuted == old(isMuted)
    {
      elapsedTime := elapsedTime + 1;
    }

    /** The two-second timeout (src/components/CallingModal.tsx:17). */
    method LoadingTimeout()
      modifies this
      ensures !isLoading && elapsedTime == old(elapsedTime) && isMuted == old(isMuted)
    {
      isLoading := false;
    }

    /** The mute button (src/components/CallingModal.tsx:72): local state only, nothing reaches a call. */
    method ToggleMute()
      modifies this
      ensures isMuted == !old(isMuted) && isLoading == old(isLoading) && elapsedTime == old(elapsedTime)
    {
      isMuted := !isMuted;
    }
  }
}
