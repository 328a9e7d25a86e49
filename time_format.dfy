/** `formatTime` from the generated utils/format-time.ts: milliseconds to an
    "MM:SS" clock, each field the decimal `toString` of an integer padded on
    the left with zeros to at least two characters. */
module TimeFormat {

  function DigitChar(d: nat): (c: char)
    requires d < 10
    ensures IsDigit(c) && DigitValue(c) == d
  {
    "0123456789"[d]
  }

  predicate IsDigit(c: char) { '0' <= c <= '9' }

  predicate AllDigits(s: seq<char>)
  {
    forall i | 0 <= i < |s| :: IsDigit(s[i])
  }

  function DigitValue(c: char): nat
    requires IsDigit(c)
  {
    (c as int - '0' as int) as nat
  }

  /** `Number.prototype.toString` on a nonnegative integer. */
  function Digits(n: nat): (s: seq<char>)
    ensures |s| >= 1
    ensures n < 10 <==> |s| == 1
    ensures n < 100 ==> |s| <= 2
    ensures AllDigits(s)
    decreases n
  {
    if n < 10 then [DigitChar(n)] else Digits(n / 10) + [DigitChar(n % 10)]
  }

  /** `toString` on any integer: a minus sign before the digits of its
      magnitude. */
  function IntToString(n: int): (s: seq<char>)
    ensures n >= 0 ==> s == Digits(n)
    ensures n < 0 ==> s == ['-'] + Digits(-n)
  {
    if n < 0 then ['-'] + Digits(-n) else Digits(n)
  }

  /** The value of a string of decimal digits, read left to right. */
  function ParseDigits(s: seq<char>): nat
    requires AllDigits(s)
  {
    if |s| == 0 then 0 else ParseDigits(s[..|s| - 1]) * 10 + DigitValue(s[|s| - 1])
  }

  /** `padStart(2, "0")`. */
  function PadStart2(s: seq<char>): (r: seq<char>)
    ensures |r| == if |s| >= 2 then |s| else 2
    ensures r[|r| - |s|..] == s
    ensures forall i | 0 <= i < |r| - |s| :: r[i] == '0'
  {
    if |s| >= 2 then s else seq(2 - |s|, _ => '0') + s
  }

  /** JavaScript's `%` on integers, truncating towards zero. */
  function TruncRem(a: int, b: int): (r: int)
    requires b > 0
    ensures a >= 0 ==> r == a % b
  {
    if a >= 0 then a % b else -((-a) % b)
  }

  /** Two padded fields joined by a colon. */
  function Clock(minutes: int, seconds: int): seq<char>
  {
    PadStart2(IntToString(minutes)) + [':'] + PadStart2(IntToString(seconds))
  }

  function FormatTime(ms: real): seq<char>
  {
    var totalSeconds := (ms / 1000.0).Floor;
    Clock(totalSeconds / 60, TruncRem(totalSeconds, 60))
  }

  /** Reading back the digits of a number gives the number. */
  lemma {:induction false} ParseDigitsOfDigits(n: nat)
    ensures ParseDigits(Digits(n)) == n
    decreases n
  {
    if n >= 10 {
      var s := Digits(n);
      assert s[..|s| - 1] == Digits(n / 10);
      ParseDigitsOfDigits(n / 10);
    }
  }

  /** Leading zeros do not change the value of a digit string. */
  lemma {:induction false} ParseDigitsLeadingZeros(z: nat, s: seq<char>)
    requires AllDigits(s)
    ensures var p := seq(z, _ => '0') + s;
      AllDigits(p) && ParseDigits(p) == ParseDigits(s)
    decreases |s|
  {
    var p := seq(z, _ => '0') + s;
    if |s| == 0 {
      ParseZeros(z);
      assert p == seq(z, _ => '0');
    } else {
      var s' := s[..|s| - 1];
      ParseDigitsLeadingZeros(z, s');
      assert p[..|p| - 1] == seq(z, _ => '0') + s';
    }
  }

  lemma {:induction false} ParseZeros(z: nat)
    ensures ParseDigits(seq(z, _ => '0')) == 0
    decreases z
  {
    if z > 0 {
      var p := seq(z, _ => '0');
      assert p[..z - 1] == seq(z - 1, _ => '0');
      ParseZeros(z - 1);
    }
  }

  /** A padded field of a nonnegative number is all digits and reads back
      as the number. */
  lemma PaddedField(n: nat) returns (f: seq<char>)
    ensures f == PadStart2(IntToString(n))
    ensures && |f| >= 2
      && (n < 100 ==> |f| == 2)
      && AllDigits(f)
      && ParseDigits(f) == n
  {
    var s := Digits(n);
    f := PadStart2(s);
    ParseDigitsOfDigits(n);
    if |s| < 2 {
      ParseDigitsLeadingZeros(2 - |s|, s);
    }
  }

  /** A clock string: a field of digits, a colon three characters from
      the end, and a field of two digits. */
  predicate IsClock(s: seq<char>)
  {
    |s| >= 5 && s[|s| - 3] == ':' && AllDigits(s[..|s| - 3]) && AllDigits(s[|s| - 2..])
  }

  function MinutesField(s: seq<char>): nat
    requires IsClock(s)
  {
    ParseDigits(s[..|s| - 3])
  }

  function SecondsField(s: seq<char>): nat
    requires IsClock(s)
  {
    ParseDigits(s[|s| - 2..])
  }

  /** For a nonnegative time the clock reads back as the whole seconds
      elapsed, with a seconds field below 60. */
  lemma FormatTimeRoundTrip(ms: real)
    requires ms >= 0.0
    ensures var s := FormatTime(ms);
      && IsClock(s)
      && SecondsField(s) < 60
      && MinutesField(s) * 60 + SecondsField(s) == (ms / 1000.0).Floor
  {
    var total := (ms / 1000.0).Floor;
    var minutes, seconds := total / 60, total % 60;
    assert minutes * 60 + seconds == total;
    assert TruncRem(total, 60) == seconds;
    assert FormatTime(ms) == Clock(minutes, seconds);
    ClockRoundTrip(minutes, seconds);
  }

  /** A clock of nonnegative fields, seconds below 100, reads back as the
      two fields. */
  lemma ClockRoundTrip(minutes: nat, seconds: nat)
    requires seconds < 100
    ensures var s := Clock(minutes, seconds);
      IsClock(s) && MinutesField(s) == minutes && SecondsField(s) == seconds
  {
    var mm := PaddedField(minutes);
    var ss := PaddedField(seconds);
    ClockShape(Clock(minutes, seconds), mm, ss, minutes, seconds);
  }

  /** Splitting a joined clock string at its colon gives back the fields. */
  lemma ClockShape(s: seq<char>, mm: seq<char>, ss: seq<char>, minutes: nat, seconds: nat)
    requires s == mm + [':'] + ss
    requires |mm| >= 2 && |ss| == 2 && AllDigits(mm) && AllDigits(ss)
    requires ParseDigits(mm) == minutes && ParseDigits(ss) == seconds
    ensures IsClock(s) && MinutesField(s) == minutes && SecondsField(s) == seconds
  {
    assert |s| - 3 == |mm|;
    assert s[..|mm|] == mm;
    assert s[|mm| + 1..] == ss;
  }
}
