/**
 * `formatTime` (m:ss), shared verbatim by both player pages
 * (app/player/PlayerClient.tsx and app/player/page.tsx), together with the
 * inverse reading of its output, used to state that no information about the
 * whole seconds is lost.
 */
module TimeFormat {
  import opened Wrappers

  predicate IsDigit(c: char) {
    '0' <= c <= '9'
  }

  predicate AllDigits(s: string) {
    forall i :: 0 <= i < |s| ==> IsDigit(s[i])
  }

  function DigitChar(d: nat): (c: char)
    requires d < 10
    ensures IsDigit(c)
  {
    "0123456789"[d]
  }

  function DigitValue(c: char): nat
    requires IsDigit(c)
  {
    (c as int) - ('0' as int)
  }

  /** Decimal rendering of a natural number, as `String(n)`: no leading zeros. */
  function Decimal(n: nat): (s: string)
    ensures |s| >= 1 && AllDigits(s)
    ensures |s| > 1 ==> s[0] != '0'
    ensures n < 10 <==> |s| == 1
  {
    if n < 10 then [DigitChar(n)] else Decimal(n / 10) + [DigitChar(n % 10)]
  }

  /** The value of a string of decimal digits. */
  function DecimalValue(s: string): nat
    requires AllDigits(s)
  {
    if s == [] then 0 else DecimalValue(s[..|s| - 1]) * 10 + DigitValue(s[|s| - 1])
  }

  lemma {:induction false} DecimalRoundTrip(n: nat)
    ensures DecimalValue(Decimal(n)) == n
  {
    if n >= 10 {
      var s := Decimal(n);
      assert s[..|s| - 1] == Decimal(n / 10);
      DecimalRoundTrip(n / 10);
    } else {
      assert Decimal(n)[..0] == [];
    }
  }

  /** `s.padStart(2, "0")`: left-pads with zeros to length two; longer strings are kept. */
  function PadStart2(s: string): (r: string)
    ensures |s| >= 2 ==> r == s
    ensures |s| < 2 ==> |r| == 2 && r[2 - |s|..] == s && forall i :: 0 <= i < 2 - |s| ==> r[i] == '0'
  {
    if |s| == 0 then "00" else if |s| == 1 then "0" + s else s
  }

  /** The minutes and seconds shown for a (non-negative) time in seconds. */
  function MinutesSeconds(seconds: real): (ms: (nat, nat))
    requires seconds >= 0.0
    ensures ms.1 < 60
    ensures ms.0 * 60 + ms.1 == seconds.Floor
  {
    var mins := (seconds / 60.0).Floor;
    // JavaScript `%` on a non-negative number: seconds - 60 * trunc(seconds / 60)
    var secs := (seconds - 60.0 * mins as real).Floor;
    (mins, secs)
  }

  /** formatTime: `${mins}:${secs.padStart(2, "0")}`. */
  function FormatTime(seconds: real): (r: string)
    requires seconds >= 0.0
    ensures |r| >= 4 && r[|r| - 3] == ':' && AllDigits(r[|r| - 2..])
    ensures AllDigits(r[..|r| - 3])
  {
    var (mins, secs) := MinutesSeconds(seconds);
    Decimal(mins) + ":" + PadStart2(Decimal(secs))
  }

  /** Position of the first ':' in `t`, or |t| if there is none. */
  function ColonIndex(t: string): (i: nat)
    ensures i <= |t|
    ensures i < |t| ==> t[i] == ':'
    ensures forall j :: 0 <= j < i ==> t[j] != ':'
  {
    if t == [] then 0 else if t[0] == ':' then 0 else 1 + ColonIndex(t[1..])
  }

  /** Reads an `m:ss` display back as a number of whole seconds. */
  function ParseTime(t: string): Option<nat> {
    var i := ColonIndex(t);
    if i == 0 || i == |t| || !AllDigits(t[..i]) then None
    else
      var rest := t[i + 1..];
      if |rest| != 2 || !AllDigits(rest) || DecimalValue(rest) >= 60 then None
      else Some(DecimalValue(t[..i]) * 60 + DecimalValue(rest))
  }

  /** The display loses only the fractional part of the time. */
  lemma FormatTimeRoundTrip(seconds: real)
    requires seconds >= 0.0
    ensures ParseTime(FormatTime(seconds)) == Some(seconds.Floor)
  {
    var (mins, secs) := MinutesSeconds(seconds);
    var m, p := Decimal(mins), PadStart2(Decimal(secs));
    var t := m + ":" + p;
    assert t == FormatTime(seconds);
    assert forall j :: 0 <= j < |m| ==> t[j] == m[j] && t[j] != ':';
    assert t[|m|] == ':';
    assert ColonIndex(t) == |m|;
    assert t[..|m|] == m;
    assert t[|m| + 1..] == p;
    DecimalRoundTrip(mins);
    DecimalRoundTrip(secs);
    if secs < 10 {
      var d := DigitChar(secs);
      assert Decimal(secs) == [d] && [d][..0] == [];
      assert DigitValue(d) == secs;
      assert p == ['0', d] && p[..1] == ['0'] && p[..1][..0] == [];
      assert DecimalValue(p) == DecimalValue(['0']) * 10 + DigitValue(d);
    }
  }
}
