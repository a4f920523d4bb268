/** The arithmetic of the transport bar: the `m:ss` clock, the progress
    percentage, the seek target of a click on the progress bar, the volume
    slider's clamp and the mute button. Times and fractions are exact reals;
    JavaScript's `Math.floor` is `.Floor`, and its `%` (which keeps the sign
    of the dividend) is written out as `JsRem`. */
module PlayerBar {
  import opened Common

  // ---------------------------------------------------------------------
  // Decimal rendering (`Number.prototype.toString` on integers)

  function DigitChar(d: nat): (c: char)
    requires d < 10
    ensures '0' <= c <= '9' && (c as int) - ('0' as int) == d
  {
    ('0' as int + d) as char
  }

  predicate IsDigit(c: char)
  {
    '0' <= c <= '9'
  }

  /** Decimal digits of `n`, most significant first, no leading zeros. */
  function NatToString(n: nat): (s: string)
    ensures |s| >= 1
    ensures forall i :: 0 <= i < |s| ==> IsDigit(s[i])
    decreases n
  {
    if n < 10 then [DigitChar(n)] else NatToString(n / 10) + [DigitChar(n % 10)]
  }

  /** `String(n)` for an integer: a minus sign before the digits of `|n|`. */
  function IntToString(n: int): (s: string)
  {
    if n < 0 then "-" + NatToString(-n) else NatToString(n)
  }

  /** `s.padStart(2, '0')`. */
  function PadStart2(s: string): (r: string)
    ensures |r| == if |s| >= 2 then |s| else 2
    ensures r[|r| - |s|..] == s
    ensures forall i :: 0 <= i < |r| - |s| ==> r[i] == '0'
  {
    if |s| >= 2 then s else seq(2 - |s|, _ => '0') + s
  }

  /** The value of a string of decimal digits (the reading a user makes of it). */
  function DecimalValue(s: string): (n: nat)
    requires forall i :: 0 <= i < |s| ==> IsDigit(s[i])
  {
    if s == [] then 0
    else
      var last := s[|s| - 1];
      assert IsDigit(last);
      10 * DecimalValue(s[..|s| - 1]) + ((last as int) - ('0' as int))
  }

  /** Reading back the rendered digits gives the number. */
  lemma {:induction false} DecimalValueOfNatToString(n: nat)
    ensures DecimalValue(NatToString(n)) == n
    decreases n
  {
    var s := NatToString(n);
    if n >= 10 {
      DecimalValueOfNatToString(n / 10);
      assert s[..|s| - 1] == NatToString(n / 10);
    }
  }

  // ---------------------------------------------------------------------
  // formatTime

  /** `Math.trunc`. */
  function Trunc(x: real): (n: int)
  {
    if x >= 0.0 then x.Floor else -((-x).Floor)
  }

  /** JavaScript's `x % d` on numbers: the remainder has the sign of `x`. */
  function JsRem(x: real, d: real): (r: real)
    requires d != 0.0
  {
    x - d * (Trunc(x / d) as real)
  }

  /** `formatTime(time)`: minutes, a colon, and the seconds padded to two characters. */
  function FormatTime(time: real): (shown: string)
  {
    IntToString((time / 60.0).Floor) + ":" + PadStart2(IntToString(JsRem(time, 60.0).Floor))
  }

  /** For a non-negative time, the minutes field is `floor(t/60)`, the seconds
      field is exactly two digits in 00..59, and together they make `floor(t)`. */
  lemma FormatTimeFields(time: real) returns (mins: nat, secs: nat)
    requires time >= 0.0
    ensures mins == (time / 60.0).Floor && secs < 60
    ensures mins * 60 + secs == time.Floor
    ensures FormatTime(time) == NatToString(mins) + ":" + [DigitChar(secs / 10), DigitChar(secs % 10)]
  {
    mins := (time / 60.0).Floor;
    assert (mins as real) * 60.0 <= time < (mins as real) * 60.0 + 60.0;
    var rem := JsRem(time, 60.0);
    assert rem == time - 60.0 * (mins as real);
    assert 0 <= rem.Floor < 60;
    secs := rem.Floor;
    assert secs == time.Floor - 60 * mins;
    if secs < 10 {
      assert NatToString(secs) == [DigitChar(secs)];
      assert PadStart2(IntToString(secs)) == ['0', DigitChar(secs)];
    } else {
      assert NatToString(secs / 10) == [DigitChar(secs / 10)];
      assert PadStart2(IntToString(secs)) == [DigitChar(secs / 10), DigitChar(secs % 10)];
    }
  }

  /** How a reader decodes an `m:ss` display back into whole seconds. */
  function ParseClock(s: string): (r: Option<int>)
    ensures r.Some? ==> r.value >= 0
  {
    if |s| >= 4 && s[|s| - 3] == ':' && IsDigit(s[|s| - 2]) && IsDigit(s[|s| - 1])
       && (forall i :: 0 <= i < |s| - 3 ==> IsDigit(s[i]))
    then
      var tens := (s[|s| - 2] as int) - ('0' as int);
      var ones := (s[|s| - 1] as int) - ('0' as int);
      if tens < 6 then Some(60 * DecimalValue(s[..|s| - 3]) + 10 * tens + ones) else None
    else None
  }

  /** A clock built from whole minutes and seconds below 60 reads back as
      their total in seconds. */
  lemma ClockReadsBack(shown: string, mins: nat, secs: nat, whole: int)
    requires secs < 60 && whole == 60 * mins + secs
    requires shown == NatToString(mins) + ":" + [DigitChar(secs / 10), DigitChar(secs % 10)]
    ensures ParseClock(shown) == Some(whole)
  {
    var m := NatToString(mins);
    assert shown[..|shown| - 3] == m;
    assert forall i :: 0 <= i < |shown| - 3 ==> shown[i] == m[i];
    DecimalValueOfNatToString(mins);
  }

  /** Round trip: the clock shown for a non-negative time reads back as the
      whole seconds of that time. */
  lemma FormatTimeReadsBack(time: real)
    requires time >= 0.0
    ensures ParseClock(FormatTime(time)) == Some(time.Floor)
  {
    var mins, secs := FormatTimeFields(time);
    ClockReadsBack(FormatTime(time), mins, secs, time.Floor);
  }

  // ---------------------------------------------------------------------
  // Progress bar

  /** `progressPercent`: the played share of the duration, 0 without a duration. */
  function ProgressPercent(currentTime: real, duration: real): (p: real)
    ensures duration <= 0.0 ==> p == 0.0
    ensures 0.0 <= currentTime <= duration ==> 0.0 <= p <= 100.0
    ensures 0.0 < duration ==> (p == 100.0 <==> currentTime == duration)
    ensures 0.0 < duration ==> (p == 0.0 <==> currentTime == 0.0)
  {
    if duration > 0.0 then (currentTime / duration) * 100.0 else 0.0
  }

  /** Where a click on the progress bar seeks: the clicked fraction of the
      bar's width times the duration. The width of a clicked element is positive. */
  function ProgressClickTarget(x: real, width: real, duration: real): (t: real)
    requires width > 0.0
    ensures 0.0 <= x <= width && 0.0 <= duration ==> 0.0 <= t <= duration
    ensures x == 0.0 ==> t == 0.0
    ensures x == width ==> t == duration
  {
    FractionOfLength(x, width, duration);
    (x / width) * duration
  }

  /** A fraction in [0, 1] of a non-negative length stays within it. */
  lemma FractionOfLength(x: real, width: real, len: real)
    requires width > 0.0
    ensures 0.0 <= x <= width && 0.0 <= len ==> 0.0 <= (x / width) * len <= len
  {
    var f := x / width;
    assert f * width == x;
    if 0.0 <= x <= width && 0.0 <= len {
      assert 0.0 <= f <= 1.0;
      assert f * len <= 1.0 * len;
    }
  }

  /** Scaling by a non-zero length and dividing by it again gives the fraction back. */
  lemma ScaleCancels(f: real, len: real)
    requires len != 0.0
    ensures (f * len) / len == f
  {
    var q := (f * len) / len;
    assert q * len == f * len;
    assert (q - f) * len == 0.0;
    if q != f {
      NonZeroProduct(q - f, len);
    }
  }

  lemma NonZeroProduct(a: real, b: real)
    requires a != 0.0 && b != 0.0
    ensures a * b != 0.0
  {
    if a > 0.0 && b > 0.0 { assert a * b > 0.0; }
    else if a > 0.0 { assert a * b < 0.0; }
    else if b > 0.0 { assert a * b < 0.0; }
    else { assert a * b > 0.0; }
  }

  /** The skip-back button seeks to the start. */
  const SkipBackTarget: real := 0.0

  /** Round trip between the two directions of the bar: after seeking where
      the user clicked, the bar is filled exactly up to the click. */
  lemma ClickThenProgress(x: real, width: real, duration: real)
    requires width > 0.0 && duration > 0.0
    ensures ProgressPercent(ProgressClickTarget(x, width, duration), duration) == (x / width) * 100.0
    ensures ProgressPercent(SkipBackTarget, duration) == 0.0
  {
    ScaleCancels(x / width, duration);
  }

  /** Later positions never show less progress. */
  lemma ProgressMonotone(t1: real, t2: real, duration: real)
    requires t1 <= t2
    ensures ProgressPercent(t1, duration) <= ProgressPercent(t2, duration)
  {
    if duration > 0.0 {
      assert t1 / duration <= t2 / duration;
    }
  }

  // ---------------------------------------------------------------------
  // Volume

  /** The value a click on the volume slider passes on:
      `Math.max(0, Math.min(1, x / width))`. */
  function VolumeFromClick(x: real, width: real): (v: real)
    requires width > 0.0
    ensures 0.0 <= v <= 1.0
    ensures 0.0 <= x <= width ==> v == x / width
    ensures x <= 0.0 ==> v == 0.0
    ensures x >= width ==> v == 1.0
  {
    var ratio := x / width;
    var upper := if 1.0 < ratio then 1.0 else ratio;
    if 0.0 > upper then 0.0 else upper
  }

  /** The mute button: silence any audible volume, otherwise restore full volume. */
  function MuteButtonVolume(volume: real): (v: real)
    ensures volume > 0.0 ==> v == 0.0
    ensures volume <= 0.0 ==> v == 1.0
  {
    if volume > 0.0 then 0.0 else 1.0
  }

  /** The muted icon is shown exactly when the volume is zero. */
  predicate ShowsMutedIcon(volume: real)
  {
    volume == 0.0
  }

  /** Muting then unmuting gives full volume, not the volume held before;
      the button always toggles the icon. */
  lemma MuteThenUnmute(volume: real)
    requires volume > 0.0
    ensures MuteButtonVolume(MuteButtonVolume(volume)) == 1.0
    ensures volume != 1.0 ==> MuteButtonVolume(MuteButtonVolume(volume)) != volume
  {
  }

  lemma MuteButtonTogglesIcon(volume: real)
    requires volume >= 0.0
    ensures ShowsMutedIcon(MuteButtonVolume(volume)) == !ShowsMutedIcon(volume)
  {
  }
}
