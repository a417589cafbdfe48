// The "m:ss" rendering of a time in seconds shared by the metadata agent
// (src/agents/MetadataAgent.ts) and the player (src/components/MusicPlayer.tsx):
// `${Math.floor(t / 60)}:${Math.floor(t % 60).toString().padStart(2, '0')}`,
// with JavaScript's truncating `%` and the sign a negative number prints.

module Clock {
  import opened Numeric
  import opened Strings

  /** Truncation toward zero. */
  function Trunc(x: real): (r: int)
    ensures x >= 0.0 ==> r == Floor(x)
    ensures x < 0.0 ==> r == -Floor(-x)
  {
    if x >= 0.0 then Floor(x) else -Floor(-x)
  }

  /** JavaScript's `x % 60`: the remainder keeps the sign of x. */
  function JsRem60(x: real): (r: real)
    ensures x >= 0.0 ==> 0.0 <= r < 60.0
  {
    x - 60.0 * Trunc(x / 60.0) as real
  }

  /** `String(i)` for an integer. */
  function IntToString(i: int): (r: string)
    ensures |r| >= 1
    ensures i >= 0 ==> r == NatToString(i)
  {
    if i < 0 then "-" + NatToString(-i) else NatToString(i)
  }

  /** `s.padStart(2, '0')`. */
  function PadStart2(s: string): (r: string)
    ensures |r| == if |s| < 2 then 2 else |s|
    ensures |s| >= 2 ==> r == s
  {
    if |s| == 0 then "00" else if |s| == 1 then "0" + s else s
  }

  /** The rendering of a time in seconds as minutes and two-digit seconds. */
  function FormatClock(t: real): (r: string)
  {
    IntToString(Floor(t / 60.0)) + ":" + PadStart2(IntToString(Floor(JsRem60(t))))
  }

  /** For t >= 0 with n = Floor(t): the minutes are n / 60 and the seconds n % 60. */
  lemma ClockParts(t: real)
    requires t >= 0.0
    ensures Floor(t / 60.0) == Floor(t) / 60
    ensures Floor(JsRem60(t)) == Floor(t) % 60
  {
    var n := Floor(t);
    var q := n / 60;
    assert 60 * q <= n < 60 * q + 60;
    assert (60 * q) as real <= t < (60 * q + 60) as real;
    assert q as real <= t / 60.0 < (q + 1) as real;
    assert Floor(t / 60.0) == q;
    assert JsRem60(t) == t - 60.0 * q as real;
  }

  /**
   * A non-negative time renders as its whole minutes, a colon and exactly
   * two digits reading back as the remaining whole seconds.
   */
  lemma FormatClockReadsBack(t: real)
    requires t >= 0.0
    ensures var r := FormatClock(t);
            var m := NatToString(Floor(t) / 60);
            |r| == |m| + 3 && r[..|m|] == m && r[|m|] == ':' &&
            (forall i :: |m| < i < |r| ==> '0' <= r[i] <= '9') &&
            DigitsValue(r[|m| + 1..]) == Floor(t) % 60
  {
    ClockParts(t);
    var s := Floor(t) % 60;
    var m := NatToString(Floor(t) / 60);
    var secs := PadStart2(NatToString(s));
    assert FormatClock(t) == m + ":" + secs;
    assert FormatClock(t)[|m| + 1..] == secs;
    NatToStringValue(s);
    if s < 10 {
      assert secs == "0" + NatToString(s);
      assert secs[1..] == NatToString(s);
      assert DigitsValue(secs) == 10 * DigitsValue(secs[..1]) + DigitsValue(secs[1..]);
    }
  }

  /** Zero seconds render as "0:00". */
  lemma ZeroIsZeroClock()
    ensures FormatClock(0.0) == "0:00"
  {
    ClockParts(0.0);
  }
}
