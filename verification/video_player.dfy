/** The video player's own logic: the `M:SS` timecode shown beside the
    timeline, and the mute button and volume slider state. */
module VideoPlayer {
  import opened Wrappers

  predicate IsDigit(c: char) {
    '0' <= c <= '9'
  }

  function DigitChar(d: nat): (c: char)
    requires d < 10
    ensures IsDigit(c) && DigitValue(c) == d
  {
    ('0' as int + d) as char
  }

  function DigitValue(c: char): (d: nat)
    requires IsDigit(c)
    ensures d < 10
  {
    c as int - '0' as int
  }

  /** `n.toString()` for a whole number: decimal digits, no leading zero. */
  function NatToString(n: nat): (r: string)
    ensures 1 <= |r| && forall i :: 0 <= i < |r| ==> IsDigit(r[i])
    ensures n < 10 <==> |r| == 1
    ensures 10 <= n < 100 ==> |r| == 2
    ensures r[0] == '0' ==> n == 0
    decreases n
  {
    if n < 10 then [DigitChar(n)] else NatToString(n / 10) + [DigitChar(n % 10)]
  }

  /** Reads a non-empty run of decimal digits back as a number. */
  function ParseDigits(s: string): Option<nat>
    decreases |s|
  {
    if |s| == 0 || !IsDigit(s[|s| - 1]) then None
    else if |s| == 1 then Some(DigitValue(s[0]))
    else match ParseDigits(s[..|s| - 1])
      case None => None
      case Some(p) => Some(10 * p + DigitValue(s[|s| - 1]))
  }

  /** Reading the digits of `n` gives back `n`. */
  lemma {:induction false} ParseNatToString(n: nat)
    ensures ParseDigits(NatToString(n)) == Some(n)
    decreases n
  {
    if n >= 10 {
      var s := NatToString(n);
      assert s[..|s| - 1] == NatToString(n / 10);
      ParseNatToString(n / 10);
    }
  }

  /** `s.padStart(width, fill)` with a one-character fill. */
  function PadStart(s: string, width: nat, fill: char): (r: string)
    ensures |r| == if |s| >= width then |s| else width
    ensures r[|r| - |s|..] == s
    ensures forall i :: 0 <= i < |r| - |s| ==> r[i] == fill
  {
    if |s| >= width then s else seq(width - |s|, _ => fill) + s
  }

  /** The text `M:SS` for minutes `mins` and seconds `secs`. */
  function Timecode(mins: nat, secs: nat): string {
    NatToString(mins) + ":" + PadStart(NatToString(secs), 2, '0')
  }

  /** With seconds below 60 the colon sits three characters from the end;
      the text starts with the first digit of the minutes. */
  lemma TimecodeShape(mins: nat, secs: nat)
    requires secs < 60
    ensures var r := Timecode(mins, secs); 4 <= |r| && r[|r| - 3] == ':'
    ensures |Timecode(mins, secs)| == |NatToString(mins)| + 3
    ensures Timecode(mins, secs)[0] == NatToString(mins)[0]
  {
    var m := NatToString(mins);
    var x := PadStart(NatToString(secs), 2, '0');
    assert |x| == 2;
    var r := m + ":" + x;
    assert |r| == |m| + 3;
    assert r[|m|] == ':';
  }

  /** `formatTime`: whole minutes, a colon, then the remaining seconds
      padded to two digits. There is no hour field. */
  function FormatTime(seconds: nat): (r: string)
    ensures 4 <= |r| && r[|r| - 3] == ':'
    ensures r[0] == '0' ==> seconds < 60 && |r| == 4
  {
    var r := Timecode(seconds / 60, seconds % 60);
    TimecodeShape(seconds / 60, seconds % 60);
    r
  }

  /** Reads an `M:SS` string back into its minutes and seconds fields. */
  function ParseTimecode(s: string): (r: Option<(nat, nat)>)
    ensures r.Some? ==> 4 <= |s| && s[|s| - 3] == ':'
  {
    if |s| < 4 || s[|s| - 3] != ':' then None
    else match (ParseDigits(s[..|s| - 3]), ParseDigits(s[|s| - 2..]))
      case (Some(m), Some(x)) => Some((m, x))
      case _ => None
  }

  /** The two digits after the colon read back as the seconds value. */
  lemma {:induction false} SecondsFieldRoundTrip(x: nat)
    requires x < 60
    ensures ParseDigits(PadStart(NatToString(x), 2, '0')) == Some(x)
  {
    var p := PadStart(NatToString(x), 2, '0');
    assert |p| == 2;
    assert p[..1] == [p[0]];
    if x < 10 {
      assert p[0] == '0' && p[1] == DigitChar(x);
    } else {
      assert NatToString(x) == NatToString(x / 10) + [DigitChar(x % 10)];
      assert p == NatToString(x);
      assert p[0] == DigitChar(x / 10) && p[1] == DigitChar(x % 10);
    }
  }

  /** The parser reads back any digits, a colon and a two-character field. */
  lemma ParseTimecodeJoin(m: string, x: string, mins: nat, secs: nat)
    requires 1 <= |m| && |x| == 2
    requires ParseDigits(m) == Some(mins) && ParseDigits(x) == Some(secs)
    ensures ParseTimecode(m + ":" + x) == Some((mins, secs))
  {
    var r := m + ":" + x;
    assert r[..|r| - 3] == m;
    assert r[|r| - 2..] == x;
  }

  /** Parsing a timecode gives back its two fields. */
  lemma {:induction false} TimecodeRoundTrip(mins: nat, secs: nat)
    requires secs < 60
    ensures ParseTimecode(Timecode(mins, secs)) == Some((mins, secs))
  {
    var m := NatToString(mins);
    var x := PadStart(NatToString(secs), 2, '0');
    ParseNatToString(mins);
    SecondsFieldRoundTrip(secs);
    ParseTimecodeJoin(m, x, mins, secs);
  }

  /** Parsing the formatted time recovers minutes `m` and seconds `x` with
      `x` in 0..59 and `m * 60 + x` the input. */
  lemma {:induction false} FormatTimeRoundTrip(seconds: nat)
    ensures ParseTimecode(FormatTime(seconds)) == Some((seconds / 60, seconds % 60))
    ensures var (m, x) := ParseTimecode(FormatTime(seconds)).value; x < 60 && m * 60 + x == seconds
  {
    TimecodeRoundTrip(seconds / 60, seconds % 60);
  }

  /** The two digits of a number in 10..99. */
  lemma TwoDigits(n: nat)
    requires 10 <= n < 100
    ensures NatToString(n) == [DigitChar(n / 10), DigitChar(n % 10)]
  {
  }

  /** A single-digit seconds field gets one leading zero. */
  lemma PadOneDigit(d: nat)
    requires d < 10
    ensures PadStart(NatToString(d), 2, '0') == ['0', DigitChar(d)]
  {
    assert NatToString(d) == [DigitChar(d)];
    assert PadStart([DigitChar(d)], 2, '0') == PadStart(['0', DigitChar(d)], 2, '0');
  }

  /** The page's initial position: minute 42, second 24. */
  lemma FormatTimeInitial()
    ensures FormatTime(2544) == "42:24"
  {
    assert 2544 / 60 == 42 && 2544 % 60 == 24;
    TwoDigits(42);
    TwoDigits(24);
    assert DigitChar(4) == '4' && DigitChar(2) == '2';
    assert NatToString(42) == "42" && NatToString(24) == "24";
    assert PadStart("24", 2, '0') == "24";
  }

  /** The page's duration: minute 47, seconds padded to "00". */
  lemma FormatTimeDuration()
    ensures FormatTime(2820) == "47:00"
  {
    assert 2820 / 60 == 47 && 2820 % 60 == 0;
    TwoDigits(47);
    assert DigitChar(4) == '4' && DigitChar(7) == '7' && DigitChar(0) == '0';
    assert NatToString(47) == "47";
    PadOneDigit(0);
  }

  /** An hour shows as 60 minutes: there is no hour field. */
  lemma FormatTimeNoHours()
    ensures FormatTime(3600) == "60:00"
  {
    assert 3600 / 60 == 60 && 3600 % 60 == 0;
    TwoDigits(60);
    assert DigitChar(6) == '6' && DigitChar(0) == '0';
    assert NatToString(60) == "60";
    PadOneDigit(0);
  }

  /** The mute button and the volume slider. */
  class VolumeControl {
    var isMuted: bool
    var volume: int

    constructor ()
      ensures !isMuted && volume == 80
    {
      isMuted := false;
      volume := 80;
    }

    /** The value the slider displays: 0 while muted. */
    function SliderValue(): (r: int)
      reads this
      ensures isMuted ==> r == 0
      ensures !isMuted ==> r == volume
    {
      if isMuted then 0 else volume
    }

    /** The mute button flips `isMuted` and keeps the stored volume. */
    method ToggleMute()
      modifies this
      ensures isMuted == !old(isMuted) && volume == old(volume)
      ensures SliderValue() == if isMuted then 0 else old(volume)
    {
      isMuted := !isMuted;
    }

    /** The slider handler stores the value and mutes exactly at 0; the
        slider then shows the value that was set. */
    method OnVolumeChange(value: int)
      modifies this
      ensures volume == value && (isMuted <==> value == 0)
      ensures SliderValue() == value
    {
      volume := value;
      isMuted := value == 0;
    }
  }
}
