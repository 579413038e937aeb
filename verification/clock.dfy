/** The `m:ss` countdown display. The meditation gate and the break timer
    each define the same `formatTime`; the model defines it once. */
module Clock {
  import opened Wrappers
  import opened Text

  /** `formatTime(seconds)`: the whole minutes, a colon, then the seconds
      left over, padded to two digits. The seconds part is below 60; the
      minutes are written as `toString` writes them, with no padding. */
  function FormatTime(seconds: nat): (r: string)
    ensures |r| >= 4 && r[|r| - 3] == ':'
    ensures r[..|r| - 3] == Digits(seconds / 60)
    ensures AllDigits(r[..|r| - 3]) && AllDigits(r[|r| - 2..])
    ensures ParseDigits(r[|r| - 2..]) == seconds % 60 < 60
  {
    var secs := Digits(seconds % 60);
    var padded := PadStart2(secs);
    assert |secs| == 1 ==> padded == ['0'] + secs && ParseDigits(padded) == ParseDigits(secs) by {
      if |secs| == 1 {
        assert padded[..1] == ['0'];
      }
    }
    var mins := Digits(seconds / 60);
    var r := mins + ":" + padded;
    assert r[|r| - 2..] == padded;
    assert r[..|r| - 3] == mins;
    r
  }

  /** Position of the first colon in `t`, or `|t|` when there is none. */
  function ColonIndex(t: string): (i: nat)
    ensures i <= |t|
    ensures i < |t| ==> t[i] == ':'
    ensures forall j :: 0 <= j < i ==> t[j] != ':'
  {
    if t == [] || t[0] == ':' then 0 else 1 + ColonIndex(t[1..])
  }

  /** Reads an `m:ss` display back as a number of seconds: the digits before
      the first colon are minutes, the digits after it seconds. */
  function ParseTime(t: string): Option<nat> {
    var i := ColonIndex(t);
    if i < |t| && AllDigits(t[..i]) && AllDigits(t[i + 1..]) then
      Some(ParseDigits(t[..i]) * 60 + ParseDigits(t[i + 1..]))
    else
      None
  }

  /** The display loses nothing: reading it back gives the seconds shown. */
  lemma FormatTimeRoundTrip(seconds: nat)
    ensures ParseTime(FormatTime(seconds)) == Some(seconds)
  {
    var mins := Digits(seconds / 60);
    var r := FormatTime(seconds);
    assert r[..|mins|] == mins;
    assert r[|mins|] == ':';
    assert ColonIndex(r) == |mins| by {
      assert forall j :: 0 <= j < |mins| ==> r[j] != ':' by {
        forall j | 0 <= j < |mins| ensures r[j] != ':' {
          assert r[j] == mins[j] && IsDigit(mins[j]);
        }
      }
    }
    assert r[|mins| + 1..] == r[|r| - 2..];
  }
}
