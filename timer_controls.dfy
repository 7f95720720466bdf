/** The sleep-timer panel: `formatTime` and the active/inactive choice. */
module TimerControls {
  import Text
  import opened AppState

  /** `formatTime(seconds)` for the non-negative counts the timer holds:
      minutes (unbounded, no hour rollover), ':', seconds padded to two digits. */
  function FormatTime(seconds: nat): string {
    Text.NatToString(seconds / 60) + ":" + Text.PadStart2(Text.NatToString(seconds % 60))
  }

  /** The shape of the display: the minutes, a colon, and exactly two digits
      that read back as the seconds within the minute. */
  lemma FormatTimeShape(seconds: nat)
    ensures var r := FormatTime(seconds);
      && |r| >= 4 && r[|r| - 3] == ':'
      && r[..|r| - 3] == Text.NatToString(seconds / 60)
      && Text.AllDigits(r[|r| - 2..]) && Text.ParseNat(r[|r| - 2..]) == seconds % 60
  {
    Text.TwoDigits(seconds % 60);
    ColonSplit(Text.NatToString(seconds / 60), Text.PadStart2(Text.NatToString(seconds % 60)));
  }

  /** Where the parts of `m:ss` sit. */
  lemma ColonSplit(m: string, ss: string)
    requires |ss| == 2
    ensures var r := m + ":" + ss;
      |r| == |m| + 3 && r[..|r| - 3] == m && r[|r| - 3] == ':' && r[|r| - 2..] == ss
  {
  }

  /** The display is lossless: the text after ':' is exactly two digits, and
      minutes * 60 + seconds read back from the two halves is the input. */
  lemma FormatTimeLossless(seconds: nat)
    ensures
      var r := FormatTime(seconds);
      && |r| >= 4 && r[|r| - 3] == ':'
      && Text.AllDigits(r[..|r| - 3]) && Text.AllDigits(r[|r| - 2..])
      && Text.ParseNat(r[..|r| - 3]) * 60 + Text.ParseNat(r[|r| - 2..]) == seconds
  {
    FormatTimeShape(seconds);
    Text.ParseNatToString(seconds / 60);
  }

  /** No hour rollover: an hour shows as sixty minutes. */
  lemma HourShowsAsSixtyMinutes()
    ensures FormatTime(3600) == "60:00"
  {
    assert Text.NatToString(60) == Text.NatToString(6) + [Text.DigitChar(0)];
  }

  /** What the panel renders. */
  datatype TimerView =
    | Countdown(text: string)            // formatTime(remaining) and a Cancel button
    | StartButtons(minutes: seq<nat>)    // one start button per entry

  function View(t: Timer): (v: TimerView)
    requires t.remaining >= 0
    ensures t.active <==> v.Countdown?
    ensures t.active ==> v.text == FormatTime(t.remaining)
    ensures !t.active ==> v.minutes == [15, 30, 60]
  {
    if t.active then Countdown(FormatTime(t.remaining)) else StartButtons([15, 30, 60])
  }
}
