/** The system music player observer screen: the status-to-text, icon and
    colour tables, the `m:ss` playback time, and the refresh timer. */
module PlayerObserver {

  import opened Wrappers
  import opened MusicKit
  import opened Palette
  import opened Text

  /** The status label; the label alone tells which status is shown. */
  function StatusText(status: PlaybackStatus): (r: string)
    ensures StatusOfText(r) == Some(status)
  {
    match status
    case Playing => "Playing"
    case Paused => "Paused"
    case Stopped => "Stopped"
    case Interrupted => "Interrupted"
    case SeekingForward => "Seeking Forward"
    case SeekingBackward => "Seeking Backward"
    case Unrecognized => "Unknown"
  }

  /** The status icon name; the icon alone tells which status is shown. */
  function StatusIcon(status: PlaybackStatus): (r: string)
    ensures StatusOfIcon(r) == Some(status)
  {
    match status
    case Playing => "play.circle.fill"
    case Paused => "pause.circle.fill"
    case Stopped => "stop.circle.fill"
    case Interrupted => "exclamationmark.triangle.fill"
    case SeekingForward => "forward.circle.fill"
    case SeekingBackward => "backward.circle.fill"
    case Unrecognized => "questionmark.circle.fill"
  }

  /** The status colour: gray only for the fallback, blue for both seeking
      directions and for nothing else. */
  function StatusColor(status: PlaybackStatus): (c: Color)
    ensures c == Gray <==> status == Unrecognized
    ensures c == Blue <==> status == SeekingForward || status == SeekingBackward
  {
    match status
    case Playing => Green
    case Paused => Orange
    case Stopped => Red
    case Interrupted => Yellow
    case SeekingForward => Blue
    case SeekingBackward => Blue
    case Unrecognized => Gray
  }

  /** Text and icon tell every status apart, the fallback included; the
      colour tells them apart too, except that both seeking directions are
      blue. */
  lemma StatusTablesDistinguish(a: PlaybackStatus, b: PlaybackStatus)
    requires a != b
    ensures StatusText(a) != StatusText(b)
    ensures StatusIcon(a) != StatusIcon(b)
    ensures StatusColor(a) == StatusColor(b) <==> (a.SeekingForward? && b.SeekingBackward?) || (a.SeekingBackward? && b.SeekingForward?)
  {
  }

  /** Reads a status back from its text. */
  function StatusOfText(text: string): Option<PlaybackStatus> {
    if text == "Playing" then Some(Playing)
    else if text == "Paused" then Some(Paused)
    else if text == "Stopped" then Some(Stopped)
    else if text == "Interrupted" then Some(Interrupted)
    else if text == "Seeking Forward" then Some(SeekingForward)
    else if text == "Seeking Backward" then Some(SeekingBackward)
    else if text == "Unknown" then Some(Unrecognized)
    else None
  }

  /** Reads a status back from its icon name. */
  function StatusOfIcon(icon: string): Option<PlaybackStatus> {
    if icon == "play.circle.fill" then Some(Playing)
    else if icon == "pause.circle.fill" then Some(Paused)
    else if icon == "stop.circle.fill" then Some(Stopped)
    else if icon == "exclamationmark.triangle.fill" then Some(Interrupted)
    else if icon == "forward.circle.fill" then Some(SeekingForward)
    else if icon == "backward.circle.fill" then Some(SeekingBackward)
    else if icon == "questionmark.circle.fill" then Some(Unrecognized)
    else None
  }

  /** The playback time row is shown while playing or paused only. */
  predicate PlaybackTimeVisible(status: PlaybackStatus) {
    status == Playing || status == Paused
  }

  // -----------------------------------------------------------------------
  // formatTime

  /** Swift's `Int` division, which truncates toward zero. */
  function TruncDiv(a: int, b: int): int
    requires b > 0
  {
    if a >= 0 then a / b else -((-a) / b)
  }

  /** Swift's `%`, whose result takes the sign of the dividend. */
  function TruncRem(a: int, b: int): int
    requires b > 0
  {
    a - b * TruncDiv(a, b)
  }

  datatype MinSec = MinSec(minutes: int, seconds: int)

  /** `totalSeconds / 60` and `totalSeconds % 60`. */
  function Decompose(total: int): (r: MinSec)
    ensures r.minutes * 60 + r.seconds == total
    ensures -60 < r.seconds < 60
    ensures total >= 0 ==> r.minutes >= 0 && 0 <= r.seconds < 60
    ensures total < 0 ==> r.minutes <= 0 && r.seconds <= 0
  {
    MinSec(TruncDiv(total, 60), TruncRem(total, 60))
  }

  /** `%02d`: zero-padded to two characters. */
  function Pad2(n: int): (r: string)
    ensures 0 <= n < 100 ==> |r| == 2 && forall i :: 0 <= i < 2 ==> IsDigit(r[i])
  {
    if 0 <= n < 10 then "0" + IntToString(n) else IntToString(n)
  }

  /** `formatTime` on a whole number of seconds: `"%d:%02d"`. */
  function FormatTime(total: int): (r: string)
    ensures total >= 0 ==> |r| >= 4 && r[|r| - 3] == ':'
  {
    var ms := Decompose(total);
    IntToString(ms.minutes) + ":" + Pad2(ms.seconds)
  }

  /** Reads `m:ss` back into seconds. */
  function ParseTime(text: string): Option<int> {
    ParseFields(Split(text, ':'))
  }

  /** Minutes and two-digit seconds, as split at the colon. */
  function ParseFields(fields: seq<string>): Option<int> {
    if |fields| != 2 || |fields[1]| != 2 then None
    else match (ParseNat(fields[0]), ParseNat(fields[1]))
      case (Some(m), Some(s)) => if s < 60 then Some(m * 60 + s) else None
      case _ => None
  }

  lemma Pad2Parses(n: nat)
    requires n < 60
    ensures ParseNat(Pad2(n)) == Some(n)
    ensures ':' !in Pad2(n)
  {
    ParseNatToString(n);
    if n < 10 {
      assert Pad2(n) == ['0', DigitChar(n)];
      assert Pad2(n)[..1] == "0";
    }
  }

  /** For a non-negative time the text reads back as the same number of
      seconds: minutes unpadded, then exactly two digits of seconds. */
  lemma FormatTimeRoundTrip(total: int)
    requires total >= 0
    ensures ParseTime(FormatTime(total)) == Some(total)
  {
    var ms := Decompose(total);
    var m, s := NatToString(ms.minutes), Pad2(ms.seconds);
    ParseNatToString(ms.minutes);
    Pad2Parses(ms.seconds);
    assert ':' !in m by {
      forall i | 0 <= i < |m| ensures m[i] != ':' { assert IsDigit(m[i]); }
    }
    ParseTimeFields(m, s, ms.minutes, ms.seconds);
  }

  /** A minutes field and a two-character seconds field, joined by a colon,
      read back as their total in seconds. */
  lemma ParseTimeFields(m: string, s: string, minutes: nat, seconds: nat)
    requires ':' !in m && ':' !in s && |s| == 2
    requires ParseNat(m) == Some(minutes) && ParseNat(s) == Some(seconds) && seconds < 60
    ensures ParseTime(m + ":" + s) == Some(minutes * 60 + seconds)
  {
    SplitAtColon(m, s);
    ParseTwoFields(m, s, minutes, seconds);
  }

  lemma SplitAtColon(m: string, s: string)
    requires ':' !in m && ':' !in s
    ensures Split(m + ":" + s, ':') == [m, s]
  {
    assert m + ":" + s == m + [':'] + s;
    SplitField(m, ':', s);
    SplitFree(s, ':');
  }

  lemma ParseTwoFields(m: string, s: string, minutes: nat, seconds: nat)
    requires |s| == 2
    requires ParseNat(m) == Some(minutes) && ParseNat(s) == Some(seconds) && seconds < 60
    ensures ParseFields([m, s]) == Some(minutes * 60 + seconds)
  {
  }


  // -----------------------------------------------------------------------
  // Refresh timer

  /** The screen's state: the last playback time read, the running timer
      (by an identifier), and the current entry's title. */
  datatype Observer = Observer(currentTime: int, timer: Option<nat>, currentEntry: Option<string>)

  /** `startTimer`: read the player now and schedule the repeating timer. */
  function StartTimer(o: Observer, timerId: nat, playbackTime: int, entry: Option<string>): (r: Observer)
    ensures r.timer == Some(timerId) && r.currentTime == playbackTime && r.currentEntry == entry
  {
    Observer(playbackTime, Some(timerId), entry)
  }

  /** `stopTimer`: invalidate and forget the timer. */
  function StopTimer(o: Observer): (r: Observer)
    ensures r.timer.None?
    ensures r.currentTime == o.currentTime && r.currentEntry == o.currentEntry
  {
    o.(timer := None)
  }

  lemma StopTimerIdempotent(o: Observer)
    ensures StopTimer(StopTimer(o)) == StopTimer(o)
  {
  }
}
