/** The player queue demo screen: load an album's tracks, set them as the
    queue, insert one track at index 2, remove the last two entries, clear,
    and an operation log kept newest first. */
module PlayerQueue {

  import opened Wrappers
  import opened MusicKit
  import PlayerObserver

  /** A queue entry: the id of the item it plays, if resolved, and a title. */
  datatype QueueEntry = QueueEntry(itemId: Option<string>, title: Option<string>)

  /** `ApplicationMusicPlayer.Queue.Entry(track)`. */
  function EntryFor(t: Track): QueueEntry {
    QueueEntry(Some(t.id), Some(t.title))
  }

  /** The log messages of the modelled operations, without their wording. */
  datatype LogMessage =
    | BeforeQueueSetup(entryCount: nat)
    | QueueInitialized(trackCount: nat)
    | AfterPrepare(entryCount: nat)
    | QueuedTitles(titles: seq<string>)
    | QueueInitFailed(description: string)
    | NoTrackToInsert
    | Inserted(position: nat, title: string)
    | QueueLength(entryCount: nat)
    | TransientEntry
    | WaitingForResolution
    | Removed(count: int)
    | Remaining(entryCount: nat)
    | QueueCleared

  /** A log line: the time it was written (already formatted) and what. */
  datatype LogLine = LogLine(timestamp: string, message: LogMessage)

  /** The most lines kept, and the most shown. */
  const MaxLogs: nat := 50
  const ShownLogs: nat := 10

  /** `addLog`: the new line goes first; once the log exceeds 50 lines the
      oldest one is dropped. */
  function AddLog(logs: seq<LogLine>, line: LogLine): (r: seq<LogLine>)
    ensures |r| > 0 && r[0] == line
    ensures |r| == if |logs| < MaxLogs then |logs| + 1 else |logs|
    ensures r[1..] == logs[..|r| - 1]
    ensures |logs| <= MaxLogs ==> |r| <= MaxLogs
  {
    var grown := [line] + logs;
    if |grown| > MaxLogs then grown[..|grown| - 1] else grown
  }

  /** Several lines written one after another with the same timestamp. */
  function AddLogs(logs: seq<LogLine>, timestamp: string, messages: seq<LogMessage>): (r: seq<LogLine>)
    ensures |logs| <= MaxLogs ==> |r| <= MaxLogs
    decreases |messages|
  {
    if |messages| == 0 then logs
    else AddLogs(AddLog(logs, LogLine(timestamp, messages[0])), timestamp, messages[1..])
  }

  /** Writing `k` lines moves the line at position `j` to `j + k`, as long
      as that stays within the cap. */
  lemma {:induction false} AddLogsShift(logs: seq<LogLine>, timestamp: string, messages: seq<LogMessage>, j: nat)
    requires j < |logs| && j + |messages| < MaxLogs
    ensures |AddLogs(logs, timestamp, messages)| > j + |messages|
    ensures AddLogs(logs, timestamp, messages)[j + |messages|] == logs[j]
    decreases |messages|
  {
    if |messages| > 0 {
      var first := AddLog(logs, LogLine(timestamp, messages[0]));
      assert first[j + 1] == logs[j];
      AddLogsShift(first, timestamp, messages[1..], j + 1);
    }
  }

  /** After writing at most 50 lines, the log starts with them, newest
      first. */
  lemma AddLogsNewestFirst(logs: seq<LogLine>, timestamp: string, messages: seq<LogMessage>)
    requires |messages| <= MaxLogs
    ensures var r := AddLogs(logs, timestamp, messages);
      |r| >= |messages|
      && forall i :: 0 <= i < |messages| ==> r[i] == LogLine(timestamp, messages[|messages| - 1 - i])
  {
    if |messages| > 0 {
      AddLogsAt(logs, timestamp, messages, |messages| - 1);
    }
    forall i | 0 <= i < |messages|
      ensures |AddLogs(logs, timestamp, messages)| > i
      ensures AddLogs(logs, timestamp, messages)[i] == LogLine(timestamp, messages[|messages| - 1 - i])
    {
      AddLogsAt(logs, timestamp, messages, i);
    }
  }

  /** Writing one more line after several is `AddLog` of that line. */
  lemma {:induction false} AddLogsSnoc(logs: seq<LogLine>, timestamp: string, messages: seq<LogMessage>, m: LogMessage)
    ensures AddLogs(logs, timestamp, messages + [m]) == AddLog(AddLogs(logs, timestamp, messages), LogLine(timestamp, m))
    decreases |messages|
  {
    if |messages| == 0 {
      assert messages + [m] == [m];
    } else {
      assert (messages + [m])[1..] == messages[1..] + [m];
      AddLogsSnoc(AddLog(logs, LogLine(timestamp, messages[0])), timestamp, messages[1..], m);
    }
  }

  /** The line at position `i` after writing at most 50 lines is the one
      written `i` lines before the last. */
  lemma {:induction false} AddLogsAt(logs: seq<LogLine>, timestamp: string, messages: seq<LogMessage>, i: nat)
    requires |messages| <= MaxLogs && i < |messages|
    ensures |AddLogs(logs, timestamp, messages)| > i
    ensures AddLogs(logs, timestamp, messages)[i] == LogLine(timestamp, messages[|messages| - 1 - i])
    decreases |messages|
  {
    var init, last := messages[..|messages| - 1], messages[|messages| - 1];
    assert messages == init + [last];
    AddLogsSnoc(logs, timestamp, init, last);
    if i > 0 {
      AddLogsAt(logs, timestamp, init, i - 1);
    }
  }

  /** The lines on screen: the first ten. */
  function DisplayedLogs(logs: seq<LogLine>): (r: seq<LogLine>)
    ensures |r| <= ShownLogs
    ensures |r| == if |logs| < ShownLogs then |logs| else ShownLogs
    ensures forall i :: 0 <= i < |r| ==> r[i] == logs[i]
  {
    if |logs| <= ShownLogs then logs else logs[..ShownLogs]
  }

  // -----------------------------------------------------------------------
  // Queue operations

  datatype QueueScreen = QueueScreen(
    albumTracks: seq<Track>,
    entries: seq<QueueEntry>,
    logs: seq<LogLine>,
    errorMessage: Option<string>,
    showError: bool,
    queueUpdateTrigger: nat)

  /** The item ids of the queue entries that have one (`compactMap`). */
  function QueuedIds(entries: seq<QueueEntry>): (r: set<string>)
    ensures forall id :: id in r <==> exists i :: 0 <= i < |entries| && entries[i].itemId == Some(id)
  {
    if |entries| == 0 then {}
    else
      var rest := QueuedIds(entries[1..]);
      assert forall i :: 1 <= i < |entries| ==> entries[i] == entries[1..][i - 1];
      (if entries[0].itemId.Some? then {entries[0].itemId.value} else {}) + rest
  }

  /** The first track, in album order, whose id is not in `queued`. */
  function FirstAvailable(tracks: seq<Track>, queued: set<string>): (r: Option<nat>)
    ensures r.Some? ==> r.value < |tracks| && tracks[r.value].id !in queued
    ensures r.Some? ==> forall i :: 0 <= i < r.value ==> tracks[i].id in queued
    ensures r.None? ==> forall i :: 0 <= i < |tracks| ==> tracks[i].id in queued
  {
    if |tracks| == 0 then None
    else if tracks[0].id !in queued then Some(0)
    else match FirstAvailable(tracks[1..], queued)
      case None => None
      case Some(k) => Some(k + 1)
  }

  /** Where the inserted entry goes: index 2, or the end of a shorter queue. */
  function InsertPosition(n: nat): nat {
    if n < 2 then n else 2
  }

  /** `insertTracksAtPosition`. `transient` is the new entry's `isTransient`. */
  function InsertTrack(s: QueueScreen, timestamp: string, transient: bool): (r: QueueScreen)
    ensures (|s.albumTracks| < 3 || |s.entries| == 0) ==> r == s
    ensures r.albumTracks == s.albumTracks
    ensures |s.albumTracks| >= 3 && |s.entries| > 0 ==>
      match FirstAvailable(s.albumTracks, QueuedIds(s.entries))
      case None =>
        r.entries == s.entries && r.logs == AddLog(s.logs, LogLine(timestamp, NoTrackToInsert))
      case Some(k) =>
        var p := InsertPosition(|s.entries|);
        && |r.entries| == |s.entries| + 1
        && r.entries[..p] == s.entries[..p]
        && r.entries[p] == EntryFor(s.albumTracks[k])
        && r.entries[p + 1..] == s.entries[p..]
        && |r.logs| >= (if transient then 4 else 2)
        && r.logs[..(if transient then 4 else 2)] ==
             [LogLine(timestamp, if transient then WaitingForResolution else QueueLength(|s.entries| + 1))]
             + (if transient then [LogLine(timestamp, TransientEntry), LogLine(timestamp, QueueLength(|s.entries| + 1))] else [])
             + [LogLine(timestamp, Inserted(p, s.albumTracks[k].title))]
  {
    if |s.albumTracks| < 3 || |s.entries| == 0 then s
    else
      match FirstAvailable(s.albumTracks, QueuedIds(s.entries))
      case None => s.(logs := AddLog(s.logs, LogLine(timestamp, NoTrackToInsert)))
      case Some(k) =>
        var track := s.albumTracks[k];
        var p := InsertPosition(|s.entries|);
        var entries := s.entries[..p] + [EntryFor(track)] + s.entries[p..];
        var messages := [Inserted(p, track.title), QueueLength(|entries|)]
          + (if transient then [TransientEntry, WaitingForResolution] else []);
        AddLogsNewestFirst(s.logs, timestamp, messages);
        s.(entries := entries, logs := AddLogs(s.logs, timestamp, messages))
  }

  /** Inserting changes the queue and the log and nothing else: the album's
      tracks, the alert and the update counter are left alone. */
  lemma InsertTrackFrame(s: QueueScreen, timestamp: string, transient: bool)
    ensures InsertTrack(s, timestamp, transient) == s.(entries := InsertTrack(s, timestamp, transient).entries,
                                                       logs := InsertTrack(s, timestamp, transient).logs)
  {
  }

  /** An inserted track was not queued before, and it is the first such track
      of the album; a queue with no room for a new id is left alone. */
  lemma InsertedTrackIsNew(s: QueueScreen, timestamp: string, transient: bool)
    requires |s.albumTracks| >= 3 && |s.entries| > 0
    ensures var r := InsertTrack(s, timestamp, transient);
      |r.entries| == |s.entries| + 1 ==>
        var p := InsertPosition(|s.entries|);
        r.entries[p].itemId.Some?
        && (forall i :: 0 <= i < |s.entries| ==> s.entries[i].itemId != r.entries[p].itemId)
    ensures var r := InsertTrack(s, timestamp, transient);
      |r.entries| == |s.entries| <==> forall i :: 0 <= i < |s.albumTracks| ==> s.albumTracks[i].id in QueuedIds(s.entries)
  {
  }

  /** `removeMultipleTracks`: with at least three entries, remove from the
      end twice, never touching index 0, and log the difference. */
  method RemoveLastTwo(s: QueueScreen, timestamp: string) returns (r: QueueScreen)
    ensures |s.entries| < 3 ==> r == s
    ensures |s.entries| >= 3 ==>
      && r.entries == s.entries[..|s.entries| - 2]
      && r.entries[0] == s.entries[0]
      && r.logs == AddLogs(s.logs, timestamp, [Removed(|s.entries| - |r.entries|), Remaining(|r.entries|)])
      && |r.logs| >= 2 && r.logs[1] == LogLine(timestamp, Removed(2))
    ensures r == s.(entries := r.entries, logs := r.logs)
  {
    if |s.entries| < 3 {
      return s;
    }
    var countBefore := |s.entries|;
    var removeCount := if 2 < countBefore - 1 then 2 else countBefore - 1;
    var entries := s.entries;
    var i := 0;
    while i < removeCount
      invariant 0 <= i <= removeCount
      invariant entries == s.entries[..countBefore - i]
    {
      var lastIndex := |entries| - 1;
      if lastIndex > 0 {
        entries := entries[..lastIndex];
      }
      i := i + 1;
    }
    var countAfter := |entries|;
    var messages := [Removed(countBefore - countAfter), Remaining(countAfter)];
    AddLogsNewestFirst(s.logs, timestamp, messages);
    r := s.(entries := entries, logs := AddLogs(s.logs, timestamp, messages));
  }

  /** The first `min(5, n)` tracks. */
  function TracksToQueue(tracks: seq<Track>): (r: seq<Track>)
    ensures |r| == if |tracks| < 5 then |tracks| else 5
    ensures r == tracks[..|r|]
  {
    if |tracks| <= 5 then tracks else tracks[..5]
  }

  function EntriesFor(tracks: seq<Track>): (r: seq<QueueEntry>)
    ensures |r| == |tracks|
    ensures forall i :: 0 <= i < |r| ==> r[i] == EntryFor(tracks[i])
  {
    if |tracks| == 0 then [] else [EntryFor(tracks[0])] + EntriesFor(tracks[1..])
  }

  function Titles(tracks: seq<Track>): (r: seq<string>)
    ensures |r| == |tracks|
    ensures forall i :: 0 <= i < |r| ==> r[i] == tracks[i].title
  {
    if |tracks| == 0 then [] else [tracks[0].title] + Titles(tracks[1..])
  }

  const QueueInitFailedPrefix: string := "Failed to initialize queue: "

  /** `initializeQueue`: queue the first five tracks, then prepare the
      player (`prepared` is what `prepareToPlay` does). The queue is assigned
      before preparing, so it is set even when preparing fails. */
  function InitializeQueue(s: QueueScreen, timestamp: string, prepared: Result<(), string>): (r: QueueScreen)
    ensures |s.albumTracks| == 0 ==> r == s
    ensures |s.albumTracks| > 0 ==>
      var n := if |s.albumTracks| < 5 then |s.albumTracks| else 5;
      && |r.entries| == n
      && (forall i :: 0 <= i < n ==> r.entries[i] == EntryFor(s.albumTracks[i]))
      && (prepared.Success? ==>
            && r.queueUpdateTrigger == s.queueUpdateTrigger + 1
            && r.showError == s.showError && r.errorMessage == s.errorMessage
            && |r.logs| > 0 && r.logs[0] == LogLine(timestamp, QueuedTitles(Titles(s.albumTracks[..n]))))
      && (prepared.Failure? ==>
            && r.showError && r.errorMessage == Some(QueueInitFailedPrefix + prepared.error)
            && r.queueUpdateTrigger == s.queueUpdateTrigger)
    ensures r == s.(entries := r.entries, logs := r.logs, queueUpdateTrigger := r.queueUpdateTrigger,
                    errorMessage := r.errorMessage, showError := r.showError)
  {
    if |s.albumTracks| == 0 then s
    else
      var tracks := TracksToQueue(s.albumTracks);
      var before := AddLogs(s.logs, timestamp, [BeforeQueueSetup(|s.entries|)]);
      var entries := EntriesFor(tracks);
      match prepared
      case Success(_) =>
        var messages := [QueueInitialized(|tracks|), AfterPrepare(|entries|), QueuedTitles(Titles(tracks))];
        AddLogsNewestFirst(before, timestamp, messages);
        s.(entries := entries, logs := AddLogs(before, timestamp, messages),
           queueUpdateTrigger := s.queueUpdateTrigger + 1)
      case Failure(description) =>
        s.(entries := entries, logs := AddLogs(before, timestamp, [QueueInitFailed(description)]),
           errorMessage := Some(QueueInitFailedPrefix + description), showError := true)
  }

  /** `clearQueue`. */
  function ClearQueue(s: QueueScreen, timestamp: string): (r: QueueScreen)
    ensures |r.entries| == 0
    ensures r.logs == AddLog(s.logs, LogLine(timestamp, QueueCleared))
    ensures r == s.(entries := r.entries, logs := r.logs)
  {
    s.(entries := [], logs := AddLog(s.logs, LogLine(timestamp, QueueCleared)))
  }

  // -----------------------------------------------------------------------
  // Buttons

  predicate InsertDisabled(s: QueueScreen) {
    |s.albumTracks| < 3 || |s.entries| == 0
  }

  predicate RemoveDisabled(s: QueueScreen) {
    |s.entries| < 3
  }

  /** Clear and the three playback buttons share this condition. */
  predicate QueueEmpty(s: QueueScreen) {
    |s.entries| == 0
  }

  /** A disabled insert button matches the insert's early return, and an
      enabled one either grows the queue or logs why not. Clear is disabled
      only on an empty queue, which clearing would leave empty (it would
      still write its log line). */
  lemma ButtonsMirrorGuards(s: QueueScreen, timestamp: string, transient: bool)
    ensures InsertDisabled(s) ==> InsertTrack(s, timestamp, transient) == s
    ensures !InsertDisabled(s) ==>
      |InsertTrack(s, timestamp, transient).entries| == |s.entries| + 1
      || InsertTrack(s, timestamp, transient).logs[0] == LogLine(timestamp, NoTrackToInsert)
    ensures QueueEmpty(s) ==> ClearQueue(s, timestamp).entries == s.entries
  {
    if !InsertDisabled(s) {
      var r := InsertTrack(s, timestamp, transient);
      if FirstAvailable(s.albumTracks, QueuedIds(s.entries)).Some? {
        assert |r.entries| == |s.entries| + 1;
      }
    }
  }

  /** A disabled remove button matches the method's early return, and an
      enabled one always removes two entries. */
  method RemoveButtonMatchesGuard(s: QueueScreen, timestamp: string) returns (r: QueueScreen)
    ensures RemoveDisabled(s) ==> r == s
    ensures !RemoveDisabled(s) ==> |r.entries| == |s.entries| - 2 && |r.entries| >= 1
  {
    r := RemoveLastTwo(s, timestamp);
  }

  /** `playbackStatusText` of this screen: the same label table as the
      observer screen's, so the label tells the status back here too. */
  function PlaybackStatusText(status: PlaybackStatus): (r: string)
    ensures PlayerObserver.StatusOfText(r) == Some(status)
  {
    PlayerObserver.StatusText(status)
  }
}
