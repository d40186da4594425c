/**
 * Planning the transcoder calls that split one sound file into tracks.
 *
 * The input is the track file as a list of lines (as `readlines` gives
 * them): each line holds the start timecode of a track (`HH:MM:SS` or
 * `MM:SS`), a space, and the title. The output is one `ffmpeg` command per
 * track, in track order; every command but the last carries the track's
 * duration. Running the commands is not part of this model.
 */
module Split {
  import opened Wrappers
  import opened Strings

  const AudioCodec := "libmp3lame"
  const AudioBitrate := "320k"

  /** One entry of the track list: the `:`-separated timecode fields and the title, if the line had one. */
  datatype Track = Track(fields: seq<string>, title: Option<string>)

  /** Why no command list is produced. */
  datatype PlanError =
    | NoTracks          // empty track file: `tracklist[-1]` fails
    | InvalidTimecode   // a timecode with neither 2 nor 3 fields
    | NotANumber        // `int()` of a timecode field that is not a decimal digit string: `ValueError`
    | MissingField      // the next timecode has fewer fields than the length formula reads: `IndexError`
    | MissingTitle      // a line without a space: `tracklist[idx][1]` fails

  /** A planned `ffmpeg` call: `-ss` start, `-t` duration in seconds (none for the last track), output file. */
  datatype Command = Command(start: string, duration: Option<int>, outFile: string)

  // ---------------------------------------------------------------------
  // Reading the track file
  // ---------------------------------------------------------------------

  /** All newlines removed, then everything before the first space. */
  function TimecodeText(line: string): string
  {
    SplitOnce(RemoveAll(line, '\n'), ' ').0
  }

  /** A line joined back together from its track entry. */
  function Unparse(t: Track): string
  {
    Join(t.fields, ':') + (if t.title.Some? then " " + t.title.value else "")
  }

  /** The track entry of one line: timecode text split on `:`, title after the first space. */
  function ParseLine(line: string): (t: Track)
    ensures |t.fields| >= 1
    ensures forall k :: 0 <= k < |t.fields| ==> ':' !in t.fields[k]
    ensures t.title.Some? ==> '\n' !in t.title.value
  {
    var text := RemoveAll(line, '\n');
    var (head, title) := SplitOnce(text, ' ');
    Track(SplitOn(head, ':'), title)
  }

  function ParseLines(lines: seq<string>): (tracks: seq<Track>)
    ensures |tracks| == |lines|
    ensures forall i :: 0 <= i < |lines| ==> tracks[i] == ParseLine(lines[i])
  {
    seq(|lines|, i requires 0 <= i < |lines| => ParseLine(lines[i]))
  }

  /**
   * Parsing loses nothing but the newlines: the fields rejoined with `:` are
   * the timecode text, and with the title they give back the line.
   */
  lemma ParseLineRoundTrip(line: string)
    ensures Join(ParseLine(line).fields, ':') == TimecodeText(line)
    ensures Unparse(ParseLine(line)) == RemoveAll(line, '\n')
  {
    SplitTextRoundTrip(RemoveAll(line, '\n'));
  }

  /** The newline-free part of the round trip: splitting at the first space, then at `:`. */
  lemma SplitTextRoundTrip(text: string)
    ensures var (head, title) := SplitOnce(text, ' ');
      && Join(SplitOn(head, ':'), ':') == head
      && Unparse(Track(SplitOn(head, ':'), title)) == text
  {
    var (head, title) := SplitOnce(text, ' ');
    JoinSplitOn(head, ':');
    if title.Some? {
      assert text == head + [' '] + title.value;
      assert Unparse(Track(SplitOn(head, ':'), title)) == head + (" " + title.value);
    }
  }

  /**
   * The track-list loop: each line, with its newlines removed, is split at
   * the first space and appended; then the last entry's timecode text is
   * split on `:` in place.
   */
  method BuildTrackList(lines: seq<string>) returns (tracks: seq<Track>)
    ensures |tracks| == |lines|
    ensures forall i :: 0 <= i < |lines| ==> tracks[i] == ParseLine(lines[i])
  {
    tracks := [];
    var i := 0;
    while i < |lines|
      invariant 0 <= i <= |lines| && |tracks| == i
      invariant forall k :: 0 <= k < i ==> tracks[k] == ParseLine(lines[k])
    {
      var track := RemoveAll(lines[i], '\n');
      var (head, title) := SplitOnce(track, ' ');
      // Until the update below, the unsplit timecode text is the only field.
      tracks := tracks + [Track([head], title)];
      var last := |tracks| - 1;
      tracks := tracks[last := tracks[last].(fields := SplitOn(tracks[last].fields[0], ':'))];
      i := i + 1;
    }
  }

  // ---------------------------------------------------------------------
  // Timecodes
  // ---------------------------------------------------------------------

  /** Every field is a decimal digit string, so `int()` reads it. */
  predicate Numeric(fields: seq<string>)
  {
    forall k :: 0 <= k < |fields| ==> IsDecimal(fields[k])
  }

  /** A timecode as a number of seconds: `HH:MM:SS` or `MM:SS`, each field read by `int()` as `DigitsValue`. */
  function Seconds(fields: seq<string>): int
    requires |fields| == 2 || |fields| == 3
    requires Numeric(fields)
  {
    if |fields| == 3 then 3600 * DigitsValue(fields[0]) + 60 * DigitsValue(fields[1]) + DigitsValue(fields[2])
    else 60 * DigitsValue(fields[0]) + DigitsValue(fields[1])
  }

  /** The first `n` fields (or all, if there are fewer) are decimal digit strings. */
  predicate NumericUpTo(fields: seq<string>, n: int)
  {
    forall k :: 0 <= k < n && k < |fields| ==> IsDecimal(fields[k])
  }

  /**
   * Whether the length formula fails, and how: it fails unless the next
   * timecode has every field the current one has and all the fields it reads
   * are decimal; the failure is an `IndexError` when every field read
   * before the missing one is decimal, and a `ValueError` otherwise.
   */
  function LengthError(cur: seq<string>, next: seq<string>): (e: Option<PlanError>)
  {
    if |next| >= |cur| && Numeric(cur) && NumericUpTo(next, |cur|) then None
    else if |next| < |cur| && Numeric(next) && NumericUpTo(cur, |next|) then Some(MissingField)
    else Some(NotANumber)
  }

  /**
   * The length formula's reads in the order Python evaluates them: for
   * k = 0, 1, ... first `int(next[k])` (the index, then the conversion), then
   * `int(cur[k])`. The first read that fails decides the error, and that is
   * the error `LengthError` names.
   */
  function FirstLengthError(cur: seq<string>, next: seq<string>): (e: Option<PlanError>)
    ensures e == LengthError(cur, next)
    decreases |cur|
  {
    if |cur| == 0 then None
    else if |next| == 0 then Some(MissingField)
    else if !IsDecimal(next[0]) || !IsDecimal(cur[0]) then Some(NotANumber)
    else
      var e := FirstLengthError(cur[1..], next[1..]);
      assert forall k :: 1 <= k < |cur| ==> cur[k] == cur[1..][k - 1];
      assert forall k :: 1 <= k < |next| ==> next[k] == next[1..][k - 1];
      e
  }

  /**
   * The track length as the source computes it, field by field from the
   * next track's timecode read in the current track's format.
   */
  function TrackLength(cur: seq<string>, next: seq<string>): int
    requires |cur| == 2 || |cur| == 3
    requires LengthError(cur, next).None?
  {
    if |cur| == 3 then
      60 * 60 * (DigitsValue(next[0]) - DigitsValue(cur[0]))
      + 60 * (DigitsValue(next[1]) - DigitsValue(cur[1]))
      + (DigitsValue(next[2]) - DigitsValue(cur[2]))
    else
      60 * (DigitsValue(next[0]) - DigitsValue(cur[0]))
      + (DigitsValue(next[1]) - DigitsValue(cur[1]))
  }

  /**
   * The field-by-field length is the difference of the two timecodes in
   * seconds, the next one read in the current one's format; with the same
   * format it is the plain difference.
   */
  lemma TrackLengthIsGap(cur: seq<string>, next: seq<string>)
    requires |cur| == 2 || |cur| == 3
    requires LengthError(cur, next).None?
    ensures |next| >= |cur| && Numeric(next[..|cur|])
    ensures TrackLength(cur, next) == Seconds(next[..|cur|]) - Seconds(cur)
    ensures |next| == |cur| ==> Numeric(next) && TrackLength(cur, next) == Seconds(next) - Seconds(cur)
  {
    assert next[..|cur|] == next[..|cur|][..];
  }

  /** The `-ss` value, formatted from the fields as `"%s:%s:%s"` or `"%s:%s"`. */
  function Timecode(fields: seq<string>): string
    requires |fields| == 2 || |fields| == 3
  {
    if |fields| == 3 then fields[0] + ":" + fields[1] + ":" + fields[2]
    else fields[0] + ":" + fields[1]
  }

  /** The `-ss` value is the fields joined with `:`. */
  lemma TimecodeIsJoin(fields: seq<string>)
    requires |fields| == 2 || |fields| == 3
    ensures Timecode(fields) == Join(fields, ':')
  {
    assert fields[1..][1..] == fields[2..];
    if |fields| == 3 {
      assert Join(fields[1..], ':') == fields[1] + ":" + fields[2];
    }
  }

  // ---------------------------------------------------------------------
  // Commands
  // ---------------------------------------------------------------------

  /**
   * `"%02d - %s.mp3" % (number, title)`: the track's number, zero-padded to
   * two digits (more from track 100 on), then ` - `, the title and `.mp3`.
   */
  function OutFileName(number: nat, title: string): (f: string)
    ensures |Pad2(number)| <= |f|
    ensures IsDecimal(f[..|Pad2(number)|]) && DigitsValue(f[..|Pad2(number)|]) == number
    ensures number < 100 ==> |Pad2(number)| == 2
    ensures f[|Pad2(number)|..] == " - " + title + ".mp3"
  {
    var f := Pad2(number) + (" - " + title + ".mp3");
    assert f[..|Pad2(number)|] == Pad2(number);
    f
  }

  /** The part of a command line before the optional `-t` clause. */
  function CommandHead(start: string, soundfile: string): string
  {
    "ffmpeg -ss " + start + " -i \"" + soundfile + "\""
  }

  /** The part of a command line after the optional `-t` clause. */
  function CommandTail(outFile: string): string
  {
    " -vn -sn -c:a " + AudioCodec + " -b:a " + AudioBitrate + " \"" + outFile + "\""
  }

  /** The command line; the `-t` clause only when there is a duration. */
  function Render(cmd: Command, soundfile: string): string
  {
    CommandHead(cmd.start, soundfile)
    + (if cmd.duration.Some? then " -t " + IntToString(cmd.duration.value) else "")
    + CommandTail(cmd.outFile)
  }

  /**
   * The layout the two format strings give a command line: the `-ss` start
   * and the quoted input file first, the codec options and the quoted output
   * file last, and in between the `-t` clause exactly when there is a duration.
   */
  lemma RenderLayout(cmd: Command, soundfile: string)
    ensures var r, head, tail := Render(cmd, soundfile), CommandHead(cmd.start, soundfile), CommandTail(cmd.outFile);
      && |head| + |tail| <= |r|
      && r[..|head|] == head
      && r[|r| - |tail|..] == tail
      && r[|head|..|r| - |tail|] == (if cmd.duration.Some? then " -t " + IntToString(cmd.duration.value) else "")
  {
    var head, tail := CommandHead(cmd.start, soundfile), CommandTail(cmd.outFile);
    var mid := if cmd.duration.Some? then " -t " + IntToString(cmd.duration.value) else "";
    var r := Render(cmd, soundfile);
    assert r == head + mid + tail;
    assert r[..|head|] == head;
    assert r[|r| - |tail|..] == tail;
    assert r[|head|..|r| - |tail|] == mid;
  }

  /**
   * What goes wrong at track `idx`, in the order the source meets it: the
   * field count, then the reads of the length formula (not for the last
   * track, which has no duration), then the title.
   */
  function TrackError(tracks: seq<Track>, idx: int): Option<PlanError>
    requires 0 <= idx < |tracks|
  {
    var t := tracks[idx];
    if |t.fields| != 2 && |t.fields| != 3 then Some(InvalidTimecode)
    else if idx + 1 < |tracks| && LengthError(t.fields, tracks[idx + 1].fields).Some? then
      LengthError(t.fields, tracks[idx + 1].fields)
    else if t.title.None? then Some(MissingTitle)
    else None
  }

  /**
   * The field-count check comes first; otherwise a track is error-free
   * exactly when it has a title and, unless it is the last, the fields the
   * length formula reads are all there and all decimal.
   */
  lemma TrackErrorCases(tracks: seq<Track>, idx: int)
    requires 0 <= idx < |tracks|
    ensures TrackError(tracks, idx) == Some(InvalidTimecode) <==>
      |tracks[idx].fields| != 2 && |tracks[idx].fields| != 3
    ensures TrackError(tracks, idx).None? <==>
      && (|tracks[idx].fields| == 2 || |tracks[idx].fields| == 3)
      && (idx + 1 < |tracks| ==>
            |tracks[idx + 1].fields| >= |tracks[idx].fields|
            && Numeric(tracks[idx].fields) && NumericUpTo(tracks[idx + 1].fields, |tracks[idx].fields|))
      && tracks[idx].title.Some?
  {
  }

  /** The command planned for track `idx` (numbered from 1 in its file name). */
  function PlannedCommand(tracks: seq<Track>, idx: int): Command
    requires 0 <= idx < |tracks| && TrackError(tracks, idx) == None
  {
    var t := tracks[idx];
    Command(
      Timecode(t.fields),
      if idx + 1 < |tracks| then Some(TrackLength(t.fields, tracks[idx + 1].fields)) else None,
      OutFileName(idx + 1, t.title.value))
  }

  /**
   * A planned command starts at the track's own timecode and, unless it is
   * the last, lasts until the next track's timecode read in this track's
   * format; its output file is named after the 1-based track number.
   */
  lemma PlannedCommandParts(tracks: seq<Track>, idx: int)
    requires 0 <= idx < |tracks| && TrackError(tracks, idx) == None
    ensures |tracks[idx].fields| == 2 || |tracks[idx].fields| == 3
    ensures PlannedCommand(tracks, idx).start == Join(tracks[idx].fields, ':')
    ensures PlannedCommand(tracks, idx).duration.None? <==> idx == |tracks| - 1
    ensures idx < |tracks| - 1 ==>
      |tracks[idx + 1].fields| >= |tracks[idx].fields| &&
      PlannedCommand(tracks, idx).duration ==
        Some(Seconds(tracks[idx + 1].fields[..|tracks[idx].fields|]) - Seconds(tracks[idx].fields))
    ensures PlannedCommand(tracks, idx).outFile == OutFileName(idx + 1, tracks[idx].title.value)
  {
    TimecodeIsJoin(tracks[idx].fields);
    if idx < |tracks| - 1 {
      TrackLengthIsGap(tracks[idx].fields, tracks[idx + 1].fields);
    }
  }

  /**
   * One step of the command loop, for a track that has a successor: the
   * length and the `-ss` value from the timecode, then the file name and
   * the command line.
   */
  method InnerCommand(tracks: seq<Track>, idx: int, soundfile: string) returns (r: Result<string, PlanError>)
    requires 0 <= idx < |tracks| - 1
    ensures r.Err? <==> TrackError(tracks, idx).Some?
    ensures r.Err? ==> TrackError(tracks, idx) == Some(r.error)
    ensures r.Ok? ==> r.value == Render(PlannedCommand(tracks, idx), soundfile)
  {
    var t, next := tracks[idx], tracks[idx + 1];
    var trackLength := 0;
    var timecode := "0";
    if |t.fields| == 3 || |t.fields| == 2 {
      var lengthError := FirstLengthError(t.fields, next.fields);
      if lengthError.Some? {
        return Err(lengthError.value);
      }
      trackLength := TrackLength(t.fields, next.fields);
      timecode := Timecode(t.fields);
    } else {
      return Err(InvalidTimecode);
    }
    if t.title.None? {
      return Err(MissingTitle);
    }
    var outFileName := OutFileName(idx + 1, t.title.value);
    return Ok(Render(Command(timecode, Some(trackLength), outFileName), soundfile));
  }

  /** The last track's command: as an inner one, but without a duration. */
  method LastCommand(tracks: seq<Track>, soundfile: string) returns (r: Result<string, PlanError>)
    requires |tracks| > 0
    ensures r.Err? <==> TrackError(tracks, |tracks| - 1).Some?
    ensures r.Err? ==> TrackError(tracks, |tracks| - 1) == Some(r.error)
    ensures r.Ok? ==> r.value == Render(PlannedCommand(tracks, |tracks| - 1), soundfile)
  {
    var last := tracks[|tracks| - 1];
    var timecode := "";
    if |last.fields| == 3 || |last.fields| == 2 {
      timecode := Timecode(last.fields);
    } else {
      return Err(InvalidTimecode);
    }
    if last.title.None? {
      return Err(MissingTitle);
    }
    var outFileName := OutFileName(|tracks|, last.title.value);
    return Ok(Render(Command(timecode, None, outFileName), soundfile));
  }

  /**
   * The commands for the first `n` tracks, or the error of the first of them
   * that fails.
   */
  function PlanPrefix(tracks: seq<Track>, n: int, soundfile: string): Result<seq<string>, PlanError>
    requires 0 <= n <= |tracks|
  {
    if n == 0 then Ok([])
    else
      match PlanPrefix(tracks, n - 1, soundfile)
      case Err(e) => Err(e)
      case Ok(cmds) =>
        match TrackError(tracks, n - 1)
        case Some(e) => Err(e)
        case None => Ok(cmds + [Render(PlannedCommand(tracks, n - 1), soundfile)])
  }

  /** The command list for a whole track list; there is none without tracks. */
  function Plan(tracks: seq<Track>, soundfile: string): Result<seq<string>, PlanError>
  {
    if |tracks| == 0 then Err(NoTracks) else PlanPrefix(tracks, |tracks|, soundfile)
  }

  /**
   * The command loop: one command per track, in track order, stopping at the
   * first track that fails; then the last track.
   */
  method PlanCommands(tracks: seq<Track>, soundfile: string) returns (r: Result<seq<string>, PlanError>)
    ensures r == Plan(tracks, soundfile)
  {
    var cmds: seq<string> := [];
    var idx := 0;
    while idx < |tracks| - 1
      invariant 0 <= idx <= if |tracks| == 0 then 0 else |tracks| - 1
      invariant PlanPrefix(tracks, idx, soundfile) == Ok(cmds)
    {
      var cmd := InnerCommand(tracks, idx, soundfile);
      if cmd.Err? {
        PlanStopsAtError(tracks, idx + 1, |tracks|, soundfile);
        return Err(cmd.error);
      }
      cmds := cmds + [cmd.value];
      idx := idx + 1;
    }

    // ... and the last track.
    if |tracks| == 0 {
      return Err(NoTracks);
    }
    var cmd := LastCommand(tracks, soundfile);
    if cmd.Err? {
      return Err(cmd.error);
    }
    cmds := cmds + [cmd.value];
    return Ok(cmds);
  }

  /** Once a prefix of the plan fails, every longer prefix fails with the same error. */
  lemma {:induction false} PlanStopsAtError(tracks: seq<Track>, n: int, m: int, soundfile: string)
    requires 0 <= n <= m <= |tracks|
    requires PlanPrefix(tracks, n, soundfile).Err?
    ensures PlanPrefix(tracks, m, soundfile) == PlanPrefix(tracks, n, soundfile)
    decreases m - n
  {
    if n < m {
      PlanStopsAtError(tracks, n, m - 1, soundfile);
    }
  }

  /** The track-file part of the program: read the lines into tracks, then plan the commands. */
  method SplitCommands(lines: seq<string>, soundfile: string) returns (r: Result<seq<string>, PlanError>)
    ensures r == Plan(ParseLines(lines), soundfile)
  {
    var tracks := BuildTrackList(lines);
    assert tracks == ParseLines(lines);
    r := PlanCommands(tracks, soundfile);
  }

  // ---------------------------------------------------------------------
  // Properties of the plan
  // ---------------------------------------------------------------------

  /** A plan prefix succeeds exactly when none of its tracks fails. */
  lemma {:induction false} PlanPrefixOk(tracks: seq<Track>, n: int, soundfile: string)
    requires 0 <= n <= |tracks|
    ensures PlanPrefix(tracks, n, soundfile).Ok? <==> forall k :: 0 <= k < n ==> TrackError(tracks, k) == None
  {
    if n > 0 {
      PlanPrefixOk(tracks, n - 1, soundfile);
      var prev := PlanPrefix(tracks, n - 1, soundfile);
      if prev.Err? {
        assert PlanPrefix(tracks, n, soundfile) == Err(prev.error);
        var k :| 0 <= k < n - 1 && TrackError(tracks, k) != None;
      } else if TrackError(tracks, n - 1).Some? {
        assert PlanPrefix(tracks, n, soundfile) == Err(TrackError(tracks, n - 1).value);
      } else {
        assert PlanPrefix(tracks, n, soundfile).Ok?;
        forall k | 0 <= k < n
          ensures TrackError(tracks, k) == None
        {
          if k < n - 1 {
            assert 0 <= k < n - 1;
          }
        }
      }
    }
  }

  /** When none of its tracks fails, a plan prefix holds one command per track, in track order. */
  lemma {:induction false} PlanPrefixCommands(tracks: seq<Track>, n: int, soundfile: string)
    requires 0 <= n <= |tracks|
    requires forall k :: 0 <= k < n ==> TrackError(tracks, k) == None
    ensures PlanPrefix(tracks, n, soundfile).Ok?
    ensures |PlanPrefix(tracks, n, soundfile).value| == n
    ensures forall k :: 0 <= k < n ==>
      PlanPrefix(tracks, n, soundfile).value[k] == Render(PlannedCommand(tracks, k), soundfile)
  {
    if n > 0 {
      PlanPrefixCommands(tracks, n - 1, soundfile);
      var prev := PlanPrefix(tracks, n - 1, soundfile).value;
      var last := Render(PlannedCommand(tracks, n - 1), soundfile);
      var cmds := prev + [last];
      assert PlanPrefix(tracks, n, soundfile) == Ok(cmds);
      forall k | 0 <= k < n
        ensures cmds[k] == Render(PlannedCommand(tracks, k), soundfile)
      {
        SnocIndex(prev, last, k);
      }
    }
  }

  /** Indexing into a list with one command appended. */
  lemma SnocIndex(prev: seq<string>, last: string, k: int)
    requires 0 <= k <= |prev|
    ensures (prev + [last])[k] == if k < |prev| then prev[k] else last
  {
  }

  /** A failing plan prefix fails with the error of its first failing track. */
  lemma {:induction false} PlanPrefixError(tracks: seq<Track>, n: int, soundfile: string)
    requires 0 <= n <= |tracks|
    ensures PlanPrefix(tracks, n, soundfile).Err? ==>
      exists k :: 0 <= k < n && TrackError(tracks, k) == Some(PlanPrefix(tracks, n, soundfile).error) &&
        forall j :: 0 <= j < k ==> TrackError(tracks, j) == None
  {
    if n > 0 {
      var prev := PlanPrefix(tracks, n - 1, soundfile);
      if prev.Err? {
        PlanPrefixError(tracks, n - 1, soundfile);
      } else if TrackError(tracks, n - 1).Some? {
        PlanPrefixOk(tracks, n - 1, soundfile);
        assert TrackError(tracks, n - 1) == Some(PlanPrefix(tracks, n, soundfile).error);
      }
    }
  }

  /**
   * What the command loop promises: no tracks is an error; otherwise the plan
   * succeeds exactly when no track fails, a failure is the first failing
   * track's error, and success gives one rendered command per track, in order.
   */
  lemma PlanProperties(tracks: seq<Track>, soundfile: string)
    ensures |tracks| == 0 ==> Plan(tracks, soundfile) == Err(NoTracks)
    ensures Plan(tracks, soundfile).Ok? <==>
      |tracks| > 0 && forall idx :: 0 <= idx < |tracks| ==> TrackError(tracks, idx) == None
    ensures Plan(tracks, soundfile).Err? && |tracks| > 0 ==>
      exists idx :: 0 <= idx < |tracks| && TrackError(tracks, idx) == Some(Plan(tracks, soundfile).error) &&
        forall k :: 0 <= k < idx ==> TrackError(tracks, k) == None
    ensures Plan(tracks, soundfile).Ok? ==>
      var cmds := Plan(tracks, soundfile).value;
      |cmds| == |tracks| &&
      forall idx :: 0 <= idx < |tracks| ==> cmds[idx] == Render(PlannedCommand(tracks, idx), soundfile)
  {
    PlanPrefixOk(tracks, |tracks|, soundfile);
    PlanPrefixError(tracks, |tracks|, soundfile);
    if Plan(tracks, soundfile).Ok? {
      PlanPrefixCommands(tracks, |tracks|, soundfile);
    }
  }

  /** The `-ss` value of a track's command is exactly the timecode text of its line. */
  lemma PlannedStartIsTimecodeText(lines: seq<string>, idx: int)
    requires 0 <= idx < |lines| && TrackError(ParseLines(lines), idx) == None
    ensures PlannedCommand(ParseLines(lines), idx).start == TimecodeText(lines[idx])
  {
    PlannedCommandParts(ParseLines(lines), idx);
    ParseLineRoundTrip(lines[idx]);
  }

  /**
   * When the next timecode has this track's format, as the source assumes,
   * the duration is the gap between the two starts in seconds.
   */
  lemma PlannedDuration(tracks: seq<Track>, idx: int)
    requires 0 <= idx < |tracks| - 1 && TrackError(tracks, idx) == None
    requires |tracks[idx + 1].fields| == |tracks[idx].fields|
    ensures Numeric(tracks[idx + 1].fields)
    ensures PlannedCommand(tracks, idx).duration == Some(Seconds(tracks[idx + 1].fields) - Seconds(tracks[idx].fields))
  {
    PlannedCommandParts(tracks, idx);
    assert tracks[idx + 1].fields[..|tracks[idx].fields|] == tracks[idx + 1].fields;
  }

  /**
   * The last track's command is an inner track's command without the
   * ` -t <seconds>` clause, which sits right after the input file.
   */
  lemma RenderDurationClause(start: string, duration: int, outFile: string, soundfile: string)
    ensures
      var without := Render(Command(start, None, outFile), soundfile);
      var k := |CommandHead(start, soundfile)|;
      && k <= |without|
      && Render(Command(start, Some(duration), outFile), soundfile)
         == without[..k] + " -t " + IntToString(duration) + without[k..]
  {
    var head, tail := CommandHead(start, soundfile), CommandTail(outFile);
    var without := Render(Command(start, None, outFile), soundfile);
    assert without == head + tail;
    assert without[..|head|] == head;
    assert without[|head|..] == tail;
  }
}
