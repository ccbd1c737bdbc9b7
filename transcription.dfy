/**
 * Batch transcription of an audio file (`TranscriptionService` in
 * app/services/transcription.py): the file is read in windows of 30 seconds,
 * each window is sent to the speech engine once, and the replies are joined
 * into one string, either as the engines' raw texts or as one
 * `[HH:MM:SS -> HH:MM:SS] text` line per segment. Any exception yields "".
 */
module Transcription {
  import opened Wrappers
  import opened Strings
  import opened Whisper
  import opened Arith

  const CHUNK_DURATION_SECONDS: nat := 30

  // ---------------------------------------------------------------------
  // Chunk arithmetic

  function CeilDiv(a: nat, b: nat): nat
    requires b > 0
  {
    (a + b - 1) / b
  }

  /** CeilDiv is the ceiling: the least k with k * b >= a. */
  lemma CeilDivIsCeiling(a: nat, b: nat)
    requires b > 0
    ensures CeilDiv(a, b) * b >= a
    ensures CeilDiv(a, b) == 0 || (CeilDiv(a, b) - 1) * b < a
  {
    var q := (a + b - 1) / b;
    var r := (a + b - 1) % b;
    assert a + b - 1 == q * b + r;
    assert (q - 1) * b == q * b - b;
  }

  /** `chunk_size_frames`: 30 seconds of audio at the file's sample rate. */
  function ChunkSizeFrames(samplerate: nat): nat
  {
    CHUNK_DURATION_SECONDS * samplerate
  }

  /** `num_chunks`; the float `np.ceil` of the source is taken as exact. */
  function NumChunks(totalFrames: nat, samplerate: nat): nat
    requires samplerate > 0
  {
    CeilDiv(totalFrames, ChunkSizeFrames(samplerate))
  }

  /**
   * The reads of a file of frames `s` with `read(size)`: each read returns the
   * next `min(size, remaining)` frames; the empty read at the end is dropped.
   */
  function Chunked(s: seq<Sample>, size: nat): (r: seq<seq<Sample>>)
    requires size > 0
    ensures r == [] <==> s == []
    ensures forall i :: 0 <= i < |r| ==> |r[i]| <= size
    decreases |s|
  {
    if s == [] then []
    else if |s| <= size then [s]
    else [s[..size]] + Chunked(s[size..], size)
  }

  function Flatten(chunks: seq<seq<Sample>>): seq<Sample>
  {
    if chunks == [] then [] else chunks[0] + Flatten(chunks[1..])
  }

  /** There are ceil(|s| / size) chunks. */
  lemma {:induction false} ChunkedCount(s: seq<Sample>, size: nat)
    requires size > 0
    ensures |Chunked(s, size)| == CeilDiv(|s|, size)
    decreases |s|
  {
    if s == [] {
    } else if |s| <= size {
      DivModUnique(|s| + size - 1, size, 1, |s| - 1);
    } else {
      ChunkedCount(s[size..], size);
      DivShift(|s| + size - 1, size);
    }
  }

  /** Every chunk but the last holds exactly `size` frames; the last holds 1 to `size`. */
  lemma {:induction false} ChunkedShape(s: seq<Sample>, size: nat)
    requires size > 0
    ensures var c := Chunked(s, size);
      (forall i :: 0 <= i < |c| - 1 ==> |c[i]| == size)
      && (c != [] ==> 0 < |c[|c| - 1]| <= size)
    decreases |s|
  {
    if |s| > size {
      ChunkedShape(s[size..], size);
      var c := Chunked(s, size);
      assert c[1..] == Chunked(s[size..], size);
    }
  }

  /** The chunks, concatenated, are the whole file. */
  lemma {:induction false} ChunkedConcat(s: seq<Sample>, size: nat)
    requires size > 0
    ensures Flatten(Chunked(s, size)) == s
    decreases |s|
  {
    if s == [] {
    } else if |s| <= size {
      assert Flatten([s]) == s + Flatten([]);
    } else {
      ChunkedConcat(s[size..], size);
      var c := Chunked(s, size);
      assert c[1..] == Chunked(s[size..], size);
      assert s == s[..size] + s[size..];
    }
  }

  /** No chunk is empty. */
  lemma {:induction false} ChunkedNonEmpty(s: seq<Sample>, size: nat)
    requires size > 0
    ensures forall i :: 0 <= i < |Chunked(s, size)| ==> Chunked(s, size)[i] != []
    decreases |s|
  {
    if |s| > size {
      ChunkedNonEmpty(s[size..], size);
      var c := Chunked(s, size);
      assert c[1..] == Chunked(s[size..], size);
    }
  }

  /** The first chunk and the rest, one read at a time (used by the read loop). */
  lemma ChunkedStep(s: seq<Sample>, size: nat)
    requires size > 0 && s != []
    ensures var n := if |s| < size then |s| else size;
      Chunked(s, size) == [s[..n]] + Chunked(s[n..], size)
  {
    if |s| <= size {
      assert s[..|s|] == s;
      assert s[|s|..] == [];
    }
  }

  // ---------------------------------------------------------------------
  // The time stamp format shared by the service and the GUI controller

  /** Python's `int()` of a time in milliseconds: whole seconds, truncated toward zero. */
  function TruncSeconds(ms: int): (s: int)
    ensures ms >= 0 ==> 0 <= s && s * 1000 <= ms < s * 1000 + 1000
    ensures ms < 0 ==> s <= 0 && s * 1000 - 1000 < ms <= s * 1000
  {
    if ms >= 0 then ms / 1000 else -((-ms) / 1000)
  }

  /**
   * `f"{s // 3600:02d}:{(s % 3600) // 60:02d}:{s % 60:02d}"`. Python's `//` and
   * `%` round toward minus infinity; for the positive divisors used here that
   * is exactly Dafny's `/` and `%`.
   */
  function Hms(s: int): (r: string)
    ensures s >= 0 ==> |r| >= 8
    ensures s < 0 ==> |r| > 0 && r[0] == '-'
  {
    FormatInt(s / 3600, 2) + ":" + FormatInt((s % 3600) / 60, 2) + ":" + FormatInt(s % 60, 2)
  }

  /** The three fields of Hms decompose `s` into hours, minutes below 60 and seconds below 60. */
  lemma HmsFields(s: int)
    ensures 0 <= (s % 3600) / 60 < 60 && 0 <= s % 60 < 60
    ensures (s / 3600) * 3600 + ((s % 3600) / 60) * 60 + s % 60 == s
  {
    var h := s / 3600;
    var r := s % 3600;
    assert s == h * 3600 + r;
    assert r == (r / 60) * 60 + r % 60;
    assert s % 60 == r % 60 by {
      assert s == (h * 60) * 60 + r;
      ModOfShift(h * 60, r);
    }
  }

  lemma ModOfShift(k: int, r: int)
    requires 0 <= r
    ensures (k * 60 + r) % 60 == r % 60
  {
    var q := r / 60;
    assert k * 60 + r == (k + q) * 60 + r % 60;
  }

  /**
   * The value an `H..H:MM:SS` string denotes in seconds, if it has that shape
   * (at least two hour digits, exactly two minute and second digits).
   */
  function HmsValue(t: string): Option<int>
  {
    var n := |t|;
    if n >= 8 && t[n - 3] == ':' && t[n - 6] == ':'
    then FieldsValue(t[..n - 6], t[n - 5..n - 3], t[n - 2..])
    else None
  }

  /** Hours, minutes and seconds read as decimal numbers, if all three are digit strings. */
  function FieldsValue(hh: string, mm: string, ss: string): Option<int>
  {
    if AllDigits(hh) && AllDigits(mm) && AllDigits(ss)
    then Some(DecimalValue(hh) * 3600 + DecimalValue(mm) * 60 + DecimalValue(ss))
    else None
  }

  /** An `HH:MM:SS`-shaped string is read field by field. */
  lemma HmsValueOfFields(hh: string, mm: string, ss: string)
    requires |hh| >= 2 && |mm| == 2 && |ss| == 2
    ensures HmsValue(hh + ":" + mm + ":" + ss) == FieldsValue(hh, mm, ss)
  {
    var t := hh + ":" + mm + ":" + ss;
    var n := |t|;
    assert t[..n - 6] == hh;
    assert t[n - 5..n - 3] == mm;
    assert t[n - 2..] == ss;
  }

  /** Reading back a rendered non-negative time gives the number of seconds. */
  lemma HmsRoundTrip(s: nat)
    ensures HmsValue(Hms(s)) == Some(s)
  {
    HmsFields(s);
    var h, m, sec := s / 3600, (s % 3600) / 60, s % 60;
    var hh, mm, ss := ZeroPad(h, 2), ZeroPad(m, 2), ZeroPad(sec, 2);
    assert Hms(s) == hh + ":" + mm + ":" + ss;
    ZeroPadWidth(m, 2);
    ZeroPadWidth(sec, 2);
    ZeroPadValue(h, 2);
    ZeroPadValue(m, 2);
    ZeroPadValue(sec, 2);
    HmsValueOfFields(hh, mm, ss);
    assert FieldsValue(hh, mm, ss) == Some(h * 3600 + m * 60 + sec);
  }

  /** One time-stamped line: `[start -> end] text.strip()`. */
  function SegmentLine(seg: Segment): (r: string)
    ensures |r| > 0 && r[0] == '[' && EndsWith(r, "] " + Strip(seg.text))
  {
    var tail := "] " + Strip(seg.text);
    var line := "[" + Hms(TruncSeconds(seg.startMs)) + " -> " + Hms(TruncSeconds(seg.endMs)) + tail;
    assert line[|line| - |tail|..] == tail;
    line
  }

  /** One line per segment, in order. */
  function SegmentLines(segs: seq<Segment>): (lines: seq<string>)
    ensures |lines| == |segs|
  {
    MapSeq(SegmentLine, segs)
  }

  /** `[f(x) for x in s]`. */
  function MapSeq<A, B>(f: A -> B, s: seq<A>): (r: seq<B>)
    ensures |r| == |s| && forall i :: 0 <= i < |s| ==> r[i] == f(s[i])
  {
    seq(|s|, i requires 0 <= i < |s| => f(s[i]))
  }

  lemma MapSeqAppend<A, B>(f: A -> B, a: seq<A>, b: seq<A>)
    ensures MapSeq(f, a + b) == MapSeq(f, a) + MapSeq(f, b)
  {
    var l, r := MapSeq(f, a + b), MapSeq(f, a) + MapSeq(f, b);
    forall i | 0 <= i < |l| ensures l[i] == r[i] {
      if i < |a| {
        assert (a + b)[i] == a[i];
      } else {
        assert (a + b)[i] == b[i - |a|];
      }
    }
  }

  // ---------------------------------------------------------------------
  // The session

  /** What `sf.SoundFile` finds at a path: the sample rate and the frames. */
  datatype AudioData = AudioData(samplerate: nat, frames: seq<Sample>)

  /** An open sound file: its frames and the read position. */
  class SoundFile {
    const samplerate: nat
    const frames: seq<Sample>
    var position: nat

    ghost predicate Valid()
      reads this
    {
      position <= |frames|
    }

    constructor (audio: AudioData)
      ensures Valid() && samplerate == audio.samplerate && frames == audio.frames && position == 0
    {
      samplerate := audio.samplerate;
      frames := audio.frames;
      position := 0;
    }

    /** `len(audio_file)`: the file's total number of frames. */
    function Length(): (n: nat)
      ensures n == |frames|
    {
      |frames|
    }

    /** `read(n)`: the next `min(n, remaining)` frames; empty at the end of the file. */
    method Read(n: nat) returns (data: seq<Sample>)
      requires Valid()
      modifies this
      ensures Valid()
      ensures var k := if n < |frames| - old(position) then n else |frames| - old(position);
        data == frames[old(position)..old(position) + k] && position == old(position) + k
    {
      var k := if n < |frames| - position then n else |frames| - position;
      data := frames[position..position + k];
      position := position + k;
    }
  }

  /**
   * `_read_chunks`: read `chunkSize` frames at a time, stopping at the first
   * empty read. The chunks are the rest of the file cut into windows.
   */
  /** A read of the next window leaves the chunks still to come. */
  lemma ReadStep(chunks: seq<seq<Sample>>, before: seq<Sample>, size: nat, after: seq<Sample>)
    requires size > 0 && before != []
    requires var k := if size < |before| then size else |before|; after == before[k..]
    ensures var k := if size < |before| then size else |before|;
      chunks + [before[..k]] + Chunked(after, size) == chunks + Chunked(before, size)
  {
    ChunkedStep(before, size);
    var k := if size < |before| then size else |before|;
    Assoc3(chunks, [before[..k]], Chunked(after, size));
  }

  method ReadChunks(file: SoundFile, chunkSize: nat) returns (chunks: seq<seq<Sample>>)
    requires file.Valid()
    modifies file
    ensures file.Valid()
    ensures chunkSize > 0 ==> chunks == Chunked(old(file.frames[file.position..]), chunkSize)
    ensures chunkSize > 0 ==> file.position == |file.frames|
    ensures chunkSize == 0 ==> chunks == [] && file.position == old(file.position)
  {
    chunks := [];
    ghost var rest0 := file.frames[file.position..];
    while true
      invariant file.Valid()
      invariant chunkSize > 0 ==> chunks + Chunked(file.frames[file.position..], chunkSize) == Chunked(rest0, chunkSize)
      invariant chunkSize == 0 ==> chunks == [] && file.position == old(file.position)
      decreases |file.frames| - file.position
    {
      ghost var before := file.frames[file.position..];
      var data := file.Read(chunkSize);
      if |data| == 0 {
        break;
      }
      assert data == before[..|data|];
      ReadStep(chunks, before, chunkSize, file.frames[file.position..]);
      chunks := chunks + [data];
    }
  }

  // ---------------------------------------------------------------------
  // What the service produces

  /** The requests the service sends: one per chunk, in order, verbose iff time stamps are on. */
  function Requests(chunks: seq<seq<Sample>>, language: Option<string>, timestamps: bool): (rs: seq<Request>)
    ensures |rs| == |chunks|
  {
    seq(|chunks|, i requires 0 <= i < |chunks| => Request(i, chunks[i], language, timestamps, None))
  }

  function Replies(requests: seq<Request>, engine: Engine): (rs: seq<Reply>)
    ensures |rs| == |requests|
  {
    seq(|requests|, i requires 0 <= i < |requests| => engine(requests[i]))
  }

  predicate AllReplied(replies: seq<Reply>)
  {
    forall i :: 0 <= i < |replies| ==> replies[i].Reply?
  }

  /** The index of the first reply that is an exception, if any. */
  function FirstRaised(replies: seq<Reply>): (k: Option<nat>)
    ensures k.None? <==> AllReplied(replies)
    ensures k.Some? ==> k.value < |replies| && replies[k.value].Raised? && AllReplied(replies[..k.value])
  {
    if replies == [] then None
    else match FirstRaised(replies[..|replies| - 1])
      case Some(j) => Some(j)
      case None => if replies[|replies| - 1].Raised? then Some(|replies| - 1) else None
  }

  /** The reply at `i` is the first exception when all before it are replies. */
  lemma FirstRaisedAt(replies: seq<Reply>, i: nat)
    requires i < |replies| && replies[i].Raised? && AllReplied(replies[..i])
    ensures FirstRaised(replies) == Some(i)
  {
  }

  /** The entries a reply adds to `full_text`. */
  function ReplyLines(reply: Reply, timestamps: bool): seq<string>
    requires reply.Reply?
  {
    if timestamps then SegmentLines(reply.segments) else [reply.text]
  }

  /** `full_text` after the given replies. */
  function Lines(replies: seq<Reply>, timestamps: bool): seq<string>
    requires AllReplied(replies)
  {
    if replies == [] then []
    else Lines(replies[..|replies| - 1], timestamps) + ReplyLines(replies[|replies| - 1], timestamps)
  }

  /** `"\n".join(full_text).strip()`. */
  function Transcript(replies: seq<Reply>, timestamps: bool): (r: string)
    requires AllReplied(replies)
    ensures r == [] || (!IsSpace(r[0]) && !IsSpace(r[|r| - 1]))
  {
    StripIsTrimmedInfix(Join(Lines(replies, timestamps), "\n"));
    Strip(Join(Lines(replies, timestamps), "\n"))
  }

  /** Without time stamps, `full_text` is each reply's raw text, in chunk order. */
  lemma {:induction false} LinesWithoutTimestamps(replies: seq<Reply>)
    requires AllReplied(replies)
    ensures Lines(replies, false) == seq(|replies|, i requires 0 <= i < |replies| => replies[i].text)
  {
    if replies != [] {
      LinesWithoutTimestamps(replies[..|replies| - 1]);
    }
  }

  /** All segments of the replies, in engine order, with the engine's own (chunk-relative) times. */
  function AllSegments(replies: seq<Reply>): seq<Segment>
    requires AllReplied(replies)
  {
    if replies == [] then []
    else AllSegments(replies[..|replies| - 1]) + replies[|replies| - 1].segments
  }

  /**
   * With time stamps, `full_text` has one line per engine segment, in order;
   * no chunk offset is added to the times.
   */
  lemma {:induction false} LinesWithTimestamps(replies: seq<Reply>)
    requires AllReplied(replies)
    ensures Lines(replies, true) == SegmentLines(AllSegments(replies))
  {
    if replies != [] {
      var init := replies[..|replies| - 1];
      LinesWithTimestamps(init);
      MapSeqAppend(SegmentLine, AllSegments(init), replies[|replies| - 1].segments);
    }
  }

  /** The two sentences of the service's unit test. */
  const FIRST_PART: string := "Это первая часть."
  const SECOND_PART: string := "Это вторая часть."

  /**
   * The unit test's recorded replies: the raw texts keep a trailing space
   * and the segment texts a leading one.
   */
  function ExampleReplies(): seq<Reply>
  {
    [Reply(FIRST_PART + " ", [Segment(0, 5000, " " + FIRST_PART + " ")]),
     Reply(SECOND_PART, [Segment(30000, 35000, " " + SECOND_PART)])]
  }

  /** Without time stamps, the raw texts are joined as they are, inner spaces included. */
  lemma TranscriptExampleWithoutTimestamps()
    ensures AllReplied(ExampleReplies())
    ensures Transcript(ExampleReplies(), false) == FIRST_PART + " \n" + SECOND_PART
  {
    ExampleLinesWithoutTimestamps();
    JoinTwoTrimmed(FIRST_PART + " ", SECOND_PART);
    assert FIRST_PART + " " + "\n" + SECOND_PART == FIRST_PART + " \n" + SECOND_PART;
  }

  lemma ExampleLinesWithoutTimestamps()
    ensures AllReplied(ExampleReplies())
    ensures Lines(ExampleReplies(), false) == [FIRST_PART + " ", SECOND_PART]
  {
    var replies := ExampleReplies();
    assert replies[0].Reply? && replies[1].Reply?;
    LinesWithoutTimestamps(replies);
  }

  /** With time stamps, each segment gets its own line, its text stripped. */
  lemma TranscriptExampleWithTimestamps()
    ensures AllReplied(ExampleReplies())
    ensures Transcript(ExampleReplies(), true)
            == "[00:00:00 -> 00:00:05] " + FIRST_PART + "\n" + "[00:00:30 -> 00:00:35] " + SECOND_PART
  {
    var replies := ExampleReplies();
    ExampleSegments();
    LinesWithTimestamps(replies);
    var l0 := "[00:00:00 -> 00:00:05] " + FIRST_PART;
    var l1 := "[00:00:30 -> 00:00:35] " + SECOND_PART;
    ExampleSegmentLines();
    JoinTwoTrimmed(l0, l1);
  }

  lemma ExampleSegments()
    ensures AllReplied(ExampleReplies())
    ensures AllSegments(ExampleReplies())
            == [Segment(0, 5000, " " + FIRST_PART + " "), Segment(30000, 35000, " " + SECOND_PART)]
  {
    var replies := ExampleReplies();
    assert replies[0].Reply? && replies[1].Reply?;
    assert replies[..1][..0] == [];
    assert replies[..1] == [replies[0]];
  }

  lemma ExampleSegmentLines()
    ensures SegmentLines([Segment(0, 5000, " " + FIRST_PART + " "), Segment(30000, 35000, " " + SECOND_PART)])
            == ["[00:00:00 -> 00:00:05] " + FIRST_PART, "[00:00:30 -> 00:00:35] " + SECOND_PART]
  {
    MapSeqTwo(SegmentLine, Segment(0, 5000, " " + FIRST_PART + " "), Segment(30000, 35000, " " + SECOND_PART));
    SegmentLineExamples();
  }

  lemma MapSeqTwo<A, B>(f: A -> B, x: A, y: A)
    ensures MapSeq(f, [x, y]) == [f(x), f(y)]
  {
  }

  /** Two lines without surrounding whitespace are joined and left unstripped. */
  lemma JoinTwoTrimmed(l0: string, l1: string)
    requires l0 != [] && !IsSpace(l0[0]) && l1 != [] && !IsSpace(l1[|l1| - 1])
    ensures Strip(Join([l0, l1], "\n")) == l0 + "\n" + l1
  {
    var joined := l0 + "\n" + l1;
    assert Join([l0, l1], "\n") == joined by {
      assert [l0, l1][1..] == [l1];
    }
    assert joined[0] == l0[0];
    assert joined[|joined| - 1] == l1[|l1| - 1];
    StripOfTrimmed(joined);
  }

  lemma SegmentLineExamples()
    ensures SegmentLine(Segment(0, 5000, " " + FIRST_PART + " ")) == "[00:00:00 -> 00:00:05] " + FIRST_PART
    ensures SegmentLine(Segment(30000, 35000, " " + SECOND_PART)) == "[00:00:30 -> 00:00:35] " + SECOND_PART
  {
    HmsExamples();
    StripExamples();
    LinePrefixExamples();
    SegmentLineOf(Segment(0, 5000, " " + FIRST_PART + " "), 0, 5);
    SegmentLineOf(Segment(30000, 35000, " " + SECOND_PART), 30, 35);
  }

  lemma SegmentLineOf(seg: Segment, a: int, b: int)
    requires TruncSeconds(seg.startMs) == a && TruncSeconds(seg.endMs) == b
    ensures SegmentLine(seg) == "[" + Hms(a) + " -> " + Hms(b) + "] " + Strip(seg.text)
  {
  }

  lemma HmsExamples()
    ensures Hms(0) == "00:00:00" && Hms(5) == "00:00:05" && Hms(30) == "00:00:30" && Hms(35) == "00:00:35"
  {
    assert DigitChar(0) == '0' && DigitChar(3) == '3' && DigitChar(5) == '5';
    HmsBelowMinute(0);
    HmsBelowMinute(5);
    HmsBelowMinute(30);
    HmsBelowMinute(35);
  }

  lemma StripExamples()
    ensures Strip(" " + FIRST_PART + " ") == FIRST_PART && Strip(" " + SECOND_PART) == SECOND_PART
  {
    StripOfPadded(" ", FIRST_PART, " ");
    StripOfPadded(" ", SECOND_PART, "");
    assert " " + SECOND_PART + "" == " " + SECOND_PART;
  }

  lemma LinePrefixExamples()
    ensures "[" + "00:00:00" + " -> " + "00:00:05" + "] " == "[00:00:00 -> 00:00:05] "
    ensures "[" + "00:00:30" + " -> " + "00:00:35" + "] " == "[00:00:30 -> 00:00:35] "
  {
  }

  /** Hms of a time below one minute. */
  lemma HmsBelowMinute(s: nat)
    requires s < 60
    ensures Hms(s) == "00:00:" + [DigitChar(s / 10), DigitChar(s % 10)]
  {
    var z, d := ZeroPad(0, 2), ZeroPad(s, 2);
    assert Hms(s) == z + ":" + z + ":" + d;
    ZeroPadTwoDigits(0);
    ZeroPadTwoDigits(s);
    assert DigitChar(0) == '0';
    assert z == "00";
    assert "00" + ":" + "00" + ":" == "00:00:";
  }

  /** A 45-second file at 16 kHz is read as a full 30-second chunk and a 15-second one. */
  lemma FortyFiveSecondsIsTwoChunks(s: seq<Sample>)
    requires |s| == 45 * 16000
    ensures |Chunked(s, ChunkSizeFrames(16000))| == 2 == NumChunks(|s|, 16000)
    ensures |Chunked(s, ChunkSizeFrames(16000))[0]| == 480000
    ensures |Chunked(s, ChunkSizeFrames(16000))[1]| == 240000
  {
    ChunkedCount(s, 480000);
    ChunkedShape(s, 480000);
    ChunkedConcat(s, 480000);
    var c := Chunked(s, 480000);
    assert Flatten(c) == c[0] + c[1] by {
      assert Flatten(c[1..]) == c[1] + Flatten(c[2..]);
    }
  }

  /** The inner loop of `transcribe`: one line per segment appended to `fullText`. */
  method AppendSegmentLines(fullText: seq<string>, segments: seq<Segment>) returns (out: seq<string>)
    ensures out == fullText + SegmentLines(segments)
  {
    out := fullText;
    var j := 0;
    while j < |segments|
      invariant 0 <= j <= |segments|
      invariant out == fullText + SegmentLines(segments[..j])
    {
      SegmentLinesSnoc(segments, j);
      var line := [SegmentLine(segments[j])];
      Assoc3(fullText, SegmentLines(segments[..j]), line);
      out := out + line;
      j := j + 1;
    }
    assert segments[..j] == segments;
  }

  lemma Assoc3<T>(a: seq<T>, b: seq<T>, c: seq<T>)
    ensures a + b + c == a + (b + c)
  {
  }

  lemma SegmentLinesSnoc(segments: seq<Segment>, j: nat)
    requires j < |segments|
    ensures SegmentLines(segments[..j + 1]) == SegmentLines(segments[..j]) + [SegmentLine(segments[j])]
  {
    var before, last := segments[..j], [segments[j]];
    assert segments[..j + 1] == before + last;
    MapSeqAppend(SegmentLine, before, last);
  }

  /** The service around one loaded engine. */
  class TranscriptionService {
    const model: Engine

    constructor (model: Engine)
      ensures this.model == model
    {
      this.model := model;
    }

    /**
     * `transcribe`. `files` is what `sf.SoundFile` can open. Besides the text,
     * the method returns the engine calls it made and the final state of its
     * progress bar (its total and the number of advances).
     */
    method Transcribe(sourcePath: string, files: map<string, AudioData>, language: Option<string>, timestamps: bool)
      returns (text: string, calls: seq<Request>, barTotal: nat, barDone: nat)
      ensures sourcePath !in files || files[sourcePath].samplerate == 0 ==> text == "" && calls == []
      ensures sourcePath in files && files[sourcePath].samplerate > 0 ==>
        var audio := files[sourcePath];
        var requests := Requests(Chunked(audio.frames, ChunkSizeFrames(audio.samplerate)), language, timestamps);
        var replies := Replies(requests, model);
        barTotal == NumChunks(|audio.frames|, audio.samplerate)
        && match FirstRaised(replies)
           case None => calls == requests && text == Transcript(replies, timestamps) && barDone == barTotal
           case Some(k) => calls == requests[..k + 1] && text == "" && barDone == k
    {
      text, calls, barTotal, barDone := "", [], 0, 0;
      if sourcePath !in files {
        return;  // sf.SoundFile raises: the exception handler returns ""
      }
      var audioFile := new SoundFile(files[sourcePath]);
      var samplerate := audioFile.samplerate;
      var totalFrames := audioFile.Length();
      var chunkSizeFrames := CHUNK_DURATION_SECONDS * samplerate;
      if chunkSizeFrames == 0 {
        return;  // ZeroDivisionError in the chunk count
      }
      var numChunks := CeilDiv(totalFrames, chunkSizeFrames);
      barTotal := numChunks;

      var chunks := ReadChunks(audioFile, chunkSizeFrames);
      assert audioFile.frames[0..] == audioFile.frames;
      ChunkedCount(audioFile.frames, chunkSizeFrames);
      text, calls, barDone := TranscribeChunks(chunks, language, timestamps);
    }

    /**
     * The loop of `transcribe` over the chunks already read: one engine call
     * per chunk, stopping at the first exception, which makes the result "".
     */
    method TranscribeChunks(chunks: seq<seq<Sample>>, language: Option<string>, timestamps: bool)
      returns (text: string, calls: seq<Request>, barDone: nat)
      ensures var requests := Requests(chunks, language, timestamps);
        var replies := Replies(requests, model);
        match FirstRaised(replies)
        case None => calls == requests && text == Transcript(replies, timestamps) && barDone == |chunks|
        case Some(k) => calls == requests[..k + 1] && text == "" && barDone == k
    {
      ghost var requests := Requests(chunks, language, timestamps);
      ghost var replies := Replies(requests, model);
      text, calls, barDone := "", [], 0;
      var fullText: seq<string> := [];
      var i := 0;
      while i < |chunks|
        invariant 0 <= i <= |chunks|
        invariant calls == requests[..i] && barDone == i
        invariant AllReplied(replies[..i])
        invariant fullText == Lines(replies[..i], timestamps)
      {
        var request := Request(i, chunks[i], language, timestamps, None);
        assert request == requests[i];
        assert requests[..i + 1] == requests[..i] + [request];
        var result := model(request);
        assert result == replies[i];
        calls := calls + [request];
        assert replies[..i + 1] == replies[..i] + [result];
        if result.Raised? {
          FirstRaisedAt(replies, i);
          return;
        }
        if timestamps {
          fullText := AppendSegmentLines(fullText, result.segments);
        } else {
          fullText := fullText + [result.text];
        }
        barDone := barDone + 1;
        i := i + 1;
      }
      assert replies[..i] == replies;
      assert requests[..i] == requests;
      text := Strip(Join(fullText, "\n"));
    }
  }
}
