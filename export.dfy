/**
 * The export adapters (app/adapters/export.py): SubRip rendering of the
 * engine's segments, the plain-text exporters and the factory table from an
 * output format to its adapter.
 *
 * Times are whole milliseconds: `round(seconds * 1000.0)` of the source is
 * taken as exact, so a segment's `startMs`/`endMs` is that rounded value.
 */
module Export {
  import opened Wrappers
  import opened Arith
  import opened Strings
  import opened Models
  import opened Whisper

  const NEGATIVE_TIMESTAMP: string := "Ожидается неотрицательная временная метка"
  const DOCX_MISSING: string := "Для экспорта в .docx требуется библиотека 'python-docx'."
  const SAVE_ERROR_PREFIX: string := "Ошибка при сохранении файла: "

  const MS_PER_HOUR: nat := 3_600_000
  const MS_PER_MINUTE: nat := 60_000
  const MS_PER_SECOND: nat := 1000

  // ---------------------------------------------------------------------
  // SubRip time stamps

  /**
   * `HH:MM:SS,mmm` for a non-negative number of milliseconds: hours, minutes
   * of the hour, seconds of the minute and milliseconds of the second, padded
   * to 2, 2, 2 and 3 digits (the hours widen beyond 99).
   */
  function SrtTime(ms: nat): (r: string)
    ensures |r| >= 12
  {
    Clock(ms / MS_PER_HOUR, (ms / MS_PER_MINUTE) % 60, (ms / MS_PER_SECOND) % 60, ms % MS_PER_SECOND)
  }

  function Clock(h: nat, m: nat, s: nat, f: nat): string
  {
    ZeroPad(h, 2) + ":" + ZeroPad(m, 2) + ":" + ZeroPad(s, 2) + "," + ZeroPad(f, 3)
  }

  /**
   * `_format_srt_time`: refuse a negative time, then take whole hours, whole
   * minutes and whole seconds off the millisecond count one after the other.
   */
  method FormatSrtTime(ms: int) returns (r: Result<string, string>)
    ensures ms < 0 ==> r == Failure(NEGATIVE_TIMESTAMP)
    ensures ms >= 0 ==> r == Success(SrtTime(ms))
  {
    if ms < 0 {
      return Failure(NEGATIVE_TIMESTAMP);
    }
    var milliseconds := ms;
    var hours := milliseconds / MS_PER_HOUR;
    milliseconds := milliseconds - hours * MS_PER_HOUR;
    var minutes := milliseconds / MS_PER_MINUTE;
    milliseconds := milliseconds - minutes * MS_PER_MINUTE;
    var seconds := milliseconds / MS_PER_SECOND;
    milliseconds := milliseconds - seconds * MS_PER_SECOND;
    SrtFieldsUnique(ms, hours, minutes, seconds, milliseconds);
    r := Success(Clock(hours, minutes, seconds, milliseconds));
  }

  /**
   * The decomposition is unique: fields below 60, 60 and 1000 that add up to
   * `ms` are exactly the fields SrtTime prints.
   */
  lemma SrtFieldsUnique(ms: nat, h: int, m: int, s: int, f: int)
    requires h >= 0 && 0 <= m < 60 && 0 <= s < 60 && 0 <= f < 1000
    requires h * MS_PER_HOUR + m * MS_PER_MINUTE + s * MS_PER_SECOND + f == ms
    ensures h == ms / MS_PER_HOUR && m == (ms / MS_PER_MINUTE) % 60
    ensures s == (ms / MS_PER_SECOND) % 60 && f == ms % MS_PER_SECOND
  {
    DivModUnique(ms, 1000, h * 3600 + m * 60 + s, f);
    DivModUnique(ms / 1000, 60, h * 60 + m, s);
    DivModUnique(ms, 60000, h * 60 + m, s * 1000 + f);
    DivModUnique(ms / 60000, 60, h, m);
    DivModUnique(ms, 3600000, h, m * 60000 + s * 1000 + f);
  }

  /** The fields SrtTime prints do add up to the time and are in range. */
  lemma SrtFields(ms: nat)
    ensures (ms / MS_PER_MINUTE) % 60 < 60 && (ms / MS_PER_SECOND) % 60 < 60 && ms % MS_PER_SECOND < 1000
    ensures (ms / MS_PER_HOUR) * MS_PER_HOUR + ((ms / MS_PER_MINUTE) % 60) * MS_PER_MINUTE
            + ((ms / MS_PER_SECOND) % 60) * MS_PER_SECOND + ms % MS_PER_SECOND == ms
  {
    var h, r := ms / 3600000, ms % 3600000;
    var m, r' := r / 60000, r % 60000;
    var s, f := r' / 1000, r' % 1000;
    assert ms == h * 3600000 + m * 60000 + s * 1000 + f;
    SrtFieldsUnique(ms, h, m, s, f);
  }

  /** The number of milliseconds an `H..H:MM:SS,mmm` string denotes, if it has that shape. */
  function SrtTimeValue(t: string): Option<int>
  {
    var n := |t|;
    if n >= 12 && t[n - 4] == ',' && t[n - 7] == ':' && t[n - 10] == ':'
    then ClockValue(t[..n - 10], t[n - 9..n - 7], t[n - 6..n - 4], t[n - 3..])
    else None
  }

  function ClockValue(hh: string, mm: string, ss: string, fff: string): Option<int>
  {
    if AllDigits(hh) && AllDigits(mm) && AllDigits(ss) && AllDigits(fff)
    then Some(DecimalValue(hh) * MS_PER_HOUR + DecimalValue(mm) * MS_PER_MINUTE
              + DecimalValue(ss) * MS_PER_SECOND + DecimalValue(fff))
    else None
  }

  lemma SrtTimeValueOfFields(hh: string, mm: string, ss: string, fff: string)
    requires |hh| >= 2 && |mm| == 2 && |ss| == 2 && |fff| == 3
    ensures SrtTimeValue(hh + ":" + mm + ":" + ss + "," + fff) == ClockValue(hh, mm, ss, fff)
  {
    var t := hh + ":" + mm + ":" + ss + "," + fff;
    var n := |t|;
    assert t[..n - 10] == hh;
    assert t[n - 9..n - 7] == mm;
    assert t[n - 6..n - 4] == ss;
    assert t[n - 3..] == fff;
  }

  /** Reading a rendered time back gives the milliseconds: the rendering loses nothing. */
  lemma SrtTimeRoundTrip(ms: nat)
    ensures SrtTimeValue(SrtTime(ms)) == Some(ms)
  {
    SrtFields(ms);
    var h, m, s, f := ms / MS_PER_HOUR, (ms / MS_PER_MINUTE) % 60, (ms / MS_PER_SECOND) % 60, ms % MS_PER_SECOND;
    var hh, mm, ss, fff := ZeroPad(h, 2), ZeroPad(m, 2), ZeroPad(s, 2), ZeroPad(f, 3);
    assert SrtTime(ms) == hh + ":" + mm + ":" + ss + "," + fff;
    ZeroPadWidth(m, 2);
    ZeroPadWidth(s, 2);
    ZeroPadWidth(f, 3);
    ZeroPadValue(h, 2);
    ZeroPadValue(m, 2);
    ZeroPadValue(s, 2);
    ZeroPadValue(f, 3);
    SrtTimeValueOfFields(hh, mm, ss, fff);
    assert ClockValue(hh, mm, ss, fff) == Some(h * MS_PER_HOUR + m * MS_PER_MINUTE + s * MS_PER_SECOND + f);
  }

  /** Times below 100 hours render in exactly twelve characters. */
  lemma SrtTimeWidth(ms: nat)
    requires ms < 100 * MS_PER_HOUR
    ensures |SrtTime(ms)| == 12
  {
    SrtFields(ms);
    ZeroPadWidth(ms / MS_PER_HOUR, 2);
    ZeroPadWidth((ms / MS_PER_MINUTE) % 60, 2);
    ZeroPadWidth((ms / MS_PER_SECOND) % 60, 2);
    ZeroPadWidth(ms % MS_PER_SECOND, 3);
  }

  // ---------------------------------------------------------------------
  // The SubRip document

  /** One cue: its 1-based number, its time range and its stripped text, ending in a newline. */
  function SrtBlock(number: nat, seg: Segment): (r: string)
    requires seg.startMs >= 0 && seg.endMs >= 0
    ensures StartsWith(r, NatToDecimal(number) + "\n") && EndsWith(r, "\n" + Strip(seg.text) + "\n")
  {
    var head, tail := NatToDecimal(number) + "\n", "\n" + Strip(seg.text) + "\n";
    var block := head + SrtTime(seg.startMs) + " --> " + SrtTime(seg.endMs) + tail;
    assert block[..|head|] == head && block[|block| - |tail|..] == tail;
    block
  }

  predicate TimesNonNegative(segs: seq<Segment>)
  {
    forall i :: 0 <= i < |segs| ==> segs[i].startMs >= 0 && segs[i].endMs >= 0
  }

  /** The cues of the segments, numbered from 1 in order. */
  function SrtBlocks(segs: seq<Segment>): (blocks: seq<string>)
    requires TimesNonNegative(segs)
    ensures |blocks| == |segs|
  {
    if segs == [] then []
    else
      var init := segs[..|segs| - 1];
      TimesNonNegativePrefix(segs, |segs| - 1);
      SrtBlocks(init) + [SrtBlock(|segs|, segs[|segs| - 1])]
  }

  /** The cue at each position is that segment's, with its 1-based number. */
  lemma {:induction false} SrtBlocksAt(segs: seq<Segment>, i: nat)
    requires TimesNonNegative(segs) && i < |segs|
    ensures SrtBlocks(segs)[i] == SrtBlock(i + 1, segs[i])
  {
    var n := |segs| - 1;
    var init := segs[..n];
    TimesNonNegativePrefix(segs, n);
    if i < n {
      SrtBlocksAt(init, i);
      assert init[i] == segs[i];
    }
  }

  lemma TimesNonNegativePrefix(segs: seq<Segment>, n: nat)
    requires TimesNonNegative(segs) && n <= |segs|
    ensures TimesNonNegative(segs[..n])
  {
    assert forall k :: 0 <= k < n ==> segs[..n][k] == segs[k];
  }

  /** The file content: the cues joined by blank lines, or the error a negative time raises. */
  function SrtDocument(segs: seq<Segment>): (r: Result<string, string>)
    ensures r.Failure? <==> exists i :: 0 <= i < |segs| && (segs[i].startMs < 0 || segs[i].endMs < 0)
    ensures r.Failure? ==> r.error == NEGATIVE_TIMESTAMP
  {
    if TimesNonNegative(segs) then Success(Join(SrtBlocks(segs), "\n")) else Failure(NEGATIVE_TIMESTAMP)
  }

  /**
   * The content building of `SrtExportAdapter.export`: one cue per segment,
   * appended in order; a negative time raises before anything is written.
   */
  method SrtContent(segments: seq<Segment>) returns (r: Result<string, string>)
    ensures r == SrtDocument(segments)
  {
    var srtContent: seq<string> := [];
    var i := 0;
    while i < |segments|
      invariant 0 <= i <= |segments|
      invariant TimesNonNegative(segments[..i])
      invariant srtContent == SrtBlocks(segments[..i])
    {
      var cue := Cue(i + 1, segments[i]);
      if cue.Failure? {
        assert !TimesNonNegative(segments) by { assert segments[i].startMs < 0 || segments[i].endMs < 0; }
        return Failure(cue.error);
      }
      SrtBlocksSnoc(segments, i);
      srtContent := srtContent + [cue.value];
      i := i + 1;
    }
    assert segments[..i] == segments;
    r := Success(Join(srtContent, "\n"));
  }

  /** One more non-negative segment adds its cue. */
  lemma SrtBlocksSnoc(segs: seq<Segment>, i: nat)
    requires i < |segs| && TimesNonNegative(segs[..i]) && segs[i].startMs >= 0 && segs[i].endMs >= 0
    ensures TimesNonNegative(segs[..i + 1])
    ensures SrtBlocks(segs[..i + 1]) == SrtBlocks(segs[..i]) + [SrtBlock(i + 1, segs[i])]
  {
    var prefix := segs[..i + 1];
    assert prefix[..i] == segs[..i];
    assert forall k :: 0 <= k < i ==> prefix[k] == segs[..i][k];
  }

  /** One pass of the loop of `SrtExportAdapter.export`: both times, the stripped text, and the cue they make. */
  method Cue(number: nat, segment: Segment) returns (r: Result<string, string>)
    ensures segment.startMs >= 0 && segment.endMs >= 0 ==> r == Success(SrtBlock(number, segment))
    ensures segment.startMs < 0 || segment.endMs < 0 ==> r == Failure(NEGATIVE_TIMESTAMP)
  {
    var startTime := FormatSrtTime(segment.startMs);
    if startTime.Failure? {
      return Failure(startTime.error);
    }
    var endTime := FormatSrtTime(segment.endMs);
    if endTime.Failure? {
      return Failure(endTime.error);
    }
    var text := Strip(segment.text);
    var head, tail := NatToDecimal(number) + "\n", "\n" + text + "\n";
    r := Success(head + startTime.value + " --> " + endTime.value + tail);
  }

  /** No segments give an empty file. */
  lemma SrtDocumentOfNoSegments()
    ensures SrtDocument([]) == Success("")
  {
  }

  /** Every segment's cue appears in the document, in its place after the cues before it. */
  lemma SrtBlockInDocument(segs: seq<Segment>, i: nat)
    requires i < |segs| && TimesNonNegative(segs)
    ensures SrtDocument(segs).Success?
    ensures Contains(SrtDocument(segs).value, SrtBlock(i + 1, segs[i]))
  {
    var blocks := SrtBlocks(segs);
    assert SrtDocument(segs) == Success(Join(blocks, "\n"));
    SrtBlocksAt(segs, i);
    JoinContainsPart(blocks, "\n", i);
  }

  /** A negative start or end anywhere makes the export fail with the timestamp error. */
  lemma SrtDocumentFailsOnNegative(segs: seq<Segment>, i: nat)
    requires i < |segs| && (segs[i].startMs < 0 || segs[i].endMs < 0)
    ensures SrtDocument(segs) == Failure(NEGATIVE_TIMESTAMP)
  {
  }

  /** The three time stamps of the exporter's unit test. */
  lemma SrtTimeExamples()
    ensures SrtTime(0) == "00:00:00,000"
    ensures SrtTime(2500) == "00:00:02,500"
    ensures SrtTime(3100) == "00:00:03,100"
  {
    SrtTimeExample(0, 0, 0);
    SrtTimeExample(2500, 2, 500);
    SrtTimeExample(3100, 3, 100);
    assert DigitChar(0) == '0' && DigitChar(1) == '1' && DigitChar(2) == '2';
    assert DigitChar(3) == '3' && DigitChar(5) == '5';
  }

  lemma SrtTimeExample(ms: nat, s: nat, f: nat)
    requires s < 10 && f < 1000 && f % 100 == 0 && ms == s * 1000 + f
    ensures SrtTime(ms) == "00:00:0" + [DigitChar(s)] + "," + [DigitChar(f / 100)] + "00"
  {
    SrtFieldsUnique(ms, 0, 0, s, f);
    ZeroPadTwoDigits(0);
    ZeroPadTwoDigits(s);
    ZeroPadHundreds(f / 100);
    assert DigitChar(0) == '0';
  }

  lemma ZeroPadHundreds(d: nat)
    requires d < 10
    ensures ZeroPad(d * 100, 3) == [DigitChar(d)] + "00"
  {
    if d == 0 {
      assert NatToDecimal(0) == "0";
      assert Zeros(2) == "00";
    } else {
      assert NatToDecimal(d * 100 / 10 / 10) == [DigitChar(d)];
      assert NatToDecimal(d * 100 / 10) == [DigitChar(d)] + [DigitChar(0)];
      assert NatToDecimal(d * 100) == [DigitChar(d)] + [DigitChar(0)] + [DigitChar(0)];
      assert DigitChar(0) == '0';
    }
  }

  // ---------------------------------------------------------------------
  // Adapters and the factory

  /** The four adapter classes. */
  datatype Exporter = TxtExporter | MdExporter | SrtExporter | DocxExporter

  /** What `export` is given: the transcript and, for SubRip, its segments (`.get("segments", [])`). */
  datatype ResultData = ResultData(text: string, segments: seq<Segment>)

  /**
   * What one `export` call does. A failed write (`IOError`) is reported on the
   * console and not raised; only the missing docx library and a negative time
   * stamp raise.
   */
  datatype Outcome =
    | Wrote(content: string)
    | WroteDocument(paragraph: string)
    | WriteFailed(report: string)
    | Raises(message: string)

  /** `_EXPORTERS`: the adapter registered for each format. */
  function ExporterFor(f: OutputFormat): Exporter
  {
    match f
    case Txt => TxtExporter
    case Md => MdExporter
    case Srt => SrtExporter
    case Docx => DocxExporter
  }

  /**
   * `get_exporter`. The table's keys are `str` enums, so any string equal to
   * a format's value finds that format's adapter; any other key raises a
   * ValueError naming it.
   */
  function GetExporter(key: string): (r: Result<Exporter, string>)
    ensures r.Success? <==> exists f: OutputFormat :: f.Value() == key
    ensures r.Success? ==> forall f: OutputFormat :: f.Value() == key ==> r.value == ExporterFor(f)
    ensures r.Failure? ==> r.error == "Не найден адаптер для формата '" + key + "'"
  {
    match ParseOutputFormat(key)
    case Success(f) => Success(ExporterFor(f))
    case Failure(_) => Failure("Не найден адаптер для формата '" + key + "'")
  }

  /** Each format's own value finds its adapter, and different formats find different adapters. */
  lemma GetExporterOfFormat(f: OutputFormat, g: OutputFormat)
    ensures GetExporter(f.Value()) == Success(ExporterFor(f))
    ensures f != g ==> ExporterFor(f) != ExporterFor(g)
  {
    OutputFormatRoundTrip(f);
  }

  /**
   * What `export` of an adapter does: the plain-text adapters write the text,
   * the SubRip adapter its document unless a time is negative, the docx
   * adapter one paragraph unless the library is missing; a write error
   * replaces the write by its report.
   */
  function ExportOutcome(exporter: Exporter, data: ResultData, docxAvailable: bool, writeError: Option<string>): (r: Outcome)
    ensures r.WriteFailed? ==> writeError.Some? && r.report == SAVE_ERROR_PREFIX + writeError.value
    ensures writeError.Some? ==> r.WriteFailed? || r.Raises?
    ensures r.WroteDocument? ==> exporter == DocxExporter && r.paragraph == data.text
  {
    match exporter
    case TxtExporter | MdExporter =>
      if writeError.Some? then WriteFailed(SAVE_ERROR_PREFIX + writeError.value) else Wrote(data.text)
    case SrtExporter =>
      (match SrtDocument(data.segments)
       case Failure(e) => Raises(e)
       case Success(body) => if writeError.Some? then WriteFailed(SAVE_ERROR_PREFIX + writeError.value) else Wrote(body))
    case DocxExporter =>
      if !docxAvailable then Raises(DOCX_MISSING)
      else if writeError.Some? then WriteFailed(SAVE_ERROR_PREFIX + writeError.value)
      else WroteDocument(data.text)
  }

  /**
   * An export raises exactly when the docx library is missing for the docx
   * adapter or a segment has a negative time for the SubRip adapter; a write
   * error never raises.
   */
  lemma ExportRaisesExactly(exporter: Exporter, data: ResultData, docxAvailable: bool, writeError: Option<string>)
    ensures ExportOutcome(exporter, data, docxAvailable, writeError).Raises? <==>
      (exporter == DocxExporter && !docxAvailable) || (exporter == SrtExporter && !TimesNonNegative(data.segments))
    ensures ExportOutcome(exporter, data, docxAvailable, writeError).Raises? ==>
      ExportOutcome(exporter, data, docxAvailable, writeError).message in {DOCX_MISSING, NEGATIVE_TIMESTAMP}
    ensures writeError.Some? && !ExportOutcome(exporter, data, docxAvailable, writeError).Raises? ==>
      ExportOutcome(exporter, data, docxAvailable, writeError) == WriteFailed(SAVE_ERROR_PREFIX + writeError.value)
  {
  }

  /** Without a write error, the text adapters write the transcript unchanged and the SubRip adapter writes its document. */
  lemma ExportWritesContent(exporter: Exporter, data: ResultData, docxAvailable: bool)
    ensures exporter == TxtExporter || exporter == MdExporter ==>
      ExportOutcome(exporter, data, docxAvailable, None) == Wrote(data.text)
    ensures exporter == SrtExporter && TimesNonNegative(data.segments) ==>
      ExportOutcome(exporter, data, docxAvailable, None) == Wrote(Join(SrtBlocks(data.segments), "\n"))
    ensures exporter == DocxExporter && docxAvailable ==>
      ExportOutcome(exporter, data, docxAvailable, None) == WroteDocument(data.text)
  {
  }

  /**
   * `export` of one adapter. `writeError` is the IOError the file system
   * raises on writing, if any; `docxAvailable` says whether `import docx`
   * succeeds.
   */
  method Export(exporter: Exporter, data: ResultData, docxAvailable: bool, writeError: Option<string>)
    returns (outcome: Outcome)
    ensures outcome == ExportOutcome(exporter, data, docxAvailable, writeError)
  {
    match exporter
    case TxtExporter =>
      outcome := WriteText(data.text, writeError);
    case MdExporter =>
      outcome := WriteText(data.text, writeError);
    case SrtExporter =>
      var content := SrtContent(data.segments);
      if content.Failure? {
        return Raises(content.error);
      }
      outcome := WriteText(content.value, writeError);
    case DocxExporter =>
      if !docxAvailable {
        return Raises(DOCX_MISSING);
      }
      outcome := if writeError.Some? then WriteFailed(SAVE_ERROR_PREFIX + writeError.value) else WroteDocument(data.text);
  }

  /** `destination_path.write_text(content)`, its IOError caught and reported. */
  method WriteText(content: string, writeError: Option<string>) returns (outcome: Outcome)
    ensures writeError.None? ==> outcome == Wrote(content)
    ensures writeError.Some? ==> outcome == WriteFailed(SAVE_ERROR_PREFIX + writeError.value)
  {
    if writeError.Some? {
      return WriteFailed(SAVE_ERROR_PREFIX + writeError.value);
    }
    return Wrote(content);
  }
}
