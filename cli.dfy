/**
 * The command line (app/main.py): the pre-flight check of a source, the test
 * that sends a source to the YouTube downloader, the audio path that test
 * and the downloader leave to the transcription, and the name of the output
 * file. Whether a path exists and whether it is a regular file are answers
 * of the file system, passed in.
 */
module Cli {
  import opened Wrappers
  import opened Strings
  import opened Models

  const HTTP: string := "http://"
  const HTTPS: string := "https://"
  const YOUTUBE_COM: string := "youtube.com"
  const YOUTU_BE: string := "youtu.be"

  const YOUTUBE_DETECTED: string := "[green]✅ Предварительная проверка:[/green] Обнаружена ссылка на YouTube."
  const UNSUPPORTED_URL: string := "[bold red]❌ Ошибка:[/bold red] Неподдерживаемый URL. Принимаются только ссылки на YouTube."
  const LOCAL_DETECTED: string := "[green]✅ Предварительная проверка:[/green] Обнаружен локальный файл."

  function NotFoundMessage(path: string): string
  {
    "[bold red]❌ Ошибка:[/bold red] Файл не найден по пути '" + path + "'."
  }

  function DirectoryMessage(path: string): string
  {
    "[bold red]❌ Ошибка:[/bold red] Путь '" + path + "' указывает на директорию."
  }

  /** What `pre_flight_check` returns, and the line it prints. */
  datatype Check = Check(ok: bool, message: string)

  /** The URL test of `pre_flight_check`. */
  predicate IsUrl(source: string)
  {
    StartsWith(source, HTTP) || StartsWith(source, HTTPS)
  }

  predicate IsYoutubeUrl(source: string)
  {
    Contains(source, YOUTUBE_COM) || Contains(source, YOUTU_BE)
  }

  /**
   * `pre_flight_check`: a URL is accepted when it names YouTube; any other
   * source must exist and be a regular file.
   */
  function PreFlightCheck(source: string, present: bool, isFile: bool): (r: Check)
    ensures r.ok <==> if IsUrl(source) then IsYoutubeUrl(source) else present && isFile
    ensures r.ok ==> r.message == (if IsUrl(source) then YOUTUBE_DETECTED else LOCAL_DETECTED)
  {
    if IsUrl(source) then
      if IsYoutubeUrl(source) then Check(true, YOUTUBE_DETECTED) else Check(false, UNSUPPORTED_URL)
    else if !present then Check(false, NotFoundMessage(source))
    else if !isFile then Check(false, DirectoryMessage(source))
    else Check(true, LOCAL_DETECTED)
  }

  /** A URL is judged by its text alone: the file system is not consulted. */
  lemma PreFlightUrl(source: string, present: bool, isFile: bool, present': bool, isFile': bool)
    requires IsUrl(source)
    ensures PreFlightCheck(source, present, isFile) == PreFlightCheck(source, present', isFile')
    ensures PreFlightCheck(source, present, isFile).ok <==> IsYoutubeUrl(source)
  {
  }

  /** Any other source is accepted exactly when it is an existing regular file. */
  lemma PreFlightLocal(source: string, present: bool, isFile: bool)
    requires !IsUrl(source)
    ensures PreFlightCheck(source, present, isFile).ok <==> present && isFile
    ensures !present ==> PreFlightCheck(source, present, isFile).message == NotFoundMessage(source)
    ensures present && !isFile ==> PreFlightCheck(source, present, isFile).message == DirectoryMessage(source)
  {
  }

  lemma PreFlightExamples()
    ensures PreFlightCheck(EXAMPLE_VIDEO, false, false) == Check(true, YOUTUBE_DETECTED)
    ensures PreFlightCheck(EXAMPLE_OTHER_SITE, true, true) == Check(false, UNSUPPORTED_URL)
    ensures !PreFlightCheck(EXAMPLE_MISSING, false, false).ok
  {
    OccursAtJoin(EXAMPLE_VIDEO_HOST, YOUTUBE_COM, EXAMPLE_VIDEO_PATH);
    assert !StartsWith(EXAMPLE_MISSING, HTTP) && !StartsWith(EXAMPLE_MISSING, HTTPS) by {
      assert EXAMPLE_MISSING[0] != HTTP[0];
    }
    NotYoutube(EXAMPLE_OTHER_SITE);
  }

  const EXAMPLE_VIDEO_HOST: string := "https://www."
  const EXAMPLE_VIDEO_PATH: string := "/watch?v=dQw4w9WgXcQ"
  const EXAMPLE_VIDEO: string := EXAMPLE_VIDEO_HOST + YOUTUBE_COM + EXAMPLE_VIDEO_PATH
  const EXAMPLE_OTHER_SITE: string := "https://vimeo.com/1"
  const EXAMPLE_MISSING: string := "/path/to/non_existent_file.mp3"

  /** A source with no `y` names neither YouTube host. */
  lemma NotYoutube(source: string)
    requires 'y' !in source
    ensures !IsYoutubeUrl(source)
  {
    ContainsFirstChar(source, YOUTUBE_COM);
    ContainsFirstChar(source, YOUTU_BE);
  }

  lemma ContainsFirstChar(s: string, sub: string)
    requires |sub| > 0
    ensures Contains(s, sub) ==> sub[0] in s
  {
    if Contains(s, sub) {
      var i :| 0 <= i <= |s| && OccursAt(s, sub, i);
      assert s[i] == s[i..i + |sub|][0];
    }
  }

  lemma OccursAtJoin(a: string, sub: string, b: string)
    ensures OccursAt(a + sub + b, sub, |a|)
  {
    assert (a + sub + b)[|a|..|a| + |sub|] == sub;
  }

  // ---------------------------------------------------------------------
  // Routing

  /** The routing test of `_run_transcription` as written: `startswith(("http", "https"))`. */
  predicate RoutesToDownloaderAsWritten(source: string)
  {
    StartsWith(source, "http") || StartsWith(source, "https")
  }

  /** The second prefix adds nothing: every `https` source starts with `http`. */
  lemma RoutingIsPrefixHttp(source: string)
    ensures RoutesToDownloaderAsWritten(source) <==> StartsWith(source, "http")
  {
    if StartsWith(source, "https") {
      assert source[..4] == source[..5][..4];
    }
  }

  /** Every URL the pre-flight check accepts goes to the downloader. */
  lemma AcceptedUrlIsRouted(source: string, present: bool, isFile: bool)
    requires IsUrl(source) && PreFlightCheck(source, present, isFile).ok
    ensures RoutesToDownloaderAsWritten(source)
  {
    if StartsWith(source, HTTP) {
      assert source[..4] == source[..7][..4];
    } else {
      assert source[..4] == source[..8][..4];
    }
  }

  const MISROUTED_FILE: string := "https_talk.mp3"

  /**
   * A local file whose name starts with `http` passes the pre-flight check
   * as a local file and is then handed to the YouTube downloader.
   */
  lemma LocalFileMisrouted()
    ensures PreFlightCheck(MISROUTED_FILE, true, true) == Check(true, LOCAL_DETECTED)
    ensures RoutesToDownloaderAsWritten(MISROUTED_FILE)
  {
    assert MISROUTED_FILE[..7] != HTTP by { assert MISROUTED_FILE[5] != HTTP[5]; }
    assert MISROUTED_FILE[..8] != HTTPS by { assert MISROUTED_FILE[5] != HTTPS[5]; }
    assert MISROUTED_FILE[..4] == "http";
  }

  /** The routing the pre-flight check evidently intends: the same URL test. */
  predicate RoutesToDownloader(source: string)
  {
    IsUrl(source)
  }

  /** With that routing, a source the pre-flight check accepts goes to the downloader exactly when it was accepted as a YouTube URL. */
  lemma RoutingAgreesWithPreFlight(source: string, present: bool, isFile: bool)
    requires PreFlightCheck(source, present, isFile).ok
    ensures RoutesToDownloader(source) <==> PreFlightCheck(source, present, isFile).message == YOUTUBE_DETECTED
  {
    assert YOUTUBE_DETECTED != LOCAL_DETECTED by { assert YOUTUBE_DETECTED[52] != LOCAL_DETECTED[52]; }
  }

  // ---------------------------------------------------------------------
  // The audio path and the output file

  /** What `YoutubeAdapter()` and `download_audio` come back with. */
  datatype Download =
    | Downloaded(path: Option<string>)
    | FFmpegMissing(message: string)
    | DownloadRaised(message: string)

  /** How `_run_transcription` goes on after the routing test. */
  datatype AudioOutcome = Audio(path: string) | Exit(code: int) | Raises(message: string)

  /**
   * The download branch: a non-empty path is transcribed, a download that
   * gives nothing and a missing FFmpeg end with exit code 1, and any other
   * error propagates.
   */
  function DownloadOutcome(download: Download): (r: AudioOutcome)
    ensures r.Audio? <==> download.Downloaded? && download.path.Some? && download.path.value != ""
    ensures r.Audio? ==> download == Downloaded(Some(r.path))
    ensures r.Exit? ==> r.code == 1
    ensures r.Raises? <==> download.DownloadRaised?
    ensures r.Raises? ==> r.message == download.message
  {
    match download
    case Downloaded(path) =>
      if path.None? || path.value == "" then Exit(1) else Audio(path.value)
    case FFmpegMissing(_) => Exit(1)
    case DownloadRaised(e) => Raises(e)
  }

  /**
   * The audio the transcription is given, as written: the source itself
   * unless it starts with `http`, whatever the pre-flight check made of it.
   */
  function AudioFor(source: string, download: Download): (r: AudioOutcome)
    ensures !StartsWith(source, "http") ==> r == Audio(source)
    ensures StartsWith(source, "http") ==> r == DownloadOutcome(download)
  {
    RoutingIsPrefixHttp(source);
    if !RoutesToDownloaderAsWritten(source) then Audio(source) else DownloadOutcome(download)
  }

  /** The command as a whole up to the transcription: a failed pre-flight check exits with 1 before anything is downloaded. */
  function Command(source: string, present: bool, isFile: bool, download: Download): (r: AudioOutcome)
    ensures !PreFlightCheck(source, present, isFile).ok ==> r == Exit(1)
    ensures PreFlightCheck(source, present, isFile).ok ==> r == AudioFor(source, download)
  {
    if !PreFlightCheck(source, present, isFile).ok then Exit(1) else AudioFor(source, download)
  }

  /**
   * For an accepted source: one that is not routed is transcribed as it is;
   * every accepted URL is routed, so its audio path is never empty and a
   * falsy download or a missing FFmpeg exits with 1.
   */
  lemma CommandOutcomes(source: string, present: bool, isFile: bool, download: Download)
    requires PreFlightCheck(source, present, isFile).ok
    ensures !RoutesToDownloaderAsWritten(source) ==> Command(source, present, isFile, download) == Audio(source)
    ensures IsUrl(source) ==> Command(source, present, isFile, download) == DownloadOutcome(download)
    ensures IsUrl(source) && Command(source, present, isFile, download).Audio? ==>
      Command(source, present, isFile, download) == Audio(download.path.value) && download.path.value != ""
    ensures IsUrl(source) && (download.FFmpegMissing? || download == Downloaded(None) || download == Downloaded(Some(""))) ==>
      Command(source, present, isFile, download) == Exit(1)
  {
    RoutingIsPrefixHttp(source);
    if IsUrl(source) {
      AcceptedUrlIsRouted(source, present, isFile);
    }
  }

  /** The misrouted local file: its name goes to the downloader, so what the download does replaces the transcription of the file. */
  lemma CommandMisroutes(download: Download)
    ensures Command(MISROUTED_FILE, true, true, download) == DownloadOutcome(download)
    ensures Command(MISROUTED_FILE, true, true, Downloaded(None)) == Exit(1)
    ensures Command(MISROUTED_FILE, true, true, DownloadRaised(UNSUPPORTED_URL)) == Raises(UNSUPPORTED_URL)
  {
    LocalFileMisrouted();
    RoutingIsPrefixHttp(MISROUTED_FILE);
  }

  /** The audio with the evidently intended routing: the pre-flight check's own URL test. */
  function AudioForIntended(source: string, download: Download): (r: AudioOutcome)
    ensures !IsUrl(source) ==> r == Audio(source)
    ensures IsUrl(source) ==> r == DownloadOutcome(download)
  {
    if !RoutesToDownloader(source) then Audio(source) else DownloadOutcome(download)
  }

  /** The command with the intended routing. */
  function CommandIntended(source: string, present: bool, isFile: bool, download: Download): (r: AudioOutcome)
    ensures !PreFlightCheck(source, present, isFile).ok ==> r == Exit(1)
    ensures PreFlightCheck(source, present, isFile).ok ==> r == AudioForIntended(source, download)
  {
    if !PreFlightCheck(source, present, isFile).ok then Exit(1) else AudioForIntended(source, download)
  }

  /**
   * With the intended routing, an accepted local file is transcribed as it is
   * and an accepted YouTube URL always goes to the downloader; the command as
   * written agrees with it except on local files whose names start with `http`.
   */
  lemma CommandIntendedOutcomes(source: string, present: bool, isFile: bool, download: Download)
    requires PreFlightCheck(source, present, isFile).ok
    ensures PreFlightCheck(source, present, isFile).message == LOCAL_DETECTED ==>
      CommandIntended(source, present, isFile, download) == Audio(source)
    ensures PreFlightCheck(source, present, isFile).message == YOUTUBE_DETECTED ==>
      CommandIntended(source, present, isFile, download) == DownloadOutcome(download)
    ensures (IsUrl(source) || !StartsWith(source, "http")) ==>
      Command(source, present, isFile, download) == CommandIntended(source, present, isFile, download)
  {
    RoutingAgreesWithPreFlight(source, present, isFile);
    assert YOUTUBE_DETECTED != LOCAL_DETECTED by { assert YOUTUBE_DETECTED[52] != LOCAL_DETECTED[52]; }
    if IsUrl(source) {
      AcceptedUrlIsRouted(source, present, isFile);
      RoutingIsPrefixHttp(source);
    }
  }

  /** The intended command transcribes the misrouted file itself, which the command as written does not. */
  lemma MisroutedFileIntended(download: Download)
    ensures CommandIntended(MISROUTED_FILE, true, true, download) == Audio(MISROUTED_FILE)
    ensures Command(MISROUTED_FILE, true, true, Downloaded(None)) != CommandIntended(MISROUTED_FILE, true, true, Downloaded(None))
  {
    LocalFileMisrouted();
    CommandMisroutes(Downloaded(None));
    assert !IsUrl(MISROUTED_FILE) by {
      assert MISROUTED_FILE[..7] != HTTP by { assert MISROUTED_FILE[5] != HTTP[5]; }
      assert MISROUTED_FILE[..8] != HTTPS by { assert MISROUTED_FILE[5] != HTTPS[5]; }
    }
  }

  /** The final component of a path. */
  function FileName(path: string): (name: string)
    ensures '/' !in name && EndsWith(path, name)
  {
    var i := RFind(path, '/');
    NoCharAfter(path, '/', i + 1);
    path[i + 1..]
  }

  lemma NoCharAfter(s: string, c: char, k: nat)
    requires k <= |s|
    requires forall j :: k <= j < |s| ==> s[j] != c
    ensures c !in s[k..]
  {
    forall x | x in s[k..]
      ensures x != c
    {
      var j :| 0 <= j < |s[k..]| && s[k..][j] == x;
      assert s[k + j] == x;
    }
  }

  /** Where the suffix starts in `pathlib`'s sense: a last dot that neither begins nor ends the name. */
  function SuffixStart(name: string): (k: int)
    ensures 0 <= k <= |name|
  {
    var i := RFind(name, '.');
    if 0 < i < |name| - 1 then i else |name|
  }

  /** `pathlib.Path(path).stem`. */
  function Stem(path: string): (stem: string)
    ensures StartsWith(FileName(path), stem)
  {
    var name := FileName(path);
    name[..SuffixStart(name)]
  }

  /** `pathlib.Path(path).suffix`. */
  function Suffix(path: string): (suffix: string)
    ensures EndsWith(FileName(path), suffix) && (suffix == [] || suffix[0] == '.')
  {
    var name := FileName(path);
    name[SuffixStart(name)..]
  }

  /** The stem and the suffix make up the file name; the suffix is empty or a dot followed by a dot-free tail. */
  lemma StemAndSuffix(path: string)
    ensures Stem(path) + Suffix(path) == FileName(path)
    ensures Suffix(path) == [] || (Suffix(path)[0] == '.' && |Suffix(path)| >= 2 && '.' !in Suffix(path)[1..])
    ensures Stem(path) != [] || FileName(path) == []
  {
    var name := FileName(path);
    var k := SuffixStart(name);
    assert Stem(path) == name[..k] && Suffix(path) == name[k..];
    assert name == name[..k] + name[k..];
    if k < |name| {
      var i := RFind(name, '.');
      assert k == i;
      NoCharAfter(name, '.', k + 1);
      assert name[k..][1..] == name[k + 1..];
    }
  }

  /** `f"{stem}.{output_format.value}"`. */
  function OutputFilename(audioPath: string, format: OutputFormat): (name: string)
    ensures StartsWith(name, Stem(audioPath)) && EndsWith(name, "." + format.Value())
    ensures '/' !in name
  {
    var stem := Stem(audioPath);
    var name := FileName(audioPath);
    assert '/' !in stem by {
      assert forall j :: 0 <= j < |stem| ==> stem[j] == name[j];
    }
    FormatHasNoSlash(format);
    assert (stem + "." + format.Value())[..|stem|] == stem;
    stem + "." + format.Value()
  }

  lemma FormatHasNoSlash(format: OutputFormat)
    ensures '/' !in format.Value()
  {
  }

  /** The last `c` in `s` is the one at `i` when none follows it. */
  lemma RFindAt(s: string, c: char, i: nat)
    requires i < |s| && s[i] == c && c !in s[i + 1..]
    ensures RFind(s, c) == i
  {
  }

  /** The stem of `<dir>/<stem>.<ext>` is `stem` when `stem` and `ext` are non-empty and dot- and slash-free. */
  lemma StemOf(dir: string, stem: string, ext: string)
    requires stem != [] && ext != [] && '/' !in stem && '/' !in ext && '.' !in ext
    ensures Stem(dir + "/" + stem + "." + ext) == stem
  {
    var path := dir + "/" + stem + "." + ext;
    var name := stem + "." + ext;
    assert path == dir + "/" + name;
    assert '/' !in name;
    assert path[|dir| + 1..] == name;
    RFindAt(path, '/', |dir|);
    assert FileName(path) == name;
    assert name[|stem| + 1..] == ext;
    RFindAt(name, '.', |stem|);
  }

  /** The file name follows the format and not the audio file's own suffix. */
  lemma OutputFilenameExamples()
    ensures OutputFilename(EXAMPLE_AUDIO, Txt) == "audio.txt"
    ensures OutputFilename(EXAMPLE_AUDIO, Srt) == "audio.srt"
  {
    StemOf(EXAMPLE_DIR, EXAMPLE_STEM, EXAMPLE_EXT);
  }

  const EXAMPLE_DIR: string := "/tmp/run"
  const EXAMPLE_STEM: string := "audio"
  const EXAMPLE_EXT: string := "wav"
  const EXAMPLE_AUDIO: string := EXAMPLE_DIR + "/" + EXAMPLE_STEM + "." + EXAMPLE_EXT
}
