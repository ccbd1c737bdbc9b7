/**
 * The model cache (`ModelManager` in app/services/model_manager.py): where a
 * model file lives, whether the cached copy can be used, and the atomic
 * download through a `.part` file.
 *
 * The file system is a map from paths to byte strings. SHA-256, the model
 * table of the speech library and the network stream are inputs: the hash is
 * an arbitrary function, the model's URL is given, and a stream is the list of
 * what its successive reads return.
 */
module ModelCache {
  import opened Wrappers
  import opened Strings
  import opened Models
  import Transcription

  type Bytes = seq<int>
  type Disk = map<string, Bytes>

  const MB: nat := 1024 * 1024

  const DOWNLOAD_ERROR: string := "Ошибка при загрузке модели: "
  /** The message of the IndexError raised when the URL has fewer than two `/`-separated parts. */
  const INDEX_ERROR: string := "list index out of range"

  // ---------------------------------------------------------------------
  // Paths

  /** `os.path.join(a, b)` for a relative `b`: `b` under `a`, with exactly the one `/` it needs. */
  function JoinPath(a: string, b: string): (p: string)
    ensures EndsWith(p, b) && StartsWith(p, a)
    ensures a == "" || a[|a| - 1] == '/' ==> |p| == |a| + |b|
    ensures a != "" && a[|a| - 1] != '/' ==> |p| == |a| + 1 + |b| && p[|a|] == '/'
  {
    if a == "" then b
    else if a[|a| - 1] == '/' then
      assert (a + b)[..|a|] == a;
      a + b
    else
      assert (a + "/" + b)[..|a|] == a;
      a + "/" + b
  }

  /**
   * `_get_download_root`: the value of `XDG_CACHE_HOME` when the variable is
   * set (even to an empty string), else `~/.cache/whisper` under the home
   * directory `expanduser("~")` gives.
   */
  function DownloadRoot(xdgCacheHome: Option<string>, home: string): (root: string)
    ensures xdgCacheHome.Some? ==> root == xdgCacheHome.value
    ensures xdgCacheHome.None? ==> EndsWith(root, "whisper")
  {
    match xdgCacheHome
    case Some(root) => root
    case None => JoinPath(JoinPath(home, ".cache"), "whisper")
  }

  /** Without `XDG_CACHE_HOME`, the root is `.cache/whisper` in the home directory. */
  lemma DownloadRootDefault(home: string)
    requires home != "" && home[|home| - 1] != '/'
    ensures DownloadRoot(None, home) == home + "/.cache/whisper"
  {
    var cache := JoinPath(home, ".cache");
    assert cache == home + "/.cache";
    assert JoinPath(cache, "whisper") == cache + "/" + "whisper";
  }

  /** `download_path`: `<root>/<size>.pt`. */
  function DownloadPath(root: string, size: ModelSize): (p: string)
    ensures StartsWith(p, root) && EndsWith(p, size.Value() + ".pt")
  {
    JoinPath(root, size.Value() + ".pt")
  }

  function PartPath(downloadPath: string): (p: string)
    ensures p != downloadPath && StartsWith(p, downloadPath)
  {
    downloadPath + ".part"
  }

  /** `url.split("/")[-2]`, or nothing when that raises IndexError. */
  function ExpectedHash(url: string): (h: Option<string>)
    ensures h.Some? ==> '/' !in h.value
  {
    var parts := Split(url, '/');
    if |parts| >= 2 then Some(parts[|parts| - 2]) else None
  }

  /** The hash is the directory just above the file name in the URL. */
  lemma ExpectedHashOfUrl(prefix: string, hash: string, name: string)
    requires '/' !in hash && '/' !in name
    ensures ExpectedHash(prefix + "/" + hash + "/" + name) == Some(hash)
  {
    var url := prefix + "/" + hash + "/" + name;
    assert url == (prefix + "/" + hash) + ['/'] + name;
    SplitConcat(prefix + "/" + hash, name, '/');
    assert prefix + "/" + hash == prefix + ['/'] + hash;
    SplitConcat(prefix, hash, '/');
    SplitWithoutSeparator(hash, '/');
    SplitWithoutSeparator(name, '/');
  }

  /** A URL with no `/` at all has no hash to compare with. */
  lemma ExpectedHashWithoutSlash(url: string)
    requires '/' !in url
    ensures ExpectedHash(url) == None
  {
    SplitWithoutSeparator(url, '/');
  }

  // ---------------------------------------------------------------------
  // The download loop's bookkeeping

  /**
   * What the manager's two callbacks receive, in the order of the calls:
   * `progress_callback(downloaded, total)` and `log_callback(line)`. Both feed
   * the same queue in the GUI, so their interleaving is part of the model.
   */
  datatype Event = Progress(downloaded: nat, total: nat) | Log(line: string)

  /** The bytes of the buffers, in order. */
  function Concat(buffers: seq<Bytes>): Bytes
  {
    if buffers == [] then [] else Concat(buffers[..|buffers| - 1]) + buffers[|buffers| - 1]
  }

  /** Whether the last buffer is logged: the first buffer always is, a later one when the whole-megabyte count advanced. */
  predicate LogsLast(buffers: seq<Bytes>)
    requires buffers != []
  {
    var before := buffers[..|buffers| - 1];
    before == [] || |Concat(buffers)| / MB > |Concat(before)| / MB
  }

  /**
   * The calls of the download loop: for each buffer, the progress call with
   * the running total and the announced size, then, when the whole-megabyte
   * count exceeds the last one logged, its log line. As the total only grows,
   * that is when the count has advanced.
   */
  function DownloadEvents(buffers: seq<Bytes>, totalSize: nat): seq<Event>
  {
    if buffers == [] then []
    else
      DownloadEvents(buffers[..|buffers| - 1], totalSize)
      + [Progress(|Concat(buffers)|, totalSize)]
      + if LogsLast(buffers) then [Log(MbLine(|Concat(buffers)| / MB, totalSize))] else []
  }

  /** The whole-megabyte counts logged after each buffer. */
  function LoggedMbs(buffers: seq<Bytes>): (mbs: seq<nat>)
    ensures |mbs| <= |buffers| && (buffers != [] ==> mbs != [])
  {
    if buffers == [] then []
    else LoggedMbs(buffers[..|buffers| - 1]) + if LogsLast(buffers) then [|Concat(buffers)| / MB] else []
  }

  /** The calls of `progress_callback` alone. */
  function ProgressCalls(buffers: seq<Bytes>, totalSize: nat): (calls: seq<(nat, nat)>)
    ensures |calls| == |buffers|
  {
    if buffers == [] then []
    else ProgressCalls(buffers[..|buffers| - 1], totalSize) + [(|Concat(buffers)|, totalSize)]
  }

  /** `f"{total_size / 2**20:.0f}"` rounds the exact quotient half to even. */
  function RoundedMb(totalSize: nat): (r: nat)
    ensures r * MB <= totalSize + MB / 2 && totalSize <= r * MB + MB / 2
  {
    var q, rem := totalSize / MB, totalSize % MB;
    if 2 * rem < MB then q
    else if 2 * rem > MB then q + 1
    else if q % 2 == 0 then q else q + 1
  }

  function MbLine(mb: nat, totalSize: nat): (line: string)
    ensures StartsWith(line, "Загрузка: " + NatToDecimal(mb) + " / ") && EndsWith(line, " МБ")
  {
    var head := "Загрузка: " + NatToDecimal(mb) + " / ";
    var line := head + NatToDecimal(RoundedMb(totalSize)) + " МБ";
    assert line[..|head|] == head && line[|line| - 3..] == " МБ";
    line
  }

  /** The lines of `log_callback` alone. */
  function MbLines(buffers: seq<Bytes>, totalSize: nat): seq<string>
  {
    if buffers == [] then []
    else
      MbLines(buffers[..|buffers| - 1], totalSize)
      + if LogsLast(buffers) then [MbLine(|Concat(buffers)| / MB, totalSize)] else []
  }

  /** The lines are the megabyte lines of the logged counts, one for one. */
  lemma {:induction false} MbLinesOfLoggedMbs(buffers: seq<Bytes>, totalSize: nat)
    ensures |MbLines(buffers, totalSize)| == |LoggedMbs(buffers)|
    ensures forall i :: 0 <= i < |LoggedMbs(buffers)| ==> MbLines(buffers, totalSize)[i] == MbLine(LoggedMbs(buffers)[i], totalSize)
  {
    if buffers != [] {
      MbLinesOfLoggedMbs(buffers[..|buffers| - 1], totalSize);
    }
  }

  /** The progress calls among the events, in order. */
  function ProgressOf(events: seq<Event>): seq<(nat, nat)>
  {
    if events == [] then []
    else
      var e := events[|events| - 1];
      ProgressOf(events[..|events| - 1]) + if e.Progress? then [(e.downloaded, e.total)] else []
  }

  /** The logged lines among the events, in order. */
  function LogOf(events: seq<Event>): seq<string>
  {
    if events == [] then []
    else
      var e := events[|events| - 1];
      LogOf(events[..|events| - 1]) + if e.Log? then [e.line] else []
  }

  lemma {:induction false} ProjectionsAppend(a: seq<Event>, b: seq<Event>)
    ensures ProgressOf(a + b) == ProgressOf(a) + ProgressOf(b)
    ensures LogOf(a + b) == LogOf(a) + LogOf(b)
    decreases |b|
  {
    if b == [] {
      assert a + b == a;
    } else {
      var b', e := b[..|b| - 1], b[|b| - 1];
      assert (a + b)[..|a + b| - 1] == a + b' && (a + b)[|a + b| - 1] == e;
      var p: seq<(nat, nat)> := if e.Progress? then [(e.downloaded, e.total)] else [];
      var l: seq<string> := if e.Log? then [e.line] else [];
      assert ProgressOf(a + b) == ProgressOf(a + b') + p;
      assert LogOf(a + b) == LogOf(a + b') + l;
      ProjectionsAppend(a, b');
      Transcription.Assoc3(ProgressOf(a), ProgressOf(b'), p);
      Transcription.Assoc3(LogOf(a), LogOf(b'), l);
    }
  }

  /** A single event projects to itself on one side and to nothing on the other. */
  lemma ProjectionsOfOne(e: Event)
    ensures ProgressOf([e]) == if e.Progress? then [(e.downloaded, e.total)] else []
    ensures LogOf([e]) == if e.Log? then [e.line] else []
  {
    assert [e][..0] == [];
  }

  /** Taken apart, the events are exactly the progress calls and exactly the megabyte lines. */
  lemma DownloadEventsProjections(buffers: seq<Bytes>, totalSize: nat)
    ensures ProgressOf(DownloadEvents(buffers, totalSize)) == ProgressCalls(buffers, totalSize)
    ensures LogOf(DownloadEvents(buffers, totalSize)) == MbLines(buffers, totalSize)
  {
    ProgressProjection(buffers, totalSize);
    LogProjection(buffers, totalSize);
  }

  lemma {:induction false} ProgressProjection(buffers: seq<Bytes>, totalSize: nat)
    ensures ProgressOf(DownloadEvents(buffers, totalSize)) == ProgressCalls(buffers, totalSize)
  {
    if buffers != [] {
      var before := buffers[..|buffers| - 1];
      var e := Progress(|Concat(buffers)|, totalSize);
      var l: seq<Event> := if LogsLast(buffers) then [Log(MbLine(|Concat(buffers)| / MB, totalSize))] else [];
      ProgressProjection(before, totalSize);
      ProjectStep(DownloadEvents(before, totalSize), e, l);
    }
  }

  lemma {:induction false} LogProjection(buffers: seq<Bytes>, totalSize: nat)
    ensures LogOf(DownloadEvents(buffers, totalSize)) == MbLines(buffers, totalSize)
  {
    if buffers != [] {
      var before := buffers[..|buffers| - 1];
      var e := Progress(|Concat(buffers)|, totalSize);
      var l: seq<Event> := if LogsLast(buffers) then [Log(MbLine(|Concat(buffers)| / MB, totalSize))] else [];
      LogProjection(before, totalSize);
      ProjectStep(DownloadEvents(before, totalSize), e, l);
    }
  }

  /** What one progress call and at most one line after it add to either projection. */
  lemma ProjectStep(d: seq<Event>, e: Event, l: seq<Event>)
    requires e.Progress? && (l == [] || (|l| == 1 && l[0].Log?))
    ensures ProgressOf(d + [e] + l) == ProgressOf(d) + [(e.downloaded, e.total)]
    ensures LogOf(d + [e] + l) == LogOf(d) + if l == [] then [] else [l[0].line]
  {
    ProjectionsAppend(d + [e], l);
    ProjectionsAppend(d, [e]);
    ProjectionsOfOne(e);
    if l != [] {
      assert l == [l[0]];
      ProjectionsOfOne(l[0]);
    }
  }

  /** Whether every megabyte line comes right after the progress call of the buffer it reports. */
  ghost predicate LogsFollowProgress(es: seq<Event>, totalSize: nat)
  {
    forall i :: 0 <= i < |es| && es[i].Log? ==>
      0 < i && es[i - 1].Progress? && es[i].line == MbLine(es[i - 1].downloaded / MB, totalSize)
  }

  /** In the download loop, every megabyte line comes right after the progress call of the buffer it reports. */
  lemma {:induction false} LogFollowsProgress(buffers: seq<Bytes>, totalSize: nat)
    ensures LogsFollowProgress(DownloadEvents(buffers, totalSize), totalSize)
  {
    if buffers != [] {
      var before := buffers[..|buffers| - 1];
      LogFollowsProgress(before, totalSize);
      var d := DownloadEvents(before, totalSize);
      var es := DownloadEvents(buffers, totalSize);
      var tail: seq<Event> := es[|d|..];
      assert es == d + tail;
      forall i | 0 <= i < |es| && es[i].Log?
        ensures 0 < i && es[i - 1].Progress? && es[i].line == MbLine(es[i - 1].downloaded / MB, totalSize)
      {
        if i < |d| {
          assert es[i] == d[i];
          assert es[i - 1] == d[i - 1];
        } else {
          assert i == |d| + 1;
        }
      }
    }
  }

  /** The reads before the first empty one (`if not buffer: break`). */
  function FirstEmpty(chunks: seq<Bytes>): (n: nat)
    ensures n <= |chunks| && (n < |chunks| ==> chunks[n] == [])
    ensures forall i :: 0 <= i < n ==> chunks[i] != []
  {
    if chunks == [] then 0 else if chunks[0] == [] then 0 else 1 + FirstEmpty(chunks[1..])
  }

  /**
   * Logged counts strictly increase, the first is that of the first buffer,
   * and the last is that of the whole download.
   */
  lemma {:induction false} LoggedMbsIncrease(buffers: seq<Bytes>)
    ensures var l := LoggedMbs(buffers);
      (forall i, j :: 0 <= i < j < |l| ==> l[i] < l[j])
      && (buffers != [] ==> |l| > 0 && l[0] == |buffers[0]| / MB && l[|l| - 1] == |Concat(buffers)| / MB)
      && (forall i :: 0 <= i < |l| ==> l[i] <= |Concat(buffers)| / MB)
  {
    if buffers != [] {
      var before := buffers[..|buffers| - 1];
      LoggedMbsIncrease(before);
      ConcatGrows(buffers);
      if before == [] {
        assert buffers == [buffers[0]];
        assert Concat(buffers) == buffers[0];
      } else {
        assert before[0] == buffers[0];
        MbMonotone(|Concat(before)|, |Concat(buffers)|);
      }
    }
  }

  lemma ConcatGrows(buffers: seq<Bytes>)
    requires buffers != []
    ensures |Concat(buffers)| == |Concat(buffers[..|buffers| - 1])| + |buffers[|buffers| - 1]|
  {
  }

  lemma MbMonotone(a: nat, b: nat)
    requires a <= b
    ensures a / MB <= b / MB
  {
  }

  lemma UpdateTwice(d: Disk, path: string, first: Bytes, second: Bytes)
    ensures d[path := first][path := second] == d[path := second]
  {
  }

  /** What one more buffer adds to the part file and to the calls. */
  lemma ReadStep(chunks: seq<Bytes>, n: nat, totalSize: nat)
    requires n < |chunks|
    ensures Concat(chunks[..n + 1]) == Concat(chunks[..n]) + chunks[n]
    ensures var now, was := |Concat(chunks[..n + 1])| / MB, |Concat(chunks[..n])| / MB;
      was <= now
      && DownloadEvents(chunks[..n + 1], totalSize)
         == DownloadEvents(chunks[..n], totalSize) + [Progress(|Concat(chunks[..n + 1])|, totalSize)]
            + if n == 0 || now > was then [Log(MbLine(now, totalSize))] else []
  {
    var before := chunks[..n];
    assert chunks[..n + 1][..n] == before;
    MbMonotone(|Concat(before)|, |Concat(chunks[..n + 1])|);
  }

  /** The progress callback fires once per buffer, with the running byte count, ending at the whole download. */
  lemma {:induction false} ProgressCallsCount(buffers: seq<Bytes>, totalSize: nat)
    ensures var p := ProgressCalls(buffers, totalSize);
      |p| == |buffers| && (buffers != [] ==> p[|p| - 1] == (|Concat(buffers)|, totalSize))
      && forall i :: 0 <= i < |p| ==> p[i] == (|Concat(buffers[..i + 1])|, totalSize)
  {
    if buffers != [] {
      var before := buffers[..|buffers| - 1];
      ProgressCallsCount(before, totalSize);
      var p := ProgressCalls(buffers, totalSize);
      forall i | 0 <= i < |p|
        ensures p[i] == (|Concat(buffers[..i + 1])|, totalSize)
      {
        if i < |before| {
          assert before[..i + 1] == buffers[..i + 1];
        } else {
          assert buffers[..i + 1] == buffers;
        }
      }
    }
  }

  /** A one-buffer download reports its size once and logs once, at its whole-megabyte count. */
  lemma OneBufferLogsOnce(b: Bytes, totalSize: nat)
    ensures DownloadEvents([b], totalSize) == [Progress(|b|, totalSize), Log(MbLine(|b| / MB, totalSize))]
  {
    assert [b][..0] == [];
    assert Concat([b]) == Concat([]) + b;
  }

  // ---------------------------------------------------------------------
  // The manager

  /**
   * The network side of `_download_model`: `urlopen` raises, or the response
   * announces a size (`Content-Length`, 0 when absent) and its reads return
   * `chunks` in order, after which a further read raises `failure` if given and
   * returns nothing otherwise.
   */
  datatype Stream =
    | OpenFailed(error: string)
    | Opened(contentLength: nat, chunks: seq<Bytes>, failure: Option<string>)

  /** The buffers actually written: the reads before the first empty one. */
  function Received(s: Stream): seq<Bytes>
    requires s.Opened?
  {
    s.chunks[..FirstEmpty(s.chunks)]
  }

  /** The exception the download ends with, if any. */
  function DownloadFailure(s: Stream): Option<string>
  {
    match s
    case OpenFailed(e) => Some(e)
    case Opened(_, chunks, failure) => if FirstEmpty(chunks) == |chunks| then failure else None
  }

  /** The calls of the read loop, none when the stream did not open. */
  function StreamEvents(s: Stream): seq<Event>
  {
    if s.Opened? then DownloadEvents(Received(s), s.contentLength) else []
  }

  /**
   * The file system after `_download_model` for the model file `path`: the
   * `.part` file is gone, and on success the received bytes are the model
   * file; nothing else changes.
   */
  function AfterDownload(d: Disk, path: string, s: Stream): (d': Disk)
    ensures PartPath(path) !in d'
    ensures DownloadFailure(s).None? ==> path in d' && d'[path] == Concat(Received(s))
    ensures DownloadFailure(s).Some? ==> (path in d' <==> path in d) && (path in d ==> d'[path] == d[path])
    ensures forall p :: p != path && p != PartPath(path) ==> (p in d' <==> p in d) && (p in d' ==> d'[p] == d[p])
  {
    var cleared := d - {PartPath(path)};
    if DownloadFailure(s).None? then cleared[path := Concat(Received(s))] else cleared
  }

  class ModelManager {
    const modelSize: string
    const downloadPath: string
    /** `whisper._MODELS[model_size]`. */
    const url: string
    /** `hashlib.sha256(...).hexdigest()`. */
    const sha256: Bytes -> string
    var disk: Disk
    /** The calls of `log_callback` and `progress_callback`, in order. */
    var events: seq<Event>
    /** How many files have been hashed. */
    var hashed: nat

    /** `__init__`: the model file is `<size>.pt` under the download root. */
    constructor (size: ModelSize, xdgCacheHome: Option<string>, home: string, url: string, sha256: Bytes -> string, disk: Disk)
      ensures modelSize == size.Value() && downloadPath == DownloadPath(DownloadRoot(xdgCacheHome, home), size)
      ensures this.url == url && this.sha256 == sha256 && this.disk == disk
      ensures events == [] && hashed == 0
    {
      modelSize := size.Value();
      downloadPath := DownloadPath(DownloadRoot(xdgCacheHome, home), size);
      this.url := url;
      this.sha256 := sha256;
      this.disk := disk;
      events := [];
      hashed := 0;
    }

    /** Whether the cached file is there and has the expected hash. */
    ghost predicate Cached(d: Disk)
    {
      downloadPath in d && ExpectedHash(url) == Some(sha256(d[downloadPath]))
    }

    /** Whether `ensure_model_is_available` downloads: no valid cached copy, and no IndexError first. */
    ghost predicate NeedsDownload(d: Disk)
    {
      !Cached(d) && (downloadPath !in d || ExpectedHash(url).Some?)
    }

    /**
     * `is_model_downloaded`: a missing file is not downloaded and is not
     * hashed; a file whose hash differs is deleted; a matching file is left
     * alone. A URL without a hash component raises IndexError.
     */
    method IsModelDownloaded() returns (r: Result<bool, string>)
      modifies this
      ensures downloadPath !in old(disk) ==>
        r == Success(false) && disk == old(disk) && events == old(events) && hashed == old(hashed)
      ensures downloadPath in old(disk) && ExpectedHash(url).None? ==>
        r == Failure(INDEX_ERROR) && disk == old(disk) && events == old(events) && hashed == old(hashed)
      ensures downloadPath in old(disk) && ExpectedHash(url).Some? ==> hashed == old(hashed) + 1
      ensures downloadPath in old(disk) && ExpectedHash(url).Some? && !Cached(old(disk)) ==>
        r == Success(false) && disk == old(disk) - {downloadPath} && events == old(events) + [Log(MismatchLine())]
      ensures Cached(old(disk)) ==> r == Success(true) && disk == old(disk) && events == old(events)
    {
      if downloadPath !in disk {
        return Success(false);
      }
      var expected := ExpectedHash(url);
      if expected.None? {
        return Failure(INDEX_ERROR);
      }
      var modelBytes := disk[downloadPath];
      var calculated := sha256(modelBytes);
      hashed := hashed + 1;
      if calculated != expected.value {
        events := events + [Log(MismatchLine())];
        disk := disk - {downloadPath};
        return Success(false);
      }
      return Success(true);
    }

    function MismatchLine(): string
    {
      "ВНИМАНИЕ: Контрольная сумма локальной модели '" + modelSize + "' не совпадает. Файл будет загружен заново."
    }

    /** The line `_download_model` ends with: success, or the exception it raises again. */
    function FinalLine(s: Stream): string
    {
      match DownloadFailure(s)
      case None => SuccessLine()
      case Some(e) => DOWNLOAD_ERROR + e
    }

    /**
     * `_download_model`: the buffers go to `<path>.part`, which on success is
     * renamed over the model file, and on failure is removed before the
     * exception is raised again.
     */
    method DownloadModel(stream: Stream) returns (error: Option<string>)
      modifies this
      ensures error == DownloadFailure(stream) && hashed == old(hashed)
      ensures disk == AfterDownload(old(disk), downloadPath, stream)
      ensures events == old(events) + StreamEvents(stream) + [Log(FinalLine(stream))]
    {
      var partPath := PartPath(downloadPath);
      if stream.OpenFailed? {
        events := events + [Log(DOWNLOAD_ERROR + stream.error)];
        if partPath in disk {
          disk := disk - {partPath};
        }
        return Some(stream.error);
      }
      var n := ReadToPart(stream.contentLength, stream.chunks);
      if n == |stream.chunks| && stream.failure.Some? {
        events := events + [Log(DOWNLOAD_ERROR + stream.failure.value)];
        if partPath in disk {
          disk := disk - {partPath};
        }
        assert disk == old(disk) - {partPath};
        return stream.failure;
      }
      // os.rename(part_path, download_path)
      var content := disk[partPath];
      disk := (disk - {partPath})[downloadPath := content];
      events := events + [Log(SuccessLine())];
      error := None;
    }

    function SuccessLine(): string
    {
      "Модель '" + modelSize + "' успешно загружена и проверена."
    }

    /**
     * The `while True` loop of `_download_model`: write each buffer to the
     * part file, add its length to the running total, report progress, and
     * log when the whole-megabyte count exceeds the last one logged.
     */
    method ReadToPart(totalSize: nat, chunks: seq<Bytes>) returns (n: nat)
      modifies this
      ensures n == FirstEmpty(chunks)
      ensures disk == old(disk)[PartPath(downloadPath) := Concat(chunks[..n])]
      ensures events == old(events) + DownloadEvents(chunks[..n], totalSize)
      ensures hashed == old(hashed)
    {
      var partPath := PartPath(downloadPath);
      disk := disk[partPath := []];
      var downloadedBytes: nat := 0;
      var lastLoggedMb := -1;
      n := 0;
      while n < |chunks| && chunks[n] != []
        invariant n <= |chunks|
        invariant forall i :: 0 <= i < n ==> chunks[i] != []
        invariant disk == old(disk)[partPath := Concat(chunks[..n])]
        invariant downloadedBytes == |Concat(chunks[..n])|
        invariant lastLoggedMb == if n == 0 then -1 else downloadedBytes / MB
        invariant events == old(events) + DownloadEvents(chunks[..n], totalSize)
        invariant hashed == old(hashed)
      {
        var buffer := chunks[n];
        ReadStep(chunks, n, totalSize);
        var written := disk[partPath] + buffer;
        UpdateTwice(old(disk), partPath, Concat(chunks[..n]), written);
        disk := disk[partPath := written];
        downloadedBytes := downloadedBytes + |buffer|;
        events := events + [Progress(downloadedBytes, totalSize)];
        Transcription.Assoc3(old(events), DownloadEvents(chunks[..n], totalSize), [Progress(downloadedBytes, totalSize)]);
        var currentMb := downloadedBytes / MB;
        if currentMb > lastLoggedMb {
          events := events + [Log(MbLine(currentMb, totalSize))];
          Transcription.Assoc3(old(events), DownloadEvents(chunks[..n], totalSize) + [Progress(downloadedBytes, totalSize)],
            [Log(MbLine(currentMb, totalSize))]);
          lastLoggedMb := currentMb;
        }
        n := n + 1;
      }
      assert n == FirstEmpty(chunks) by { FirstEmptyIs(chunks, n); }
    }

    /**
     * `ensure_model_is_available`: the model file's path, downloading first
     * exactly when the cached copy is missing or its hash differs.
     */
    method EnsureModelIsAvailable(stream: Stream) returns (r: Result<string, string>)
      modifies this
      ensures r.Success? ==> r.value == downloadPath && downloadPath in disk
      ensures Cached(old(disk)) ==>
        r == Success(downloadPath) && disk == old(disk) && events == old(events) + [Log(AlreadyLine())]
        && hashed == old(hashed) + 1
      ensures downloadPath in old(disk) && ExpectedHash(url).None? ==>
        r == Failure(INDEX_ERROR) && disk == old(disk) && events == old(events) && hashed == old(hashed)
      ensures NeedsDownload(old(disk)) ==>
        r == (match DownloadFailure(stream) case None => Success(downloadPath) case Some(e) => Failure(e))
        && disk == AfterDownload(old(disk) - {downloadPath}, downloadPath, stream)
        && (r.Failure? ==> downloadPath !in disk)
        && events == old(events) + (if downloadPath in old(disk) then [Log(MismatchLine())] else [])
                     + [Log(NotFoundLine())] + StreamEvents(stream) + [Log(FinalLine(stream))]
        && hashed == old(hashed) + (if downloadPath in old(disk) then 1 else 0)
      ensures r == EnsureOutcome(old(disk), stream) && disk == EnsureDisk(old(disk), stream)
      ensures events == old(events) + EnsureEvents(old(disk), stream)
      ensures hashed == old(hashed) + if downloadPath in old(disk) && ExpectedHash(url).Some? then 1 else 0
    {
      var downloaded := IsModelDownloaded();
      if downloaded.Failure? {
        return Failure(downloaded.error);
      }
      ghost var checkedEvents := events;
      if !downloaded.value {
        ghost var mismatch: seq<Event> := if downloadPath in old(disk) then [Log(MismatchLine())] else [];
        ghost var download := StreamEvents(stream) + [Log(FinalLine(stream))];
        assert checkedEvents == old(events) + mismatch;
        assert disk == old(disk) - {downloadPath};
        events := events + [Log(NotFoundLine())];
        var error := DownloadModel(stream);
        Transcription.Assoc3(checkedEvents + [Log(NotFoundLine())], StreamEvents(stream), [Log(FinalLine(stream))]);
        assert events == old(events) + mismatch + [Log(NotFoundLine())] + download;
        assert EnsureEvents(old(disk), stream) == mismatch + [Log(NotFoundLine())] + download;
        Transcription.Assoc3(old(events), mismatch, [Log(NotFoundLine())]);
        Transcription.Assoc3(old(events), mismatch + [Log(NotFoundLine())], download);
        Transcription.Assoc3(mismatch, [Log(NotFoundLine())], download);
        Transcription.Assoc3(old(events) + mismatch, [Log(NotFoundLine())], download);
        if error.Some? {
          return Failure(error.value);
        }
      } else {
        events := events + [Log(AlreadyLine())];
      }
      r := Success(downloadPath);
    }

    /** The result of `ensure_model_is_available` on the disk `d`. */
    ghost function EnsureOutcome(d: Disk, stream: Stream): Result<string, string>
    {
      if downloadPath in d && ExpectedHash(url).None? then Failure(INDEX_ERROR)
      else if Cached(d) then Success(downloadPath)
      else match DownloadFailure(stream)
        case None => Success(downloadPath)
        case Some(e) => Failure(e)
    }

    /** The calls `ensure_model_is_available` makes on the disk `d`. */
    ghost function EnsureEvents(d: Disk, stream: Stream): seq<Event>
    {
      if downloadPath in d && ExpectedHash(url).None? then []
      else if Cached(d) then [Log(AlreadyLine())]
      else
        var mismatch := if downloadPath in d then [Log(MismatchLine())] else [];
        mismatch + [Log(NotFoundLine())] + StreamEvents(stream) + [Log(FinalLine(stream))]
    }

    /** The disk after `ensure_model_is_available` on the disk `d`. */
    ghost function EnsureDisk(d: Disk, stream: Stream): Disk
    {
      if NeedsDownload(d) then AfterDownload(d - {downloadPath}, downloadPath, stream) else d
    }

    /**
     * `get_model`: make the model available, report loading it into memory,
     * and report it ready unless `whisper.load_model` raises `loadError`; the
     * path returned is the one `load_model` is given.
     */
    method GetModel(stream: Stream, loadError: Option<string>) returns (r: Result<string, string>)
      modifies this
      ensures r.Success? <==> loadError.None? && (Cached(old(disk)) || (NeedsDownload(old(disk)) && DownloadFailure(stream).None?))
      ensures r.Success? ==> r.value == downloadPath && downloadPath in disk
      ensures r == if EnsureOutcome(old(disk), stream).Failure? then EnsureOutcome(old(disk), stream)
                   else if loadError.Some? then Failure(loadError.value) else Success(downloadPath)
      ensures disk == EnsureDisk(old(disk), stream)
      ensures events == old(events) + EnsureEvents(old(disk), stream)
        + if EnsureOutcome(old(disk), stream).Success? then [Log(LoadingLine())] + LoadedEvents(loadError) else []
      ensures hashed == old(hashed) + if downloadPath in old(disk) && ExpectedHash(url).Some? then 1 else 0
    {
      r := EnsureModelIsAvailable(stream);
      if r.Success? {
        ghost var ensured := events;
        events := events + [Log(LoadingLine())];
        if loadError.Some? {
          return Failure(loadError.value);
        }
        events := events + [Log(ReadyLine())];
        Transcription.Assoc3(ensured, [Log(LoadingLine())], [Log(ReadyLine())]);
      }
    }

    /** After the loading line: the ready line, unless loading raised. */
    function LoadedEvents(loadError: Option<string>): seq<Event>
    {
      if loadError.None? then [Log(ReadyLine())] else []
    }

    function LoadingLine(): string
    {
      "Загрузка модели '" + modelSize + "' в память..."
    }

    function ReadyLine(): string
    {
      "Модель '" + modelSize + "' готова к работе."
    }

    function NotFoundLine(): string
    {
      "Модель '" + modelSize + "' не найдена. Начинаю загрузку..."
    }

    function AlreadyLine(): string
    {
      "Модель '" + modelSize + "' уже загружена."
    }
  }

  /** The loop stops where the reads first come back empty. */
  lemma {:induction false} FirstEmptyIs(chunks: seq<Bytes>, n: nat)
    requires n <= |chunks| && (n < |chunks| ==> chunks[n] == [])
    requires forall i :: 0 <= i < n ==> chunks[i] != []
    ensures FirstEmpty(chunks) == n
  {
    if n > 0 {
      FirstEmptyIs(chunks[1..], n - 1);
    }
  }
}
