/**
 * The GUI controller (`TranscriptionController` in
 * app/controllers/transcription_controller.py): the `is_running` guard
 * around the user's actions, the choice of source, the message protocol of
 * the background worker and the saving of the last result.
 *
 * There are no threads here: the worker runs when its method is called, and
 * the answers of the file dialogs, the adapters, the cleanup calls and the
 * transcription step are parameters.
 */
module Controller {
  import opened Wrappers
  import opened Strings
  import opened Models
  import opened Whisper
  import opened Arith
  import Transcription
  import Export

  // ---------------------------------------------------------------------
  // Messages

  /** `QueueMessage`: every field optional, `is_done` false unless given. */
  datatype QueueMessage = QueueMessage(
    status: Option<string>,
    progress: Option<real>,
    resultText: Option<string>,
    isDone: bool)

  /** `_log_to_queue(message)`. */
  function Status(message: string): QueueMessage
  {
    QueueMessage(Some(message), None, None, false)
  }

  const DONE: QueueMessage := QueueMessage(None, None, None, true)

  const NO_SOURCE: string := "Ошибка: Укажите источник (файл или URL)"
  const CANCELLING: string := "Отмена операции..."
  const NOTHING_TO_SAVE: string := "Нечего сохранять."
  const SRT_NEEDS_TIMESTAMPS: string :=
    "Для сохранения в формате .srt необходимо выполнить транскрибацию с включенной опцией 'Включить таймстемпы'."
  const DOWNLOADING: string := "Загрузка с YouTube..."
  const PROCESSING_LOCAL: string := "Обработка локального файла..."
  const CLEANUP_FAILED: string := "Не удалось очистить временные файлы "
  const KNOWN_ERROR: string := "Ошибка: "
  const CRITICAL_ERROR: string := "Критическая ошибка: "
  const NO_PROCESSED_PATH: string := "Не удалось обработать исходный файл или URL."
  const SAVED: string := "Файл успешно сохранен: "
  const YOUTUBE_SLOT: string := "youtube"
  const LOCAL_SLOT: string := "local"
  const READY: string := "Готово!"
  const CANCELLED_RESULT: string := "Операция была отменена пользователем."
  const TRANSLATE_CHOICE: string := "Перевод"

  // ---------------------------------------------------------------------
  // The worker's environment

  /** The exceptions the worker tells apart. */
  datatype ErrorKind = FFmpegNotFound | IOError | OtherError

  datatype Exception = Exception(kind: ErrorKind, message: string)

  /** `"Ошибка: {e}"` for the two known errors, `"Критическая ошибка: {e}"` for any other. */
  function ErrorStatus(e: Exception): (m: QueueMessage)
    ensures m.status.Some? && !m.isDone
  {
    if e.kind == OtherError then Status(CRITICAL_ERROR + e.message) else Status(KNOWN_ERROR + e.message)
  }

  /** What an adapter's `cleanup` does: the lines it logs, and the exception it raises, if any. */
  datatype Cleanup = Cleaned(log: seq<string>) | CleanupRaised(log: seq<string>, error: string)

  /**
   * What `_process_source` meets: the adapter's constructor raises (so no
   * adapter is registered for cleanup), or the adapter logs some lines and
   * returns a path (`""` when it returns nothing) or raises.
   */
  datatype AdapterRun =
    | ConstructionFailed(error: Exception)
    | Ran(log: seq<string>, path: Result<string, Exception>, cleanup: Cleanup)

  /** What `_execute_transcription` does: the messages it enqueues, then its result or exception. */
  datatype TranscriptionRun = TranscriptionRun(messages: seq<QueueMessage>, result: Result<Export.ResultData, Exception>)

  /**
   * Everything outside the worker: the adapter, the transcription step, and
   * what `cancel_event.is_set()` answers before and after the transcription.
   */
  datatype WorkerEnv = WorkerEnv(
    adapter: AdapterRun,
    cancelledBeforeTranscription: bool,
    transcription: TranscriptionRun,
    cancelledAfterTranscription: bool)

  /** The worker's parameters (`params`); the cancel event is in the environment. */
  datatype Params = Params(source: string, isYoutube: bool, modelSize: ModelSize, task: TranscriptionTask)

  /** What `start_transcription` ends with. */
  datatype StartOutcome =
    | Ignored                  // a task is already running
    | NoSource                 // both entries are empty
    | Launched(params: Params) // the worker thread is started with these parameters
    | StartRaised(message: string) // `ModelSize(...)` raised ValueError after the state was set

  /** What `save_result` ends with besides its queue messages. */
  datatype SaveOutcome =
    | NotSaved                      // nothing to save, or the dialog was cancelled
    | ShowedError(message: string)  // the SubRip refusal, shown in a message box
    | SaveRaised(message: string)   // `OutputFormat(...)` raised ValueError
    | Exported(outcome: Export.Outcome)

  // ---------------------------------------------------------------------
  // What the worker enqueues

  /** One adapter slot of `_cleanup_resources`: its name and the adapter, if one was registered. */
  datatype AdapterSlot = AdapterSlot(name: string, instance: Option<Cleanup>)

  /** The messages of `_cleanup_resources` over the slots, in order. */
  function CleanupMessages(slots: seq<AdapterSlot>): seq<QueueMessage>
  {
    if slots == [] then []
    else CleanupMessages(slots[..|slots| - 1]) + SlotMessages(slots[|slots| - 1])
  }

  function SlotMessages(slot: AdapterSlot): seq<QueueMessage>
  {
    match slot.instance
    case None => []
    case Some(Cleaned(log)) => Logged(log)
    case Some(CleanupRaised(log, e)) => Logged(log) + [Status(CLEANUP_FAILED + slot.name + ": " + e)]
  }

  /** Lines logged through `log_callback`, one status each. */
  function Logged(lines: seq<string>): (ms: seq<QueueMessage>)
    ensures |ms| == |lines|
    ensures forall i :: 0 <= i < |ms| ==> ms[i] == Status(lines[i])
  {
    seq(|lines|, i requires 0 <= i < |lines| => Status(lines[i]))
  }

  /** The dictionary `{"youtube": ..., "local": ...}` after `_process_source`. */
  function Slots(params: Params, adapter: AdapterRun): seq<AdapterSlot>
  {
    var registered := if adapter.Ran? then Some(adapter.cleanup) else None;
    [AdapterSlot(YOUTUBE_SLOT, if params.isYoutube then registered else None),
     AdapterSlot(LOCAL_SLOT, if params.isYoutube then None else registered)]
  }

  /** The exception the `try` block ends with, if any. */
  function WorkerError(env: WorkerEnv): Option<Exception>
  {
    match env.adapter
    case ConstructionFailed(e) => Some(e)
    case Ran(_, Failure(e), _) => Some(e)
    case Ran(_, Success(path), _) =>
      if path == "" then Some(Exception(IOError, NO_PROCESSED_PATH))
      else if env.cancelledBeforeTranscription then None
      else if env.transcription.result.Failure? then Some(env.transcription.result.error)
      else None
  }

  /** Whether the transcription step is reached: a path came back and no cancellation came first. */
  predicate ReachesTranscription(env: WorkerEnv)
  {
    env.adapter.Ran? && env.adapter.path.Success? && env.adapter.path.value != ""
    && !env.cancelledBeforeTranscription
  }

  /** The messages the `try` block enqueues before it ends or raises. */
  function TryMessages(params: Params, env: WorkerEnv, timestampsEnabled: bool): seq<QueueMessage>
  {
    [Status(if params.isYoutube then DOWNLOADING else PROCESSING_LOCAL)]
    + match env.adapter
      case ConstructionFailed(_) => []
      case Ran(log, path, _) =>
        Logged(log)
        + if ReachesTranscription(env)
          then TranscriptionMessages(env.transcription, env.cancelledAfterTranscription, timestampsEnabled)
          else []
  }

  /**
   * The messages of `_execute_transcription`, then "Готово!" with the
   * formatted result, or with the cancellation notice when the event was set
   * meanwhile.
   */
  function TranscriptionMessages(run: TranscriptionRun, cancelled: bool, timestampsEnabled: bool): seq<QueueMessage>
  {
    run.messages
    + match run.result
      case Failure(_) => []
      case Success(data) =>
        [QueueMessage(Some(READY), Some(1.0), Some(if cancelled then CANCELLED_RESULT else GuiText(data, timestampsEnabled)), false)]
  }

  /** The status of the exception the `try` block ended with, if any. */
  function ErrorMessages(error: Option<Exception>): seq<QueueMessage>
  {
    match error
    case Some(e) => [ErrorStatus(e)]
    case None => []
  }

  lemma Assoc4<T>(a: seq<T>, b: seq<T>, c: seq<T>, d: seq<T>, e: seq<T>)
    ensures a + b + c + d + e == a + (b + c + d + e)
  {
  }

  /** Everything `_transcription_worker` enqueues: the try block, its error, the cleanup, then `is_done`. */
  function WorkerMessages(params: Params, env: WorkerEnv, timestampsEnabled: bool): (ms: seq<QueueMessage>)
    ensures ms != [] && ms[|ms| - 1] == DONE
  {
    TryMessages(params, env, timestampsEnabled)
    + ErrorMessages(WorkerError(env))
    + CleanupMessages(Slots(params, env.adapter))
    + [DONE]
  }

  /** `_format_result_for_gui`: the raw text, or one time-stamped line per segment joined by newlines. */
  function GuiText(result: Export.ResultData, timestampsEnabled: bool): (text: string)
    ensures timestampsEnabled && result.segments == [] ==> text == ""
    ensures !timestampsEnabled ==> text == result.text
  {
    if timestampsEnabled then Join(Transcription.SegmentLines(result.segments), "\n") else result.text
  }

  // ---------------------------------------------------------------------
  // Progress logging inside the transcription step

  /** `processed_chunks % 5 == 0 or processed_chunks == total_chunks`. */
  predicate ShouldLogProgress(processed: nat, total: nat): (logged: bool)
    ensures processed == total ==> logged
    ensures 0 < processed < 5 && processed != total ==> !logged
  {
    processed % 5 == 0 || processed == total
  }

  /**
   * `transcription_progress_callback`: for a known chunk count, a progress
   * fraction between 0.35 and 1, and on logged calls a "Транскрибация... (p/t)"
   * status. Exact rationals stand for Python's floats.
   */
  function ProgressMessages(processed: nat, total: nat): (ms: seq<QueueMessage>)
    ensures NoneDone(ms) && NoResultText(ms)
    ensures total == 0 ==> ms == []
    ensures total > 0 ==> |ms| == (if ShouldLogProgress(processed, total) then 2 else 1)
    ensures total > 0 && processed <= total ==> ms[0].progress.Some? && 0.35 <= ms[0].progress.value <= 1.0
  {
    if total == 0 then []
    else
      var fraction := processed as real / total as real;
      assert processed <= total ==> fraction <= 1.0 by {
        if processed <= total { assert fraction * (total as real) == processed as real; }
      }
      [QueueMessage(None, Some(0.35 + fraction * 0.65), None, false)]
      + if ShouldLogProgress(processed, total)
        then [Status("Транскрибация... (" + NatToDecimal(processed) + "/" + NatToDecimal(total) + ")")]
        else []
  }

  /** How many of the calls for chunks 1..n are logged. */
  function LoggedCalls(n: nat, total: nat): nat
  {
    if n == 0 then 0 else LoggedCalls(n - 1, total) + (if ShouldLogProgress(n, total) then 1 else 0)
  }

  /** Over a whole run of `total` chunks, every fifth call and the last one are logged: ceil(total / 5) lines. */
  lemma {:induction false} LoggedCallsOverRun(total: nat)
    ensures LoggedCalls(total, total) == (total + 4) / 5
  {
    if total > 0 {
      LoggedMultiples(total - 1, total);
      DivShift(total + 4, 5);
    }
  }

  /** Below the last chunk only the multiples of five are logged. */
  lemma {:induction false} LoggedMultiples(n: nat, total: nat)
    requires n < total
    ensures LoggedCalls(n, total) == n / 5
  {
    if n > 0 {
      LoggedMultiples(n - 1, total);
      var q, r := (n - 1) / 5, (n - 1) % 5;
      if r == 4 {
        DivModUnique(n, 5, q + 1, 0);
      } else {
        DivModUnique(n, 5, q, r + 1);
      }
    }
  }

  // ---------------------------------------------------------------------
  // The view and the controller

  /** The widgets the controller reads and writes. */
  class View {
    var fileEntry: string
    var youtubeEntry: string
    var timestampsChecked: bool
    var taskChoice: string
    var modelChoice: string
    var formatChoice: string

    constructor (fileEntry: string, youtubeEntry: string, timestampsChecked: bool,
                 taskChoice: string, modelChoice: string, formatChoice: string)
      ensures this.fileEntry == fileEntry && this.youtubeEntry == youtubeEntry
      ensures this.timestampsChecked == timestampsChecked && this.taskChoice == taskChoice
      ensures this.modelChoice == modelChoice && this.formatChoice == formatChoice
    {
      this.fileEntry := fileEntry;
      this.youtubeEntry := youtubeEntry;
      this.timestampsChecked := timestampsChecked;
      this.taskChoice := taskChoice;
      this.modelChoice := modelChoice;
      this.formatChoice := formatChoice;
    }
  }

  class TranscriptionController {
    const view: View
    var taskQueue: seq<QueueMessage>
    var isRunning: bool
    var lastResult: Option<Export.ResultData>
    var lastTimestampsEnabled: bool
    /** `cancel_event`: absent, or an event that is set or not. */
    var cancelEvent: Option<bool>

    constructor (view: View)
      ensures this.view == view && taskQueue == [] && !isRunning
      ensures lastResult == None && !lastTimestampsEnabled && cancelEvent == None
    {
      this.view := view;
      taskQueue := [];
      isRunning := false;
      lastResult := None;
      lastTimestampsEnabled := false;
      cancelEvent := None;
    }

    method LogToQueue(message: string)
      modifies this
      ensures taskQueue == old(taskQueue) + [Status(message)] && QueueOnly()
    {
      taskQueue := taskQueue + [Status(message)];
    }

    /** `select_file`, with the path the open dialog returns (`""` when cancelled). */
    method SelectFile(chosen: string)
      modifies view
      ensures old(isRunning) || chosen == "" ==> unchanged(view)
      ensures !old(isRunning) && chosen != "" ==>
        view.fileEntry == chosen && view.youtubeEntry == "" && Untouched(view)
    {
      if isRunning {
        return;
      }
      HandleSourcePath(chosen);
    }

    twostate predicate Untouched(v: View)
      reads v
    {
      v.timestampsChecked == old(v.timestampsChecked) && v.taskChoice == old(v.taskChoice)
      && v.modelChoice == old(v.modelChoice) && v.formatChoice == old(v.formatChoice)
    }

    /** `handle_source_path`: a non-empty path replaces the file entry and clears the URL entry. */
    method HandleSourcePath(path: string)
      modifies view
      ensures path == "" || isRunning ==> unchanged(view)
      ensures path != "" && !isRunning ==>
        view.fileEntry == path && view.youtubeEntry == "" && Untouched(view)
    {
      if path == "" || isRunning {
        return;
      }
      view.fileEntry := path;
      view.youtubeEntry := "";
    }

    /** `on_youtube_entry_change`: typing a URL clears the file entry. */
    method OnYoutubeEntryChange()
      modifies view
      ensures isRunning || old(view.youtubeEntry) == "" ==> unchanged(view)
      ensures !isRunning && old(view.youtubeEntry) != "" ==>
        view.fileEntry == "" && view.youtubeEntry == old(view.youtubeEntry) && Untouched(view)
    {
      if isRunning {
        return;
      }
      if view.youtubeEntry != "" {
        view.fileEntry := "";
      }
    }

    /**
     * `start_transcription`. The file entry wins over the URL entry; the task
     * is a translation exactly when "Перевод" is selected; an unknown model
     * size raises after the controller has already been marked running.
     */
    method StartTranscription() returns (r: StartOutcome)
      modifies this
      ensures old(isRunning) ==> r == Ignored && unchanged(this)
      ensures !old(isRunning) && view.fileEntry == "" && view.youtubeEntry == "" ==>
        r == NoSource && taskQueue == old(taskQueue) + [Status(NO_SOURCE), DONE]
        && !isRunning && lastResult == old(lastResult) && cancelEvent == old(cancelEvent)
        && lastTimestampsEnabled == old(lastTimestampsEnabled)
      ensures !old(isRunning) && (view.fileEntry != "" || view.youtubeEntry != "") ==>
        isRunning && lastResult == None && cancelEvent == Some(false)
        && lastTimestampsEnabled == view.timestampsChecked && taskQueue == old(taskQueue)
        && r == match ParseModelSize(view.modelChoice)
                case Success(m) => Launched(Params(
                  if view.fileEntry != "" then view.fileEntry else view.youtubeEntry,
                  view.youtubeEntry != "",
                  m,
                  if view.taskChoice == TRANSLATE_CHOICE then Translate else Transcribe))
                case Failure(e) => StartRaised(e)
    {
      if isRunning {
        return Ignored;
      }
      var sourceFile := view.fileEntry;
      var sourceUrl := view.youtubeEntry;
      if sourceFile == "" && sourceUrl == "" {
        LogToQueue(NO_SOURCE);
        taskQueue := taskQueue + [DONE];
        return NoSource;
      }
      isRunning := true;
      lastResult := None;
      cancelEvent := Some(false);
      lastTimestampsEnabled := view.timestampsChecked;
      var task := if view.taskChoice == TRANSLATE_CHOICE then Translate else Transcribe;
      var modelSize := ParseModelSize(view.modelChoice);
      if modelSize.Failure? {
        return StartRaised(modelSize.error);
      }
      var source := if sourceFile != "" then sourceFile else sourceUrl;
      r := Launched(Params(source, sourceUrl != "", modelSize.value, task));
    }

    /** `cancel_transcription`: only while an event exists, announce and set it. */
    method CancelTranscription()
      modifies this
      ensures old(cancelEvent).None? ==> unchanged(this)
      ensures old(cancelEvent).Some? ==>
        taskQueue == old(taskQueue) + [Status(CANCELLING)] && cancelEvent == Some(true)
        && isRunning == old(isRunning) && lastResult == old(lastResult)
        && lastTimestampsEnabled == old(lastTimestampsEnabled)
    {
      if cancelEvent.Some? {
        LogToQueue(CANCELLING);
        cancelEvent := Some(true);
      }
    }

    /**
     * `save_result`, with the path the save dialog returns (`""` when
     * cancelled) and what the file system does on writing.
     */
    method SaveResult(chosen: string, docxAvailable: bool, writeError: Option<string>) returns (r: SaveOutcome)
      modifies this
      ensures isRunning == old(isRunning) && lastResult == old(lastResult)
      ensures lastTimestampsEnabled == old(lastTimestampsEnabled) && cancelEvent == old(cancelEvent)
      ensures lastResult.None? || lastResult.value.text == "" ==>
        r == NotSaved && taskQueue == old(taskQueue) + [Status(NOTHING_TO_SAVE)]
      ensures lastResult.Some? && lastResult.value.text != "" ==>
        match ParseOutputFormat(view.formatChoice)
        case Failure(e) => r == SaveRaised(e) && taskQueue == old(taskQueue)
        case Success(f) =>
          if f == Srt && !lastTimestampsEnabled then r == ShowedError(SRT_NEEDS_TIMESTAMPS) && taskQueue == old(taskQueue)
          else if chosen == "" then r == NotSaved && taskQueue == old(taskQueue)
          else r.Exported? && r.outcome == Export.ExportOutcome(Export.ExporterFor(f), lastResult.value, docxAvailable, writeError)
               && taskQueue == old(taskQueue) + [Status(SaveStatus(r.outcome, chosen))]
    {
      if lastResult.None? || lastResult.value.text == "" {
        LogToQueue(NOTHING_TO_SAVE);
        return NotSaved;
      }
      var outputFormat := ParseOutputFormat(view.formatChoice);
      if outputFormat.Failure? {
        return SaveRaised(outputFormat.error);
      }
      if outputFormat.value == Srt && !lastTimestampsEnabled {
        return ShowedError(SRT_NEEDS_TIMESTAMPS);
      }
      if chosen == "" {
        return NotSaved;
      }
      var exporter := Export.GetExporter(outputFormat.value.Value());
      Export.GetExporterOfFormat(outputFormat.value, outputFormat.value);
      var outcome := Export.Export(exporter.value, lastResult.value, docxAvailable, writeError);
      r := Exported(outcome);
      if outcome.Raises? {
        LogToQueue(Export.SAVE_ERROR_PREFIX + outcome.message);
      } else {
        LogToQueue(SAVED + chosen);
      }
    }

    /** Only the queue may have changed. */
    twostate predicate QueueOnly()
      reads this
    {
      isRunning == old(isRunning) && lastResult == old(lastResult)
      && lastTimestampsEnabled == old(lastTimestampsEnabled) && cancelEvent == old(cancelEvent)
    }

    /**
     * `_transcription_worker`. Whatever happens, the last message is
     * `is_done`, the controller is no longer running and the cancel event is
     * dropped; the result is kept only when the transcription step returned one.
     */
    method TranscriptionWorker(params: Params, env: WorkerEnv)
      modifies this
      ensures taskQueue == old(taskQueue) + WorkerMessages(params, env, old(lastTimestampsEnabled))
      ensures !isRunning && cancelEvent == None
      ensures lastTimestampsEnabled == old(lastTimestampsEnabled)
      ensures lastResult == if ReachesTranscription(env) && env.transcription.result.Success?
                            then Some(env.transcription.result.value) else old(lastResult)
    {
      ghost var start := taskQueue;
      var error, registered := ProcessAndTranscribe(params, env);
      ghost var t := TryMessages(params, env, lastTimestampsEnabled);
      ghost var afterTry := taskQueue;
      if error.Some? {
        taskQueue := taskQueue + [ErrorStatus(error.value)];
      }
      ghost var afterError := taskQueue;
      assert afterError == afterTry + ErrorMessages(error);
      // finally
      var slots := [AdapterSlot(YOUTUBE_SLOT, if params.isYoutube then registered else None),
                    AdapterSlot(LOCAL_SLOT, if params.isYoutube then None else registered)];
      CleanupResources(slots);
      ghost var c := CleanupMessages(slots);
      taskQueue := taskQueue + [DONE];
      Assoc4(start, t, ErrorMessages(error), c, [DONE]);
      isRunning := false;
      cancelEvent := None;
    }

    /**
     * The `try` block of the worker: `_process_source`, the checks for a
     * path and for cancellation, and `_execute_transcription`. Returns the
     * exception the block ends with and the adapter it registered.
     */
    method ProcessAndTranscribe(params: Params, env: WorkerEnv) returns (error: Option<Exception>, registered: Option<Cleanup>)
      modifies this
      ensures taskQueue == old(taskQueue) + TryMessages(params, env, lastTimestampsEnabled)
      ensures error == WorkerError(env)
      ensures registered == if env.adapter.Ran? then Some(env.adapter.cleanup) else None
      ensures lastResult == if ReachesTranscription(env) && env.transcription.result.Success?
                            then Some(env.transcription.result.value) else old(lastResult)
      ensures isRunning == old(isRunning) && lastTimestampsEnabled == old(lastTimestampsEnabled)
      ensures cancelEvent == old(cancelEvent)
    {
      if params.isYoutube {
        LogToQueue(DOWNLOADING);
      } else {
        LogToQueue(PROCESSING_LOCAL);
      }
      match env.adapter {
        case ConstructionFailed(e) =>
          error, registered := Some(e), None;
        case Ran(log, path, cleanup) =>
          registered := Some(cleanup);
          ghost var started := taskQueue;
          ghost var status := [Status(if params.isYoutube then DOWNLOADING else PROCESSING_LOCAL)];
          assert started == old(taskQueue) + status;
          LogLines(log);
          error := CheckAndTranscribe(env);
          ghost var rest :=
            if ReachesTranscription(env)
            then TranscriptionMessages(env.transcription, env.cancelledAfterTranscription, lastTimestampsEnabled)
            else [];
          assert TryMessages(params, env, lastTimestampsEnabled) == status + (Logged(log) + rest);
          Transcription.Assoc3(old(taskQueue) + status, Logged(log), rest);
          Transcription.Assoc3(old(taskQueue), status, Logged(log) + rest);
      }
    }

    /** What follows a registered adapter's `process`: the path check, the first cancel check, the transcription. */
    method CheckAndTranscribe(env: WorkerEnv) returns (error: Option<Exception>)
      requires env.adapter.Ran?
      modifies this
      ensures taskQueue == old(taskQueue)
        + if ReachesTranscription(env)
          then TranscriptionMessages(env.transcription, env.cancelledAfterTranscription, lastTimestampsEnabled)
          else []
      ensures error == WorkerError(env)
      ensures lastResult == if ReachesTranscription(env) && env.transcription.result.Success?
                            then Some(env.transcription.result.value) else old(lastResult)
      ensures isRunning == old(isRunning) && lastTimestampsEnabled == old(lastTimestampsEnabled)
      ensures cancelEvent == old(cancelEvent)
    {
      var path := env.adapter.path;
      if path.Failure? {
        return Some(path.error);
      }
      if path.value == "" {
        return Some(Exception(IOError, NO_PROCESSED_PATH));
      }
      if env.cancelledBeforeTranscription {
        return None;
      }
      error := ExecuteTranscription(env.transcription, env.cancelledAfterTranscription);
    }

    /**
     * `_execute_transcription` and what follows it: keep the result, then
     * send "Готово!" with the formatted text, or the cancellation notice when
     * the event was set meanwhile.
     */
    method ExecuteTranscription(run: TranscriptionRun, cancelled: bool) returns (error: Option<Exception>)
      modifies this
      ensures taskQueue == old(taskQueue) + TranscriptionMessages(run, cancelled, lastTimestampsEnabled)
      ensures error == if run.result.Failure? then Some(run.result.error) else None
      ensures lastResult == if run.result.Success? then Some(run.result.value) else old(lastResult)
      ensures isRunning == old(isRunning) && lastTimestampsEnabled == old(lastTimestampsEnabled)
      ensures cancelEvent == old(cancelEvent)
    {
      taskQueue := taskQueue + run.messages;
      if run.result.Failure? {
        return Some(run.result.error);
      }
      lastResult := Some(run.result.value);
      var resultText: string;
      if cancelled {
        resultText := CANCELLED_RESULT;
      } else {
        resultText := FormatResultForGui(run.result.value);
      }
      taskQueue := taskQueue + [QueueMessage(Some(READY), Some(1.0), Some(resultText), false)];
      error := None;
    }

    /** The `log_callback` of an adapter: each line becomes a status. */
    method LogLines(lines: seq<string>)
      modifies this
      ensures taskQueue == old(taskQueue) + Logged(lines) && QueueOnly()
    {
      var i := 0;
      while i < |lines|
        invariant 0 <= i <= |lines|
        invariant taskQueue == old(taskQueue) + Logged(lines[..i]) && QueueOnly()
      {
        LogToQueue(lines[i]);
        assert Logged(lines[..i + 1]) == Logged(lines[..i]) + [Status(lines[i])];
        i := i + 1;
      }
      assert lines[..i] == lines;
    }

    /** `_cleanup_resources`: clean each registered adapter; a failing cleanup is logged, not raised. */
    method CleanupResources(slots: seq<AdapterSlot>)
      modifies this
      ensures taskQueue == old(taskQueue) + CleanupMessages(slots) && QueueOnly()
    {
      var i := 0;
      while i < |slots|
        invariant 0 <= i <= |slots|
        invariant taskQueue == old(taskQueue) + CleanupMessages(slots[..i]) && QueueOnly()
      {
        CleanupAdapter(slots[i]);
        assert slots[..i + 1][..i] == slots[..i];
        Transcription.Assoc3(old(taskQueue), CleanupMessages(slots[..i]), SlotMessages(slots[i]));
        i := i + 1;
      }
      assert slots[..i] == slots;
    }

    /** One adapter of `_cleanup_resources`. */
    method CleanupAdapter(slot: AdapterSlot)
      modifies this
      ensures taskQueue == old(taskQueue) + SlotMessages(slot) && QueueOnly()
    {
      match slot.instance {
        case None =>
        case Some(cleanup) =>
          LogLines(cleanup.log);
          if cleanup.CleanupRaised? {
            LogToQueue(CLEANUP_FAILED + slot.name + ": " + cleanup.error);
          }
      }
    }

    /** `_format_result_for_gui`, for the time-stamp setting of the last start. */
    method FormatResultForGui(result: Export.ResultData) returns (text: string)
      ensures text == GuiText(result, lastTimestampsEnabled)
    {
      if !lastTimestampsEnabled {
        return result.text;
      }
      var textParts := Transcription.AppendSegmentLines([], result.segments);
      assert textParts == Transcription.SegmentLines(result.segments);
      text := Join(textParts, "\n");
    }
  }

  /** The status `save_result` logs after exporting: an error only when the exporter raised. */
  function SaveStatus(outcome: Export.Outcome, path: string): string
  {
    if outcome.Raises? then Export.SAVE_ERROR_PREFIX + outcome.message else SAVED + path
  }

  // ---------------------------------------------------------------------
  // Properties of the worker's message protocol

  predicate NoneDone(ms: seq<QueueMessage>)
  {
    forall i :: 0 <= i < |ms| ==> !ms[i].isDone
  }

  predicate NoResultText(ms: seq<QueueMessage>)
  {
    forall i :: 0 <= i < |ms| ==> ms[i].resultText.None?
  }

  /** Cleanup only logs statuses: no `is_done`, no result text. */
  lemma {:induction false} CleanupMessagesAreStatuses(slots: seq<AdapterSlot>)
    ensures NoneDone(CleanupMessages(slots)) && NoResultText(CleanupMessages(slots))
    ensures forall i :: 0 <= i < |CleanupMessages(slots)| ==> CleanupMessages(slots)[i].status.Some?
  {
    if slots != [] {
      CleanupMessagesAreStatuses(slots[..|slots| - 1]);
    }
  }

  /**
   * Whatever the adapter, the cancellation and the transcription do, the
   * worker's last message is `is_done` and it is the only one (the
   * transcription step itself never sends `is_done`).
   */
  lemma WorkerEndsWithDone(params: Params, env: WorkerEnv, timestampsEnabled: bool)
    requires NoneDone(env.transcription.messages)
    ensures var ms := WorkerMessages(params, env, timestampsEnabled);
      |ms| > 0 && ms[|ms| - 1] == DONE && NoneDone(ms[..|ms| - 1])
  {
    var ms := WorkerMessages(params, env, timestampsEnabled);
    var t, e, c := TryMessages(params, env, timestampsEnabled), ErrorMessages(WorkerError(env)),
      CleanupMessages(Slots(params, env.adapter));
    CleanupMessagesAreStatuses(Slots(params, env.adapter));
    TryNoneDone(params, env, timestampsEnabled);
    NoneDoneAppend(t, e);
    NoneDoneAppend(t + e, c);
    var body := t + e + c;
    assert ms == body + [DONE];
    assert ms[..|ms| - 1] == body;
  }

  lemma NoneDoneAppend(a: seq<QueueMessage>, b: seq<QueueMessage>)
    requires NoneDone(a) && NoneDone(b)
    ensures NoneDone(a + b)
  {
  }

  lemma TranscriptionNoneDone(run: TranscriptionRun, cancelled: bool, timestampsEnabled: bool)
    requires NoneDone(run.messages)
    ensures NoneDone(TranscriptionMessages(run, cancelled, timestampsEnabled))
  {
    var m := TranscriptionMessages(run, cancelled, timestampsEnabled);
    if run.result.Success? {
      var ready := m[|m| - 1];
      assert m == run.messages + [ready];
      NoneDoneAppend(run.messages, [ready]);
    } else {
      assert m == run.messages;
    }
  }

  /** The `try` block itself never enqueues `is_done`. */
  lemma TryNoneDone(params: Params, env: WorkerEnv, timestampsEnabled: bool)
    requires NoneDone(env.transcription.messages)
    ensures NoneDone(TryMessages(params, env, timestampsEnabled))
  {
    var head := [Status(if params.isYoutube then DOWNLOADING else PROCESSING_LOCAL)];
    match env.adapter
    case ConstructionFailed(_) =>
      assert TryMessages(params, env, timestampsEnabled) == head;
    case Ran(log, _, _) =>
      var pre := head + Logged(log);
      assert NoneDone(pre);
      if ReachesTranscription(env) {
        var m := TranscriptionMessages(env.transcription, env.cancelledAfterTranscription, timestampsEnabled);
        assert TryMessages(params, env, timestampsEnabled) == pre + m;
        TranscriptionNoneDone(env.transcription, env.cancelledAfterTranscription, timestampsEnabled);
        NoneDoneAppend(pre, m);
      } else {
        assert TryMessages(params, env, timestampsEnabled) == pre;
      }
  }

  /**
   * A result text is sent exactly when the transcription step is reached and
   * returns (the step's own progress messages carry none); it is then the
   * cancellation notice if the event was set meanwhile, and the formatted
   * result otherwise, and no error is reported.
   */
  lemma WorkerSendsResultExactlyWhenTranscribed(params: Params, env: WorkerEnv, timestampsEnabled: bool)
    requires NoResultText(env.transcription.messages)
    ensures !NoResultText(WorkerMessages(params, env, timestampsEnabled))
      <==> ReachesTranscription(env) && env.transcription.result.Success?
    ensures ReachesTranscription(env) && env.transcription.result.Success? ==>
      WorkerError(env) == None
      && ReadyMessage(env, timestampsEnabled) in WorkerMessages(params, env, timestampsEnabled)
  {
    var ms := WorkerMessages(params, env, timestampsEnabled);
    var t := TryMessages(params, env, timestampsEnabled);
    var rest := ErrorMessages(WorkerError(env)) + CleanupMessages(Slots(params, env.adapter)) + [DONE];
    CleanupMessagesAreStatuses(Slots(params, env.adapter));
    assert ms == t + rest;
    TryResultText(params, env, timestampsEnabled);
    if ReachesTranscription(env) && env.transcription.result.Success? {
      assert ms[|t| - 1] == t[|t| - 1];
    } else {
      NoResultTextAppend(ErrorMessages(WorkerError(env)), CleanupMessages(Slots(params, env.adapter)));
      NoResultTextAppend(ErrorMessages(WorkerError(env)) + CleanupMessages(Slots(params, env.adapter)), [DONE]);
      NoResultTextAppend(t, rest);
    }
  }

  lemma NoResultTextAppend(a: seq<QueueMessage>, b: seq<QueueMessage>)
    requires NoResultText(a) && NoResultText(b)
    ensures NoResultText(a + b)
  {
  }

  /** The "Готово!" message of a run whose transcription step returned. */
  function ReadyMessage(env: WorkerEnv, timestampsEnabled: bool): QueueMessage
    requires env.transcription.result.Success?
  {
    QueueMessage(Some(READY), Some(1.0),
                 Some(if env.cancelledAfterTranscription then CANCELLED_RESULT
                      else GuiText(env.transcription.result.value, timestampsEnabled)),
                 false)
  }

  lemma TryResultText(params: Params, env: WorkerEnv, timestampsEnabled: bool)
    requires NoResultText(env.transcription.messages)
    ensures var t := TryMessages(params, env, timestampsEnabled);
      if ReachesTranscription(env) && env.transcription.result.Success?
      then |t| > 0 && t[|t| - 1] == ReadyMessage(env, timestampsEnabled)
      else NoResultText(t)
  {
    var head := [Status(if params.isYoutube then DOWNLOADING else PROCESSING_LOCAL)];
    match env.adapter
    case ConstructionFailed(_) =>
      assert TryMessages(params, env, timestampsEnabled) == head;
    case Ran(log, _, _) =>
      var pre := head + Logged(log);
      assert NoResultText(pre);
      if ReachesTranscription(env) {
        assert TryMessages(params, env, timestampsEnabled)
          == pre + TranscriptionMessages(env.transcription, env.cancelledAfterTranscription, timestampsEnabled);
        ReachedResultText(pre, env, timestampsEnabled);
      } else {
        assert TryMessages(params, env, timestampsEnabled) == pre;
      }
  }

  /** After result-free messages, the transcription step adds a result only as its last message, "Готово!". */
  lemma ReachedResultText(pre: seq<QueueMessage>, env: WorkerEnv, timestampsEnabled: bool)
    requires NoResultText(pre) && NoResultText(env.transcription.messages)
    ensures var t := pre + TranscriptionMessages(env.transcription, env.cancelledAfterTranscription, timestampsEnabled);
      if env.transcription.result.Success?
      then |t| > 0 && t[|t| - 1] == ReadyMessage(env, timestampsEnabled)
      else NoResultText(t)
  {
    var run := env.transcription;
    NoResultTextAppend(pre, run.messages);
    if run.result.Success? {
      assert TranscriptionMessages(run, env.cancelledAfterTranscription, timestampsEnabled)
        == run.messages + [ReadyMessage(env, timestampsEnabled)];
      Transcription.Assoc3(pre, run.messages, [ReadyMessage(env, timestampsEnabled)]);
    } else {
      assert TranscriptionMessages(run, env.cancelledAfterTranscription, timestampsEnabled) == run.messages;
    }
  }

  /**
   * Cancelled before the transcription: no result and no error, only the
   * source status, the adapter's lines, the cleanup and `is_done`.
   */
  lemma WorkerCancelledBeforeTranscription(params: Params, env: WorkerEnv, timestampsEnabled: bool)
    requires env.adapter.Ran? && env.adapter.path.Success? && env.adapter.path.value != ""
    requires env.cancelledBeforeTranscription
    ensures WorkerError(env) == None
    ensures WorkerMessages(params, env, timestampsEnabled)
      == [Status(if params.isYoutube then DOWNLOADING else PROCESSING_LOCAL)] + Logged(env.adapter.log)
         + CleanupMessages(Slots(params, env.adapter)) + [DONE]
  {
  }

  /**
   * How the worker reports an exception: a missing path becomes an IOError
   * with a fixed message; FFmpeg and I/O errors read "Ошибка: ...", any other
   * "Критическая ошибка: ...".
   */
  lemma WorkerErrorClassification(env: WorkerEnv)
    ensures env.adapter.Ran? && env.adapter.path == Success("") ==>
      WorkerError(env) == Some(Exception(IOError, NO_PROCESSED_PATH))
      && ErrorStatus(WorkerError(env).value) == Status(KNOWN_ERROR + NO_PROCESSED_PATH)
    ensures WorkerError(env).Some? && WorkerError(env).value.kind != OtherError ==>
      ErrorStatus(WorkerError(env).value) == Status(KNOWN_ERROR + WorkerError(env).value.message)
    ensures WorkerError(env).Some? && WorkerError(env).value.kind == OtherError ==>
      ErrorStatus(WorkerError(env).value) == Status(CRITICAL_ERROR + WorkerError(env).value.message)
    ensures WorkerError(env).None? <==>
      env.adapter.Ran? && env.adapter.path.Success? && env.adapter.path.value != ""
      && (env.cancelledBeforeTranscription || env.transcription.result.Success?)
  {
  }

  /** Only the adapter that was actually constructed is cleaned up; a failed constructor leaves nothing to clean. */
  lemma CleanupOnlyRegistered(params: Params, env: WorkerEnv)
    ensures env.adapter.ConstructionFailed? ==> CleanupMessages(Slots(params, env.adapter)) == []
    ensures env.adapter.Ran? ==>
      CleanupMessages(Slots(params, env.adapter))
      == SlotMessages(AdapterSlot(if params.isYoutube then YOUTUBE_SLOT else LOCAL_SLOT, Some(env.adapter.cleanup)))
  {
    var slots := Slots(params, env.adapter);
    assert slots[..1] == [slots[0]];
    assert CleanupMessages(slots) == CleanupMessages([slots[0]]) + SlotMessages(slots[1]);
    assert CleanupMessages([slots[0]]) == CleanupMessages([]) + SlotMessages(slots[0]);
  }

  // ---------------------------------------------------------------------
  // The controller's own examples

  const CLEANUP_FAILED_EXAMPLE: string := "Cleanup failed"

  /** A YouTube adapter whose cleanup raises is reported, not re-raised. */
  lemma CleanupFailureExample()
    ensures CleanupMessages([AdapterSlot(YOUTUBE_SLOT, Some(CleanupRaised([], CLEANUP_FAILED_EXAMPLE))), AdapterSlot(LOCAL_SLOT, None)])
      == [Status("Не удалось очистить временные файлы youtube: " + CLEANUP_FAILED_EXAMPLE)]
  {
    var slots := [AdapterSlot(YOUTUBE_SLOT, Some(CleanupRaised([], CLEANUP_FAILED_EXAMPLE))), AdapterSlot(LOCAL_SLOT, None)];
    assert slots[..1] == [slots[0]];
    assert [slots[0]][..0] == [];
    assert Logged([]) == [];
    assert SlotMessages(slots[0]) == [Status(CLEANUP_FAILED + YOUTUBE_SLOT + ": " + CLEANUP_FAILED_EXAMPLE)];
    assert CleanupMessages(slots) == CleanupMessages([slots[0]]) + SlotMessages(slots[1]);
    assert CLEANUP_FAILED + YOUTUBE_SLOT + ": " == "Не удалось очистить временные файлы youtube: ";
  }

  const FFMPEG_MISSING_EXAMPLE: string := "ffmpeg not found"
  const VALUE_ERROR_EXAMPLE: string := "Something went very wrong"

  /** The YouTube adapter's constructor raising FFmpegNotFoundError gives "Ошибка: ..." and then `is_done`. */
  lemma KnownErrorExample(run: TranscriptionRun)
    ensures var params := Params("url", true, Tiny, Transcribe);
      var env := WorkerEnv(ConstructionFailed(Exception(FFmpegNotFound, FFMPEG_MISSING_EXAMPLE)), false, run, false);
      WorkerMessages(params, env, false) == [Status(DOWNLOADING), Status(KNOWN_ERROR + FFMPEG_MISSING_EXAMPLE), DONE]
  {
    var params := Params("url", true, Tiny, Transcribe);
    var env := WorkerEnv(ConstructionFailed(Exception(FFmpegNotFound, FFMPEG_MISSING_EXAMPLE)), false, run, false);
    CleanupOnlyRegistered(params, env);
  }

  /** The local adapter's constructor raising ValueError gives "Критическая ошибка: ..." and then `is_done`. */
  lemma CriticalErrorExample(run: TranscriptionRun)
    ensures var params := Params("file", false, Tiny, Transcribe);
      var env := WorkerEnv(ConstructionFailed(Exception(OtherError, VALUE_ERROR_EXAMPLE)), false, run, false);
      WorkerMessages(params, env, false) == [Status(PROCESSING_LOCAL), Status(CRITICAL_ERROR + VALUE_ERROR_EXAMPLE), DONE]
  {
    var params := Params("file", false, Tiny, Transcribe);
    var env := WorkerEnv(ConstructionFailed(Exception(OtherError, VALUE_ERROR_EXAMPLE)), false, run, false);
    CleanupOnlyRegistered(params, env);
  }

  /** A successful local run without time stamps sends "Готово!" with the plain text "ok". */
  lemma SuccessExample(log: seq<string>, messages: seq<QueueMessage>)
    ensures var params := Params("file", false, Tiny, Transcribe);
      var env := WorkerEnv(Ran(log, Success("/fake/processed.wav"), Cleaned([])), false,
                           TranscriptionRun(messages, Success(Export.ResultData("ok", []))), false);
      QueueMessage(Some(READY), Some(1.0), Some("ok"), false) in WorkerMessages(params, env, false)
      && WorkerError(env) == None
  {
    var params := Params("file", false, Tiny, Transcribe);
    var env := WorkerEnv(Ran(log, Success("/fake/processed.wav"), Cleaned([])), false,
                         TranscriptionRun(messages, Success(Export.ResultData("ok", []))), false);
    var t := TryMessages(params, env, false);
    assert t == [Status(PROCESSING_LOCAL)] + Logged(log) + messages + [QueueMessage(Some(READY), Some(1.0), Some("ok"), false)];
    assert WorkerMessages(params, env, false)[|t| - 1] == t[|t| - 1];
  }

  const HELLO: string := "Hello"
  const WORLD: string := "World"

  /** Two segments with fractional end times, in whole seconds, one line each. */
  lemma GuiTextExample()
    ensures GuiText(Export.ResultData("", [Segment(1000, 2500, HELLO), Segment(3000, 4200, WORLD)]), true)
      == "[00:00:01 -> 00:00:02] " + HELLO + "\n" + "[00:00:03 -> 00:00:04] " + WORLD
  {
    var a := Segment(1000, 2500, HELLO);
    var b := Segment(3000, 4200, WORLD);
    Transcription.MapSeqTwo(Transcription.SegmentLine, a, b);
    GuiHmsExamples();
    GuiStripExamples();
    GuiPrefixExamples();
    Transcription.SegmentLineOf(a, 1, 2);
    Transcription.SegmentLineOf(b, 3, 4);
    var l0 := "[00:00:01 -> 00:00:02] " + HELLO;
    var l1 := "[00:00:03 -> 00:00:04] " + WORLD;
    assert Transcription.SegmentLines([a, b]) == [l0, l1];
    assert [l0, l1][1..] == [l1];
    assert Join([l0, l1], "\n") == l0 + "\n" + l1;
    Transcription.Assoc3(l0 + "\n", "[00:00:03 -> 00:00:04] ", WORLD);
  }

  lemma GuiPrefixExamples()
    ensures "[" + "00:00:01" + " -> " + "00:00:02" + "] " == "[00:00:01 -> 00:00:02] "
    ensures "[" + "00:00:03" + " -> " + "00:00:04" + "] " == "[00:00:03 -> 00:00:04] "
  {
  }

  lemma GuiHmsExamples()
    ensures Transcription.Hms(1) == "00:00:01" && Transcription.Hms(2) == "00:00:02"
    ensures Transcription.Hms(3) == "00:00:03" && Transcription.Hms(4) == "00:00:04"
  {
    HmsOneDigit(1);
    HmsOneDigit(2);
    HmsOneDigit(3);
    HmsOneDigit(4);
    assert DigitChar(1) == '1' && DigitChar(2) == '2' && DigitChar(3) == '3' && DigitChar(4) == '4';
  }

  lemma HmsOneDigit(s: nat)
    requires s < 10
    ensures Transcription.Hms(s) == "00:00:0" + [DigitChar(s)]
  {
    Transcription.HmsBelowMinute(s);
    assert DigitChar(0) == '0';
  }

  lemma GuiStripExamples()
    ensures Strip(HELLO) == HELLO && Strip(WORLD) == WORLD
  {
    StripOfPadded("", HELLO, "");
    StripOfPadded("", WORLD, "");
    assert "" + HELLO + "" == HELLO && "" + WORLD + "" == WORLD;
  }

  // ---------------------------------------------------------------------
  // Properties of the formatter and of saving

  /** With time stamps, every segment's line appears in the GUI text. */
  lemma GuiTextHasEveryLine(result: Export.ResultData, i: nat)
    requires i < |result.segments|
    ensures Contains(GuiText(result, true), Transcription.SegmentLine(result.segments[i]))
  {
    JoinContainsPart(Transcription.SegmentLines(result.segments), "\n", i);
  }

  /**
   * The GUI and the transcription service format a reply's segments with the
   * same line; the service's transcript of a single reply is the stripped GUI text.
   */
  lemma GuiTextMatchesTranscript(text: string, segments: seq<Segment>, timestamps: bool)
    ensures Transcription.Transcript([Reply(text, segments)], timestamps)
      == Strip(GuiText(Export.ResultData(text, segments), timestamps))
  {
    var replies := [Reply(text, segments)];
    assert replies[..0] == [];
    assert Transcription.Lines(replies, timestamps) == Transcription.ReplyLines(replies[0], timestamps);
    if !timestamps {
      assert Join([text], "\n") == text by { assert [text][1..] == []; }
    }
  }

  /** Saving reports an error only when the exporter raises; a failed write still reads as saved. */
  lemma SaveReportsOnlyRaises(outcome: Export.Outcome, path: string)
    ensures StartsWith(SaveStatus(outcome, path), Export.SAVE_ERROR_PREFIX) || SaveStatus(outcome, path) == SAVED + path
    ensures outcome.WriteFailed? ==> SaveStatus(outcome, path) == SAVED + path
  {
  }
}
