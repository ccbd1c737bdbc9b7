/**
 * Microphone transcription (`RealtimeTranscriptionService` in
 * app/services/realtime_transcription.py): the audio callback fills a queue
 * with blocks, and the processing worker accumulates them into a buffer that
 * is sent to the engine once it holds five seconds of audio.
 *
 * The worker thread is modelled one loop iteration at a time: `WorkerStep`
 * runs the body of the `while` once, with the stop flag and the queue as they
 * are at that moment. Status and result callbacks become logs that only grow.
 */
module Realtime {
  import opened Wrappers
  import opened Strings
  import opened Models
  import opened Whisper
  import Transcription

  const SAMPLE_RATE: nat := 16000
  const BLOCK_DURATION_MS: nat := 1000
  /** `int(SAMPLE_RATE * BLOCK_DURATION_MS / 1000)`; the product is a multiple of 1000, so nothing is truncated. */
  const BLOCKSIZE: nat := SAMPLE_RATE * BLOCK_DURATION_MS / 1000
  const PROCESSING_INTERVAL_SECONDS: nat := 5
  const PROCESSING_QUEUE_SIZE: nat := SAMPLE_RATE * PROCESSING_INTERVAL_SECONDS

  lemma Constants()
    ensures BLOCKSIZE == 16000 && PROCESSING_QUEUE_SIZE == 80000
    ensures PROCESSING_QUEUE_SIZE == PROCESSING_INTERVAL_SECONDS * BLOCKSIZE
  {
  }

  const PROCESSING: string := "Обработка фрагмента..."
  const WAITING: string := "Ожидание аудио..."
  const STARTING: string := "Запуск записи..."
  const STOPPING: string := "Остановка записи..."
  const STOPPED: string := "Запись остановлена."
  const STREAM_ERROR: string := "Ошибка аудиопотока: "
  const WORKER_ERROR: string := "Ошибка в потоке обработки: "

  /** One block from the input stream: frames of channel samples, as `indata` has them. */
  type Block = seq<seq<Sample>>

  /**
   * What the processing worker sees and changes: the audio queue, its local
   * buffer, the results and statuses reported so far, the number of engine
   * calls made (the next call's ordinal), and whether it has left its loop.
   */
  datatype Worker = Worker(
    queue: seq<Block>,
    buffer: seq<Sample>,
    results: seq<string>,
    statuses: seq<string>,
    calls: nat,
    exited: bool)

  /**
   * One iteration of `_processing_worker`. A set stop flag ends the loop; an
   * empty queue times out and continues; otherwise the first block is
   * appended, flattened, to the buffer, and a buffer of at least
   * `PROCESSING_QUEUE_SIZE` samples is transcribed as a whole: a non-empty
   * stripped text is reported, the buffer is emptied, and an engine exception
   * is reported and ends the loop.
   */
  function Step(engine: Engine, task: TranscriptionTask, stopSet: bool, w: Worker): (r: Worker)
    ensures w.exited ==> r == w
    ensures r.calls == w.calls || (r.calls == w.calls + 1 && w.queue != [] && |w.buffer| + |Transcription.Flatten(w.queue[0])| >= PROCESSING_QUEUE_SIZE)
    ensures |r.queue| <= |w.queue| && w.results <= r.results && w.statuses <= r.statuses
  {
    if w.exited then w
    else if stopSet then w.(exited := true)
    else if w.queue == [] then w
    else
      var buffer := w.buffer + Transcription.Flatten(w.queue[0]);
      var rest := w.queue[1..];
      if |buffer| < PROCESSING_QUEUE_SIZE then w.(queue := rest, buffer := buffer)
      else
        match engine(Request(w.calls, buffer, None, false, Some(task)))
        case Raised(e) =>
          w.(queue := rest, buffer := buffer, statuses := w.statuses + [PROCESSING, WORKER_ERROR + e],
             calls := w.calls + 1, exited := true)
        case Reply(text, _) =>
          var transcribed := Strip(text);
          w.(queue := rest, buffer := [],
             results := w.results + (if transcribed != "" then [transcribed] else []),
             statuses := w.statuses + [PROCESSING, WAITING], calls := w.calls + 1)
  }

  lemma Append2<T>(s: seq<T>, a: T, b: T)
    ensures s + [a] + [b] == s + [a, b]
  {
  }

  /** At the loop head the buffer is below the threshold. */
  predicate BelowThreshold(w: Worker)
  {
    !w.exited ==> |w.buffer| < PROCESSING_QUEUE_SIZE
  }

  lemma StepKeepsBelowThreshold(engine: Engine, task: TranscriptionTask, stopSet: bool, w: Worker)
    requires BelowThreshold(w)
    ensures BelowThreshold(Step(engine, task, stopSet, w))
  {
  }

  /**
   * A step below the threshold only moves the first block, flattened and in
   * order, from the queue to the end of the buffer, and calls nothing.
   */
  lemma StepAppendsBlock(engine: Engine, task: TranscriptionTask, w: Worker)
    requires !w.exited && w.queue != []
    requires |w.buffer + Transcription.Flatten(w.queue[0])| < PROCESSING_QUEUE_SIZE
    ensures var w' := Step(engine, task, false, w);
      w'.buffer == w.buffer + Transcription.Flatten(w.queue[0]) && w'.queue == w.queue[1..]
      && w'.calls == w.calls && w'.results == w.results && w'.statuses == w.statuses && !w'.exited
  {
  }

  /**
   * Reaching the threshold makes exactly one engine call on the whole
   * buffer, announced by "Обработка фрагмента..."; on a reply the stripped
   * text is reported only if non-empty, the buffer is emptied and
   * "Ожидание аудио..." follows; on an exception its message is reported
   * and the loop ends.
   */
  lemma StepAtThreshold(engine: Engine, task: TranscriptionTask, w: Worker)
    requires !w.exited && w.queue != []
    requires |w.buffer + Transcription.Flatten(w.queue[0])| >= PROCESSING_QUEUE_SIZE
    ensures var w' := Step(engine, task, false, w);
      var reply := engine(Request(w.calls, w.buffer + Transcription.Flatten(w.queue[0]), None, false, Some(task)));
      w'.calls == w.calls + 1 && w'.queue == w.queue[1..]
      && (reply.Reply? ==>
            w'.buffer == [] && !w'.exited && w'.statuses == w.statuses + [PROCESSING, WAITING]
            && (Strip(reply.text) == "" ==> w'.results == w.results)
            && (Strip(reply.text) != "" ==> w'.results == w.results + [Strip(reply.text)]))
      && (reply.Raised? ==>
            w'.exited && w'.results == w.results && w'.statuses == w.statuses + [PROCESSING, WORKER_ERROR + reply.message])
  {
  }

  /** An empty queue changes nothing (`queue.Empty` continues), and a set stop flag only ends the loop. */
  lemma StepIdleAndStop(engine: Engine, task: TranscriptionTask, w: Worker)
    ensures w.queue == [] ==> Step(engine, task, false, w) == w
    ensures !w.exited ==> Step(engine, task, true, w) == w.(exited := true)
  {
  }

  /** `n` iterations with the stop flag clear. */
  function Run(engine: Engine, task: TranscriptionTask, w: Worker, n: nat): Worker
    decreases n
  {
    if n == 0 then w else Run(engine, task, Step(engine, task, false, w), n - 1)
  }

  /** Every block holds one second of mono audio. */
  predicate SecondBlocks(q: seq<Block>)
  {
    forall i :: 0 <= i < |q| ==> |Transcription.Flatten(q[i])| == BLOCKSIZE
  }

  /** The engine returns a result on every call. */
  ghost predicate NeverRaises(engine: Engine)
  {
    forall r :: engine(r).Reply?
  }

  /**
   * With one-second blocks and an engine that always answers, the engine is
   * called once every five blocks: after the worker has taken `n` blocks into
   * a buffer that held `j` blocks, it has made `(j + n) / 5` more calls and
   * holds `(j + n) % 5` blocks.
   */
  lemma {:induction false} OncePerFiveBlocks(engine: Engine, task: TranscriptionTask, w: Worker, j: nat, n: nat)
    requires NeverRaises(engine)
    requires !w.exited && j < 5 && |w.buffer| == j * BLOCKSIZE
    requires n <= |w.queue| && SecondBlocks(w.queue)
    ensures var w' := Run(engine, task, w, n);
      !w'.exited && w'.calls == w.calls + (j + n) / 5 && |w'.buffer| == ((j + n) % 5) * BLOCKSIZE
      && w'.queue == w.queue[n..]
    decreases n
  {
    if n > 0 {
      var w1 := Step(engine, task, false, w);
      assert |Transcription.Flatten(w.queue[0])| == BLOCKSIZE;
      var j1 := if j == 4 then 0 else j + 1;
      if j == 4 {
        assert engine(Request(w.calls, w.buffer + Transcription.Flatten(w.queue[0]), None, false, Some(task))).Reply?;
        assert w1.calls == w.calls + 1 && w1.buffer == [];
      } else {
        assert w1.calls == w.calls && |w1.buffer| == j1 * BLOCKSIZE;
      }
      assert w1.queue == w.queue[1..];
      assert SecondBlocks(w1.queue) by {
        forall i | 0 <= i < |w1.queue|
          ensures |Transcription.Flatten(w1.queue[i])| == BLOCKSIZE
        {
          assert w1.queue[i] == w.queue[i + 1];
        }
      }
      OncePerFiveBlocks(engine, task, w1, j1, n - 1);
      assert w.queue[1..][n - 1..] == w.queue[n..];
      if j == 4 {
        assert (j + n) / 5 == 1 + (j1 + n - 1) / 5 && (j + n) % 5 == (j1 + n - 1) % 5;
      } else {
        assert (j + n) / 5 == (j1 + n - 1) / 5 && (j + n) % 5 == (j1 + n - 1) % 5;
      }
    }
  }

  /** The logs of results and statuses only grow, whatever the steps do. */
  lemma {:induction false} RunOnlyAppends(engine: Engine, task: TranscriptionTask, w: Worker, n: nat)
    ensures var w' := Run(engine, task, w, n);
      w.results <= w'.results && w.statuses <= w'.statuses && w'.calls >= w.calls
    decreases n
  {
    if n > 0 {
      RunOnlyAppends(engine, task, Step(engine, task, false, w), n - 1);
    }
  }

  const TEST_TEXT: string := "test"

  /** Five seconds of audio in one block and an engine that answers "test": one call, one result. */
  lemma WorkerExample(engine: Engine, task: TranscriptionTask, block: Block)
    requires |Transcription.Flatten(block)| == PROCESSING_QUEUE_SIZE
    requires engine(Request(0, Transcription.Flatten(block), None, false, Some(task))) == Reply(TEST_TEXT, [])
    ensures Step(engine, task, false, Worker([block], [], [], [], 0, false))
      == Worker([], [], [TEST_TEXT], [PROCESSING, WAITING], 1, false)
  {
    var w := Worker([block], [], [], [], 0, false);
    assert w.buffer + Transcription.Flatten(w.queue[0]) == Transcription.Flatten(block);
    assert w.queue[1..] == [];
    StripOfTrimmed(TEST_TEXT);
    StepAtThreshold(engine, task, w);
  }

  class RealtimeTranscriptionService {
    const model: Engine
    const deviceId: int
    const task: TranscriptionTask

    /** `_stop_event`. */
    var stopSet: bool
    /** Whether `_stream` and `_processing_thread` refer to something. */
    var streamOpen: bool
    var threadStarted: bool
    /** `_audio_queue`, oldest block first. */
    var audioQueue: seq<Block>
    /** The calls of `status_callback` and `result_callback`, in order. */
    var statuses: seq<string>
    var results: seq<string>
    /** The worker's `processing_buffer`, its engine calls, and whether it has left its loop. */
    var buffer: seq<Sample>
    var calls: nat
    var workerExited: bool

    function WorkerState(): Worker
      reads this
    {
      Worker(audioQueue, buffer, results, statuses, calls, workerExited)
    }

    ghost predicate Valid()
      reads this
    {
      BelowThreshold(WorkerState())
    }

    constructor (model: Engine, deviceId: int, task: TranscriptionTask)
      ensures Valid() && this.model == model && this.deviceId == deviceId && this.task == task
      ensures !stopSet && !streamOpen && !threadStarted && audioQueue == []
      ensures statuses == [] && results == [] && buffer == [] && calls == 0 && workerExited
    {
      this.model := model;
      this.deviceId := deviceId;
      this.task := task;
      stopSet := false;
      streamOpen := false;
      threadStarted := false;
      audioQueue := [];
      statuses := [];
      results := [];
      buffer := [];
      calls := 0;
      workerExited := true;
    }

    /** `_audio_callback`: report a device status if there is one, and always enqueue the block. */
    method AudioCallback(indata: Block, status: Option<string>)
      modifies this
      ensures audioQueue == old(audioQueue) + [indata]
      ensures statuses == old(statuses) + if status.Some? then [STREAM_ERROR + status.value] else []
      ensures stopSet == old(stopSet) && streamOpen == old(streamOpen) && threadStarted == old(threadStarted)
      ensures results == old(results) && buffer == old(buffer) && calls == old(calls) && workerExited == old(workerExited)
    {
      if status.Some? {
        statuses := statuses + [STREAM_ERROR + status.value];
      }
      audioQueue := audioQueue + [indata];
    }

    /** One iteration of `_processing_worker`, against `Step`. */
    method WorkerStep()
      requires Valid()
      modifies this
      ensures Valid()
      ensures WorkerState() == Step(model, task, old(stopSet), old(WorkerState()))
      ensures stopSet == old(stopSet) && streamOpen == old(streamOpen) && threadStarted == old(threadStarted)
    {
      if workerExited {
        return;
      }
      if stopSet {
        workerExited := true;
        return;
      }
      if audioQueue == [] {
        return;
      }
      var audioChunk := audioQueue[0];
      audioQueue := audioQueue[1..];
      buffer := buffer + Transcription.Flatten(audioChunk);
      if |buffer| >= PROCESSING_QUEUE_SIZE {
        statuses := statuses + [PROCESSING];
        var result := model(Request(calls, buffer, None, false, Some(task)));
        calls := calls + 1;
        if result.Raised? {
          Append2(old(statuses), PROCESSING, WORKER_ERROR + result.message);
          statuses := statuses + [WORKER_ERROR + result.message];
          workerExited := true;
          return;
        }
        var transcribedText := Strip(result.text);
        if transcribedText != "" {
          results := results + [transcribedText];
        }
        buffer := [];
        Append2(old(statuses), PROCESSING, WAITING);
        statuses := statuses + [WAITING];
      }
    }

    /**
     * `start`: clear the stop flag, start a worker with an empty buffer and
     * open the stream. Blocks still queued are kept.
     */
    method Start()
      modifies this
      ensures Valid()
      ensures !stopSet && streamOpen && threadStarted && buffer == [] && !workerExited
      ensures statuses == old(statuses) + [STARTING, WAITING]
      ensures audioQueue == old(audioQueue) && results == old(results) && calls == old(calls)
    {
      statuses := statuses + [STARTING];
      stopSet := false;
      threadStarted := true;
      buffer := [];
      workerExited := false;
      streamOpen := true;
      statuses := statuses + [WAITING];
    }

    /**
     * `stop`: only while the flag is clear, set it, drop the stream and the
     * thread, and empty the queue. A second call changes nothing.
     */
    method Stop()
      requires Valid()
      modifies this
      ensures Valid()
      ensures old(stopSet) ==> unchanged(this)
      ensures !old(stopSet) ==>
        stopSet && !streamOpen && !threadStarted && audioQueue == []
        && statuses == old(statuses) + [STOPPING, STOPPED]
        && results == old(results) && buffer == old(buffer) && calls == old(calls)
        && workerExited == old(workerExited)
    {
      if !stopSet {
        statuses := statuses + [STOPPING];
        stopSet := true;
        if streamOpen {
          streamOpen := false;
        }
        if threadStarted {
          threadStarted := false;
        }
        audioQueue := [];
        statuses := statuses + [STOPPED];
      }
    }
  }
}
