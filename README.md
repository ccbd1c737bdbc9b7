# EchoScript core in Dafny

EchoScript transcribes speech with a Whisper model. It has a command line, a
desktop GUI and a microphone mode. This project models the core of that
application and proves properties about the model:

- **Transcription service** (`Transcription`). A sound file is read in
  30-second chunks. Each chunk is sent to the speech engine, and the replies are
  assembled into one transcript, either as raw text or as one
  `[HH:MM:SS -> HH:MM:SS] text` line per segment. Any exception gives the empty
  transcript. `SoundFile` is a class with a read position, and `_read_chunks`
  is a loop over it.
- **Export** (`Export`). There are four adapters:
  - plain text and Markdown, which write the transcript;
  - SubRip, which writes numbered cues with `HH:MM:SS,mmm` times and refuses
    negative times;
  - Word, which writes one paragraph and raises when the library is missing.

  `get_exporter` is the factory over them. A write error is reported and not
  raised.
- **GUI controller** (`Controller`). `TranscriptionController` covers:
  - the `is_running` guard on each user action;
  - the choice between file and URL;
  - the background worker's queue protocol: statuses first, then one
    "Готово!" with the result when it gets that far, an error status, the
    cleanup messages, and `is_done` last;
  - the progress callback;
  - saving the last result.
- **Microphone transcription** (`Realtime`). The audio callback queues blocks.
  The worker buffers them and transcribes the buffer each time it holds five
  seconds of audio. `start` and `stop` manage the stream and the worker.
- **Model cache** (`ModelCache`). `ModelManager` covers:
  - the cached file's path;
  - the hash check against the URL's hash component, with removal on a
    mismatch;
  - the download through a `.part` file with progress and whole-megabyte
    logging, recorded as one sequence of callback calls in call order;
  - the atomic rename, and the removal of the `.part` file on any error;
  - `get_model`, which reports loading and readiness around `load_model`.
- **Command line** (`Cli`):
  - the pre-flight check of a source;
  - the routing of a source to the YouTube downloader, as written and as
    evidently intended (see "## Findings");
  - the exits on a failed download;
  - the output file name.
- **Localization** (`Localization`). The interface language is the saved
  setting first, then the system locale, then nothing.

Supporting modules:

- `Models`: the string enumerations and their parsing.
- `Whisper`: the engine's interface.
- `Strings`: strip, split, join, decimal formatting and zero padding, with
  their round trips.
- `Arith`: division facts.
- `Wrappers`: `Option` and `Result`.

**What is passed in.** The speech engine, SHA-256, the network stream, the
file system's answers, the adapters and the dialog answers are all
parameters: an engine is a function from a request to a reply.

**Numbers and time.** Times are whole milliseconds (`int`). The engine's float
seconds are taken as already rounded to milliseconds.

**Threads.** There is no concurrency. A worker runs when its method is called,
or one loop iteration at a time for the microphone worker.

## Model

| member | source | states |
|---|---|---|
| Models.ParseModelSize | app/core/models.py:9-15 | `ModelSize(value)`: success gives the member whose value is `value`; failure happens exactly when no member has that value |
| Models.ModelSizeRoundTrip | app/core/models.py:9-15 | every model size is found again from its own value |
| Models.ParseOutputFormat | app/adapters/export.py:156-161 | `OutputFormat(value)` over the four formats the exporters are registered for: success gives the format with that value; failure happens exactly when there is none |
| Models.OutputFormatRoundTrip | app/adapters/export.py:156-161 | every output format is found again from its own value |
| Strings.LStripRemovesLeadingSpace | app/services/transcription.py:87 | `lstrip` removes a prefix made only of whitespace and leaves a result that does not start with whitespace |
| Strings.RStripRemovesTrailingSpace | app/services/transcription.py:87 | `rstrip` removes a suffix made only of whitespace and leaves a result that does not end with whitespace |
| Strings.StripIsTrimmedInfix | app/services/transcription.py:87 | `strip()` is an infix of its input, with whitespace only on either side and no whitespace at either end of the result |
| Strings.StripOfTrimmed | app/services/transcription.py:87 | a string already free of edge whitespace is its own strip |
| Strings.StripOfPadded | app/services/realtime_transcription.py:85 | stripping whitespace padding around a trimmed non-empty text gives that text back |
| Strings.StripIdempotent | app/services/realtime_transcription.py:85 | stripping twice is stripping once |
| Strings.JoinSnoc | app/services/transcription.py:87 | joining one more part appends the separator and the part |
| Strings.JoinContainsPart | app/controllers/transcription_controller.py:212 | every part occurs in the joined string |
| Strings.Split | app/core/localization.py:34 | `split(c)` gives at least one part, and no part contains `c` |
| Strings.JoinSplit | app/core/localization.py:34 | joining the parts of `split(c)` with `c` gives the original string back |
| Strings.SplitConcat | app/services/model_manager.py:51 | splitting `a + c + b` at `c` splits `a` and `b` separately |
| Strings.SplitWithoutSeparator | app/services/model_manager.py:51 | a string without the separator splits into itself alone |
| Strings.SplitHead | app/core/localization.py:34 | the first part of `split(c)` is the longest prefix without `c`, ended by the end of the string or by a `c` |
| Strings.RFind | app/main.py:173 | the index of the last occurrence of a character, -1 when it is absent, with none after it |
| Strings.DigitChar | app/services/transcription.py:78 | the decimal digit character of a value below 10 |
| Strings.NatToDecimal | app/services/transcription.py:78 | the decimal notation of a natural number is digits only, with no leading zero |
| Strings.DecimalRoundTrip | app/services/transcription.py:78 | reading a number's decimal notation back gives the number |
| Strings.NatToDecimalLength | app/adapters/export.py:35 | a number below 10^k needs at most k digits |
| Strings.ZeroPad | app/adapters/export.py:35 | `{n:0wd}` is all digits and at least `w` wide |
| Strings.ZeroPadIsZeros | app/adapters/export.py:35 | zero padding prefixes just enough `0`s to reach the width, and none when the notation is already wide enough |
| Strings.ZeroPadValue | app/adapters/export.py:35 | zero-padded notation reads back as the number itself |
| Strings.ZeroPadWidth | app/adapters/export.py:35 | a number below 10^w pads to exactly `w` characters |
| Strings.ZeroPadTwoDigits | app/services/transcription.py:78 | `{n:02d}` of a number below 100 is its tens digit and its units digit |
| Strings.LeadingZerosValue | app/adapters/export.py:35 | leading zeros leave a decimal value unchanged |
| Transcription.CeilDivIsCeiling | app/services/transcription.py:45 | `ceil(a / b)` is the least multiple count covering `a` |
| Transcription.Chunked | app/services/transcription.py:93-99 | the reads of a file: none exactly for an empty file, and none longer than a chunk |
| Transcription.ChunkedCount | app/services/transcription.py:42-45 | the file yields exactly `ceil(frames / chunk_size)` chunks, the `total` of the progress bar |
| Transcription.ChunkedShape | app/services/transcription.py:93-99 | every chunk but the last is full, and the last is non-empty and no longer than a chunk |
| Transcription.ChunkedConcat | app/services/transcription.py:93-99 | the chunks, in order, are exactly the file's frames |
| Transcription.ChunkedNonEmpty | app/services/transcription.py:96-98 | no chunk is empty, since an empty read ends the generator |
| Transcription.ChunkedStep | app/services/transcription.py:96-99 | one read takes a full chunk, or the rest of the file, and the generator goes on from there |
| Transcription.FortyFiveSecondsIsTwoChunks | app/services/transcription.py:44-45 | 45 s at 16 kHz is two chunks, of 30 s and 15 s |
| Transcription.SoundFile.constructor | app/services/transcription.py:41 | an opened file starts at position 0 with the file's rate and frames |
| Transcription.SoundFile.Length | app/services/transcription.py:43 | `len(audio_file)` is the number of frames |
| Transcription.SoundFile.Read | app/services/transcription.py:96 | `read(n)` returns the next `min(n, remaining)` frames and advances the position by that much |
| Transcription.ReadChunks | app/services/transcription.py:93-99 | consuming `_read_chunks` yields exactly the chunking of the remaining frames and leaves the file at its end |
| Transcription.TruncSeconds | app/services/transcription.py:75-76 | `int(seconds)` truncates toward zero, for negative times too |
| Transcription.Hms | app/services/transcription.py:78 | a non-negative time prints at least `HH:MM:SS`; a negative one starts with `-`, as Python's floor division gives |
| Transcription.HmsFields | app/services/transcription.py:78 | the minutes and seconds fields are below 60, and the three fields recompose the total seconds |
| Transcription.HmsValueOfFields | app/services/transcription.py:78 | reading `hh:mm:ss` back gives the value of its three fields |
| Transcription.HmsRoundTrip | app/services/transcription.py:78-79 | reading the `HH:MM:SS` text of a non-negative second count back gives that count, so distinct times print differently, hours beyond 99 included |
| Transcription.HmsBelowMinute | app/services/transcription.py:78 | a time under a minute prints as `00:00:` followed by its two digits |
| Transcription.HmsExamples | app/services/transcription.py:78 | 0, 5, 30 and 35 seconds print as `00:00:00`, `00:00:05`, `00:00:30`, `00:00:35` |
| Transcription.SegmentLines | app/services/transcription.py:74-81 | one line per segment |
| Transcription.SegmentLine | app/services/transcription.py:75-81 | a segment's line opens with `[` and ends with `] ` and its stripped text |
| Transcription.SegmentLineOf | app/services/transcription.py:75-81 | a segment's line is `[start -> end] ` and its stripped text, with times truncated to whole seconds |
| Transcription.SegmentLineExamples | app/services/transcription.py:75-81 | the lines of two sample segments, with edge whitespace removed |
| Transcription.SegmentLinesSnoc | app/services/transcription.py:74-81 | one more segment appends its own line |
| Transcription.MapSeq | app/services/transcription.py:74-81 | a mapped sequence has the same length, and each element is the image of the corresponding one |
| Transcription.MapSeqAppend | app/services/transcription.py:74-81 | mapping distributes over concatenation |
| Transcription.AppendSegmentLines | app/services/transcription.py:74-81 | the inner loop appends exactly the segment lines, in order, to the collected lines |
| Transcription.Requests | app/services/transcription.py:54-70 | one engine request per chunk, with `language` and `verbose = timestamps` |
| Transcription.Replies | app/services/transcription.py:70 | one reply per request |
| Transcription.FirstRaised | app/services/transcription.py:65-91 | the first request whose reply raises: none exactly when all replies are results; when there is one, all before it are results |
| Transcription.FirstRaisedAt | app/services/transcription.py:65-91 | a raising reply preceded only by results is the first one raised |
| Transcription.Transcript | app/services/transcription.py:82-87 | the transcript neither starts nor ends with whitespace |
| Transcription.LinesWithoutTimestamps | app/services/transcription.py:82-83 | without timestamps, each reply contributes exactly its raw text, in order |
| Transcription.LinesWithTimestamps | app/services/transcription.py:72-81 | with timestamps, the lines are those of all segments of all replies, in order, with no offset added per chunk |
| Transcription.TranscriptExampleWithoutTimestamps | app/services/transcription.py:82-87 | two raw texts are joined by a newline and only the outer whitespace is stripped |
| Transcription.ExampleLinesWithoutTimestamps | app/services/transcription.py:83 | raw texts are collected unstripped |
| Transcription.TranscriptExampleWithTimestamps | app/services/transcription.py:72-87 | two replies give two time-stamped lines joined by a newline, each chunk's times counted from its own start |
| Transcription.ExampleSegments | app/services/transcription.py:74 | the segments of two replies are concatenated in reply order |
| Transcription.ExampleSegmentLines | app/services/transcription.py:74-81 | the two sample segments give their two lines |
| Transcription.JoinTwoTrimmed | app/services/transcription.py:87 | stripping the join of two lines with no outer whitespace changes nothing |
| Transcription.TranscriptionService.constructor | app/services/transcription.py:25-26 | the service keeps the model it is given |
| Transcription.TranscriptionService.Transcribe | app/services/transcription.py:28-91 | an unreadable file gives `""` without calling the engine; otherwise the engine is called once per chunk up to and including the first that raises: with none raising, the result is the stripped newline-join of the lines and the bar completes; with one raising, the result is `""` and the bar stops at that chunk |
| Transcription.TranscriptionService.TranscribeChunks | app/services/transcription.py:65-91 | the loop over the chunks, with the same outcome as `Transcribe` expressed over the chunks |
| Export.SrtTime | app/adapters/export.py:20-35 | a SubRip time is at least the 12 characters of `HH:MM:SS,mmm` |
| Export.FormatSrtTime | app/adapters/export.py:20-35 | a negative time raises ValueError with the source's message; otherwise the result is the `HH:MM:SS,mmm` text |
| Export.SrtFieldsUnique | app/adapters/export.py:26-33 | fields in range that recompose the milliseconds are the ones the successive subtractions give |
| Export.SrtFields | app/adapters/export.py:26-33 | the minute, second and millisecond fields are in range and recompose the time |
| Export.SrtTimeValueOfFields | app/adapters/export.py:35 | reading `hh:mm:ss,fff` back gives the value of its four fields |
| Export.SrtTimeRoundTrip | app/adapters/export.py:20-35 | reading the SubRip text of a non-negative time back gives the time, so distinct times give distinct texts |
| Export.SrtTimeWidth | app/adapters/export.py:35 | below 100 hours a SubRip time is exactly 12 characters |
| Export.SrtTimeExamples | app/adapters/export.py:20-35 | 0, 2.5 s and 3.1 s print as `00:00:00,000`, `00:00:02,500`, `00:00:03,100` |
| Export.SrtTimeExample | app/adapters/export.py:20-35 | a time of a few seconds and whole tenths prints as `00:00:0s,d00` |
| Export.ZeroPadHundreds | app/adapters/export.py:35 | `{d*100:03d}` is the digit `d` followed by `00` |
| Export.SrtBlock | app/adapters/export.py:110-114 | a cue starts with its number and a newline and ends with its stripped text and a newline |
| Export.SrtBlocks | app/adapters/export.py:108-114 | one cue per segment |
| Export.SrtBlocksAt | app/adapters/export.py:110-114 | cue `i` is numbered `i + 1`, counting from 1, and formats segment `i` |
| Export.SrtBlocksSnoc | app/adapters/export.py:110-114 | one more segment appends its own cue |
| Export.TimesNonNegativePrefix | app/adapters/export.py:110-112 | segments before a valid position have valid times |
| Export.Cue | app/adapters/export.py:111-114 | a cue formats its two times and the stripped text, or raises the negative-time error when a time is negative |
| Export.SrtContent | app/adapters/export.py:108-117 | the SubRip loop gives the cues joined by newlines, or the error of the first negative time |
| Export.SrtDocument | app/adapters/export.py:108-117 | the document is refused exactly when some segment has a negative time, with the negative-time error |
| Export.SrtDocumentOfNoSegments | app/adapters/export.py:108-117 | a result without segments writes the empty document |
| Export.SrtBlockInDocument | app/adapters/export.py:108-117 | with valid times, the document contains every segment's cue |
| Export.SrtDocumentFailsOnNegative | app/adapters/export.py:108-112 | any negative time anywhere makes the SubRip export raise |
| Export.GetExporter | app/adapters/export.py:164-180 | lookup succeeds exactly for keys equal to some format's value and gives that format's adapter; any other key raises the "Не найден адаптер" ValueError naming the key |
| Export.GetExporterOfFormat | app/adapters/export.py:156-161 | each format finds its own adapter, and distinct formats find distinct adapters |
| Export.ExportOutcome | app/adapters/export.py:60-152 | a write failure is reported with the save prefix and the error text; with a write error nothing is written; only Word writes a paragraph, and it is the transcript |
| Export.ExportRaisesExactly | app/adapters/export.py:60-152 | an export raises exactly when the docx library is missing for Word, or a time is negative for SubRip; a write error is then reported and never raised |
| Export.ExportWritesContent | app/adapters/export.py:60-152 | without a write error, text and Markdown write the transcript unchanged, SubRip writes its cues joined by newlines, and Word writes one paragraph of the transcript |
| Export.Export | app/adapters/export.py:60-152 | one adapter's `export` agrees with the export outcome characterized above |
| Export.WriteText | app/adapters/export.py:72-76 | the content is written, or the IOError becomes the console report |
| Controller.ErrorStatus | app/controllers/transcription_controller.py:187-190 | an exception becomes one plain status, never `is_done` |
| Controller.Logged | app/controllers/transcription_controller.py:44-46 | each logged line becomes exactly one status with that line, in order |
| Controller.WorkerMessages | app/controllers/transcription_controller.py:163-195 | the worker's messages are never empty and end with `is_done` |
| Controller.GuiText | app/controllers/transcription_controller.py:197-212 | without timestamps the GUI shows the raw text; with timestamps and no segments it shows nothing |
| Controller.ShouldLogProgress | app/controllers/transcription_controller.py:270 | the last chunk is always logged, and no call before the fifth is unless it is the last |
| Controller.ProgressMessages | app/controllers/transcription_controller.py:266-273 | for a known chunk count: one progress value between 0.35 and 1, followed by a status exactly on logged calls; nothing for a zero count; never `is_done` nor a result |
| Controller.LoggedCallsOverRun | app/controllers/transcription_controller.py:270 | over a whole run of `t` chunks, `ceil(t / 5)` progress lines are logged |
| Controller.LoggedMultiples | app/controllers/transcription_controller.py:270 | before the last chunk, only the multiples of five are logged |
| Controller.TranscriptionController.constructor | app/controllers/transcription_controller.py:36-42 | a new controller is idle, with an empty queue, no result, no cancel event and timestamps off |
| Controller.TranscriptionController.LogToQueue | app/controllers/transcription_controller.py:44-46 | enqueues exactly one status and changes nothing else |
| Controller.TranscriptionController.SelectFile | app/controllers/transcription_controller.py:48-58 | while running, or when the dialog is cancelled, nothing changes; otherwise the file entry is set and the URL entry cleared |
| Controller.TranscriptionController.HandleSourcePath | app/controllers/transcription_controller.py:60-67 | the same guard, setting the file entry and clearing the URL entry |
| Controller.TranscriptionController.OnYoutubeEntryChange | app/controllers/transcription_controller.py:69-75 | a non-empty URL entry clears the file entry when idle |
| Controller.TranscriptionController.StartTranscription | app/controllers/transcription_controller.py:77-112 | ignored while running; with both entries empty, the error and `is_done` are enqueued; otherwise the running state is set and the worker gets the file entry or else the URL, whether it is YouTube, the parsed model size (whose ValueError propagates) and the task chosen |
| Controller.TranscriptionController.CancelTranscription | app/controllers/transcription_controller.py:114-117 | with an event, it is set and "Отмена операции..." is enqueued; without one, nothing happens |
| Controller.TranscriptionController.SaveResult | app/controllers/transcription_controller.py:119-161 | no result or empty text gives "Нечего сохранять."; SubRip without timestamps shows the refusal; a cancelled dialog does nothing; otherwise the format's adapter exports, and its outcome is reported; the worker state is untouched |
| Controller.TranscriptionController.TranscriptionWorker | app/controllers/transcription_controller.py:163-195 | the queue receives exactly the worker's message sequence; afterwards the controller is idle with no cancel event, and the last result is replaced exactly when the transcription step returned one |
| Controller.TranscriptionController.ProcessAndTranscribe | app/controllers/transcription_controller.py:166-234 | the try block: its messages, the exception it ends with, and the adapter registered for cleanup only when its constructor succeeded |
| Controller.TranscriptionController.CheckAndTranscribe | app/controllers/transcription_controller.py:169-185 | an empty path raises IOError; a cancelled run stops before transcribing; otherwise it transcribes and reports |
| Controller.TranscriptionController.ExecuteTranscription | app/controllers/transcription_controller.py:175-185 | the step's own messages, then "Готово!" with the GUI text, or with the cancellation notice when the event was set meanwhile; the result is stored |
| Controller.TranscriptionController.LogLines | app/controllers/transcription_controller.py:44-46 | each line from a `log_callback` becomes one status |
| Controller.TranscriptionController.CleanupResources | app/controllers/transcription_controller.py:284-291 | registered adapters are cleaned in slot order; a failing cleanup adds the "Не удалось очистить" status and the loop goes on |
| Controller.TranscriptionController.CleanupAdapter | app/controllers/transcription_controller.py:286-291 | one slot: nothing when empty; the cleanup's log, then the failure status if it raised |
| Controller.TranscriptionController.FormatResultForGui | app/controllers/transcription_controller.py:197-212 | the GUI text of a result under the stored timestamps flag |
| Controller.CleanupMessagesAreStatuses | app/controllers/transcription_controller.py:284-291 | cleanup only adds plain statuses, never `is_done` or a result |
| Controller.WorkerEndsWithDone | app/controllers/transcription_controller.py:191-193 | whatever happens, the worker's last message is `is_done` and it is the only one |
| Controller.TranscriptionNoneDone | app/controllers/transcription_controller.py:175-185 | the transcription part never enqueues `is_done` |
| Controller.TryNoneDone | app/controllers/transcription_controller.py:167-190 | the try block never enqueues `is_done` |
| Controller.WorkerSendsResultExactlyWhenTranscribed | app/controllers/transcription_controller.py:167-190 | a result text is sent exactly when a path came back, there was no cancellation beforehand, and the transcription returned; in that case the worker reports no error and sends "Готово!" |
| Controller.TryResultText | app/controllers/transcription_controller.py:167-185 | the try block ends with the "Готово!" message exactly when it transcribed, and otherwise carries no result |
| Controller.ReachedResultText | app/controllers/transcription_controller.py:175-185 | once the transcription step is reached, "Готово!" comes last exactly when it returned |
| Controller.WorkerCancelledBeforeTranscription | app/controllers/transcription_controller.py:172-193 | a cancellation before transcribing sends only the source status, the adapter's log, the cleanup and `is_done`, with no error |
| Controller.WorkerErrorClassification | app/controllers/transcription_controller.py:169-190 | an empty path is the IOError "Не удалось обработать..."; FFmpeg and IO errors are reported as "Ошибка:", any other as "Критическая ошибка:"; there is no error exactly when a path came back and the run was cancelled before transcribing or the transcription returned |
| Controller.CleanupOnlyRegistered | app/controllers/transcription_controller.py:284-291 | an adapter whose constructor failed is not cleaned; otherwise only the slot of the source's kind is cleaned |
| Controller.CleanupFailureExample | app/controllers/transcription_controller.py:289-291 | a failing YouTube cleanup yields its failure status, and the empty local slot yields nothing |
| Controller.KnownErrorExample | app/controllers/transcription_controller.py:187-188 | a missing FFmpeg sends the download status, "Ошибка: …" and `is_done` |
| Controller.CriticalErrorExample | app/controllers/transcription_controller.py:189-190 | an unexpected error sends the local status, "Критическая ошибка: …" and `is_done` |
| Controller.SuccessExample | app/controllers/transcription_controller.py:183-185 | a successful run sends "Готово!" with progress 1.0 and the text |
| Controller.GuiTextExample | app/controllers/transcription_controller.py:197-212 | two segments give two time-stamped lines joined by a newline |
| Controller.GuiHmsExamples | app/controllers/transcription_controller.py:205-208 | 1 to 4 seconds print as `00:00:01` to `00:00:04` |
| Controller.HmsOneDigit | app/controllers/transcription_controller.py:205-208 | a time below ten seconds prints as `00:00:0` followed by its digit |
| Controller.GuiTextHasEveryLine | app/controllers/transcription_controller.py:201-212 | with timestamps, the GUI text contains every segment's line |
| Controller.GuiTextMatchesTranscript | app/controllers/transcription_controller.py:197-212 | after stripping, the GUI text of a result is the service's transcript of that single reply, with and without timestamps |
| Controller.SaveReportsOnlyRaises | app/controllers/transcription_controller.py:153-161 | saving reports "Файл успешно сохранен" unless the export raised; a caught write error is still reported as saved |
| Realtime.Constants | app/services/realtime_transcription.py:14-24 | a block is 16000 samples and a batch is five blocks, or 80000 samples |
| Realtime.Step | app/services/realtime_transcription.py:64-98 | after exiting, nothing changes; at most one engine call, made only once a block fills the buffer; the queue only shrinks, results and statuses only grow |
| Realtime.StepKeepsBelowThreshold | app/services/realtime_transcription.py:64-91 | between iterations the buffer always stays below the batch size |
| Realtime.StepAppendsBlock | app/services/realtime_transcription.py:69-75 | a block that leaves the buffer short is appended, flattened, and nothing is reported |
| Realtime.StepAtThreshold | app/services/realtime_transcription.py:75-98 | a full buffer is transcribed whole: "Обработка фрагмента..."; a non-empty stripped text is reported; the buffer is emptied and "Ожидание аудио..." is reported; an engine exception is reported and ends the loop |
| Realtime.StepIdleAndStop | app/services/realtime_transcription.py:66-95 | an empty queue changes nothing, and a set stop flag ends the loop |
| Realtime.OncePerFiveBlocks | app/services/realtime_transcription.py:70-91 | with one-second blocks and an engine that does not raise, the engine is called once per five blocks, and the remainder stays buffered |
| Realtime.RunOnlyAppends | app/services/realtime_transcription.py:59-98 | results and statuses only grow, and so does the call count |
| Realtime.WorkerExample | app/services/realtime_transcription.py:75-91 | a single five-second block yields one result and the two statuses |
| Realtime.RealtimeTranscriptionService.constructor | app/services/realtime_transcription.py:32-49 | a new service has an empty queue, no stream, no thread, and the stop flag clear |
| Realtime.RealtimeTranscriptionService.AudioCallback | app/services/realtime_transcription.py:51-57 | a stream error status is reported, and the block is queued in every case |
| Realtime.RealtimeTranscriptionService.WorkerStep | app/services/realtime_transcription.py:66-98 | one iteration of the worker's loop is the step characterized by the lemmas above |
| Realtime.RealtimeTranscriptionService.Start | app/services/realtime_transcription.py:100-118 | "Запуск записи...", the flag cleared, the thread and stream started with an empty buffer, then "Ожидание аудио..." |
| Realtime.RealtimeTranscriptionService.Stop | app/services/realtime_transcription.py:120-139 | a second stop does nothing; the first reports "Остановка записи...", sets the flag, closes the stream, drops the thread, clears the queue and reports "Запись остановлена." |
| ModelCache.JoinPath | app/services/model_manager.py:22 | `os.path.join` of a relative name: it starts with the directory and ends with the name, with one `/` between them when the directory does not already end in one |
| ModelCache.DownloadRoot | app/services/model_manager.py:112-117 | a set `XDG_CACHE_HOME` is the root as it is; otherwise the root ends in `whisper` |
| ModelCache.DownloadRootDefault | app/services/model_manager.py:114 | without `XDG_CACHE_HOME`, the root is `<home>/.cache/whisper` |
| ModelCache.DownloadPath | app/services/model_manager.py:19-22 | the cached file is `<root>/<size>.pt`, under the root |
| ModelCache.PartPath | app/services/model_manager.py:73 | the temporary file is a different path that extends the target's path |
| ModelCache.ExpectedHash | app/services/model_manager.py:51 | `url.split("/")[-2]` has no `/`, or it raises when there are fewer than two parts |
| ModelCache.ExpectedHashOfUrl | app/services/model_manager.py:51 | the expected hash is the directory just above the file name |
| ModelCache.ExpectedHashWithoutSlash | app/services/model_manager.py:51 | a URL without `/` raises IndexError |
| ModelCache.RoundedMb | app/services/model_manager.py:78 | the announced size in MB is within half a megabyte of the exact size |
| ModelCache.MbLine | app/services/model_manager.py:96 | the megabyte line is "Загрузка: <count> / ", then the announced size, then " МБ" |
| ModelCache.LoggedMbs | app/services/model_manager.py:94-97 | at most one logged count per buffer, and at least one for a non-empty download |
| ModelCache.ProgressCalls | app/services/model_manager.py:89-91 | one progress call per buffer |
| ModelCache.FirstEmpty | app/services/model_manager.py:82-86 | the loop consumes the reads up to the first empty one |
| ModelCache.FirstEmptyIs | app/services/model_manager.py:82-86 | the first empty read is the one where the loop stopped |
| ModelCache.LoggedMbsIncrease | app/services/model_manager.py:94-97 | the logged megabyte counts strictly increase: the first is the first buffer's, the last is the whole download's |
| ModelCache.ProgressCallsCount | app/services/model_manager.py:89-91 | progress fires once per buffer, with the running byte count, ending at the whole download |
| ModelCache.MbLinesOfLoggedMbs | app/services/model_manager.py:94-97 | the logged lines are the megabyte lines of the logged counts, one for one |
| ModelCache.DownloadEventsProjections | app/services/model_manager.py:82-97 | the single ordered record of callback calls, taken apart, is exactly the progress calls and exactly the megabyte lines |
| ModelCache.ProgressProjection | app/services/model_manager.py:89-91 | the progress calls among the loop's events are one per buffer, in order |
| ModelCache.LogProjection | app/services/model_manager.py:94-97 | the log lines among the loop's events are the megabyte lines, in order |
| ModelCache.ProjectionsAppend | app/services/model_manager.py:82-97 | either projection of two runs of events is the projections of each, in order |
| ModelCache.LogFollowsProgress | app/services/model_manager.py:89-97 | every megabyte line comes right after the progress call of the buffer it reports, and shows that call's whole-megabyte count |
| ModelCache.OneBufferLogsOnce | app/services/model_manager.py:89-97 | a one-buffer download makes one progress call and then logs once |
| ModelCache.ReadStep | app/services/model_manager.py:83-97 | one more buffer extends the part file, adds one progress call, and then a log line exactly when the megabyte count advanced or it is the first buffer |
| ModelCache.AfterDownload | app/services/model_manager.py:99-110 | after a download the `.part` file is gone; on success the model file holds the received bytes; on failure the model file is as it was; no other file changes |
| ModelCache.ModelManager.constructor | app/services/model_manager.py:19-22 | the manager targets `<size>.pt` under the download root that `XDG_CACHE_HOME` or the home directory gives, with no calls made yet |
| ModelCache.ModelManager.IsModelDownloaded | app/services/model_manager.py:44-64 | a missing file is `False` and is not hashed; a URL without a hash raises; a hash mismatch logs the warning, deletes the file and gives `False`; a match gives `True` and leaves the disk unchanged |
| ModelCache.ModelManager.DownloadModel | app/services/model_manager.py:66-110 | the error is the download's exception, if any; the disk is the one after the download; the events are the loop's progress calls and megabyte lines, in call order, then the success line or the error line |
| ModelCache.ModelManager.ReadToPart | app/services/model_manager.py:82-97 | the `.part` file holds exactly the buffers before the first empty read, and the calls made are exactly theirs, in order |
| ModelCache.ModelManager.EnsureModelIsAvailable | app/services/model_manager.py:24-42 | a cached valid copy is returned untouched after "уже загружена"; a URL without a hash raises and nothing else happens; otherwise the result is the path or the download's exception, the mismatched copy and the `.part` are removed, a failed download leaves no model file, and the calls are the optional mismatch warning, "не найдена", the download's calls and its final line |
| ModelCache.ModelManager.GetModel | app/services/model_manager.py:120-140 | the result, disk and calls of `ensure_model_is_available`; after a successful one, the loading line, then the ready line and the path unless `load_model` raises, whose error is then the result |
| Cli.PreFlightCheck | app/main.py:27-62 | a source is accepted exactly when it is a URL naming YouTube or an existing regular file, and its message then says which |
| Cli.PreFlightUrl | app/main.py:31-43 | an `http://`/`https://` source is judged by its text alone and accepted exactly when it names youtube.com or youtu.be |
| Cli.PreFlightLocal | app/main.py:45-62 | any other source is accepted exactly when it exists and is a regular file, with the not-found and directory messages |
| Cli.PreFlightExamples | app/main.py:27-62 | a YouTube URL is accepted without the file system; a Vimeo URL is refused; a missing path is refused |
| Cli.NotYoutube | app/main.py:32 | a text without `y` names neither YouTube host |
| Cli.RoutingIsPrefixHttp | app/main.py:130 | the routing test as written reduces to starting with `http` |
| Cli.AcceptedUrlIsRouted | app/main.py:130 | every URL the pre-flight check accepts is routed to the downloader |
| Cli.LocalFileMisrouted | app/main.py:130 | the local file `https_talk.mp3` passes pre-flight as a local file, then is routed to the downloader |
| Cli.RoutingAgreesWithPreFlight | app/main.py:130 | with the corrected routing, an accepted source goes to the downloader exactly when it was accepted as a YouTube URL |
| Cli.DownloadOutcome | app/main.py:131-141 | a non-empty download path is transcribed; no path, an empty one or a missing FFmpeg exits with 1; any other error propagates with its message |
| Cli.AudioFor | app/main.py:126-141 | as written: a source not starting with `http` is transcribed itself, any other goes through the download |
| Cli.Command | app/main.py:126-141 | a failed pre-flight check exits with code 1 before anything else; otherwise the audio is chosen as written |
| Cli.CommandOutcomes | app/main.py:126-141 | for an accepted source: one not routed is transcribed itself; an accepted URL goes through the download, so a path it gives is never empty and an empty download or a missing FFmpeg exits with 1 |
| Cli.CommandMisroutes | app/main.py:130-141 | the accepted local file `https_talk.mp3` gets the download's outcome instead of its own transcription |
| Cli.AudioForIntended | app/main.py:126-141 | with the corrected routing, a source that is not a URL is transcribed itself and a URL goes through the download |
| Cli.CommandIntended | app/main.py:126-141 | the corrected command: a failed pre-flight check exits with 1, otherwise the audio is chosen with the corrected routing |
| Cli.CommandIntendedOutcomes | app/main.py:126-141 | with the corrected routing, an accepted local file is transcribed itself and an accepted YouTube URL goes through the download; the command as written agrees except on local files whose names start with `http` |
| Cli.MisroutedFileIntended | app/main.py:130 | the corrected command transcribes `https_talk.mp3` itself, and the command as written does not |
| Cli.FileName | app/main.py:173 | the final path component has no `/` and ends the path |
| Cli.Stem | app/main.py:173 | the stem begins the file name |
| Cli.Suffix | app/main.py:173 | the suffix ends the file name and is empty or starts with a dot |
| Cli.SuffixStart | app/main.py:173 | the suffix starts within the name |
| Cli.StemAndSuffix | app/main.py:173 | the stem followed by the suffix is the file name; the suffix is empty or a dot and a dot-free tail, and only an empty name has an empty stem |
| Cli.OutputFilename | app/main.py:173-174 | the output name starts with the audio's stem, ends with `.` and the format's value, and is a single path component |
| Cli.StemOf | app/main.py:173 | the stem of `<dir>/<stem>.<ext>` is `stem` |
| Cli.OutputFilenameExamples | app/main.py:173-174 | `/tmp/run/audio.wav` gives `audio.txt` and `audio.srt` |
| Localization.ActiveLanguage | app/core/localization.py:18-39 | the chosen language, when there is one, is a one-element list |
| Localization.SavedLanguageWins | app/core/localization.py:26-28 | a non-empty saved language wins regardless of the locale |
| Localization.LocaleLanguage | app/core/localization.py:31-34 | without one, a known locale gives its part before the first `_`, or the whole locale |
| Localization.NoLanguage | app/core/localization.py:35-39 | a failure or an empty locale gives `None` |
| Localization.LanguageFound | app/core/localization.py:18-39 | a language is found exactly when the saved setting or the locale is non-empty |
| Localization.ActiveLanguageExamples | app/core/localization.py:18-39 | `en_US` saved wins over `ru_RU`; `ru_RU` alone gives `ru`; an error or no locale gives `None` |

## Left out

- Rich console output, progress bars and GUI widgets are not modelled, apart
  from the values they are given (queue messages, log lines and the bar's
  total and completed counts).
- Threads and timing are not modelled:
  - the GUI worker runs synchronously;
  - the microphone worker runs one loop iteration per `WorkerStep`;
  - the one-second `get` timeout and the two-second `join` timeout are not
    modelled;
  - the daemon flag is not modelled.
- Floating point is not modelled:
  - times are whole milliseconds;
  - `round(seconds * 1000)` is taken as exact;
  - `np.ceil` of a float quotient is integer ceiling division;
  - the float32 conversion of samples is not modelled;
  - progress fractions are exact rationals.
- The speech engine, SHA-256, `whisper.load_model`, `urlopen` and
  `soundfile` are passed in:
  - the engine is a function of the request;
  - the hash is a function of the bytes;
  - `load_model` is the exception it raises, if any; the loaded model itself
    is not modelled, and `GetModel` returns the path it was given;
  - the stream is the list of what its reads return, with an optional final
    exception;
  - a file is its rate and frames.
- The model's URL is an input of `ModelManager`. The KeyError of
  `whisper._MODELS[size]` is not modelled.
- The 8192-byte read size is not modelled, because the buffers are an input.
- `pathlib` and `os.path` are modelled only as far as the paths are built:
  - `os.path.join` for a relative part;
  - the last `/` component;
  - `stem` on its last dot.

  Normalisation and OS errors from `remove` and `rename` are not modelled.
  `XDG_CACHE_HOME` and the home directory `expanduser("~")` gives are inputs
  of the `ModelManager` constructor.
- `os.makedirs` of the download root is not modelled, because the file system
  is a map from paths to file contents with no directories.
- `_download_model` logs "... успешно загружена и проверена." ("successfully
  downloaded and verified"), but nothing in it hashes the downloaded file. The
  model records that message as written.
- `_execute_transcription` (app/controllers/transcription_controller.py:236-282)
  is an input of the worker: the messages it enqueues, then its result or its
  exception. It calls `TranscriptionService.transcribe` with `task`,
  `cancel_event` and `progress_callback`, which that method does not accept,
  and it expects a dictionary where that method returns a string. The model
  therefore does not connect the two. The callback it defines (lines 266-273)
  is modelled on its own as `ProgressMessages`, and its model-progress
  callback (lines 244-247) is part of the input.
- `processed_path` of `None` is modelled as `""`. Both are falsy at line 169.
- `OutputFormat` in app/core/models.py has only `TXT` and `MD`, while
  app/adapters/export.py and the controller use `SRT` and `DOCX` too. The
  model uses the four formats the exporters are registered for.
  `TranscriptionTask` is not part of this model's sources. It is modelled as
  the two tasks the CLI and GUI choose between.
- The `SourceType`, `JobStatus` and `TranscriptionJob` models are not used by
  the modelled code and are not modelled.
- The timestamps of each chunk are relative to that chunk. The service adds no
  chunk offset, and the model keeps that behaviour.
- The `segments` of a result are always present in the model. The `.get`
  defaults are the empty list and the empty text.
- The optional callbacks (`log_callback`, `progress_callback`) are modelled as
  present. Their absence only suppresses messages. Both are recorded in one
  sequence of events in call order, as they reach the GUI's single queue.
- Module-level gettext setup in app/core/localization.py (lines 42-53) is
  not modelled. `load_language` and `locale.getdefaultlocale` are inputs.
- app/main.py is modelled only at these points:
  - `pre_flight_check`;
  - the routing test and the download exits;
  - the output filename;
  - the exit on a failed pre-flight check.

  Typer option parsing, model loading and the console summary are not modelled.
- The YouTube and local-file adapters, app/core/config.py and app/core/utils.py
  are not part of this model. Their behaviour enters only as inputs.
- ModelCache.RoundedMb: its contract bounds the rounding to half a megabyte.
  It does not state the half-to-even tie rule, which its body follows.
- ModelCache.ExpectedHash: its own contract only says the hash has no `/`.
  The exact component is stated by ExpectedHashOfUrl for URLs of the shape
  `<prefix>/<hash>/<name>`.
- Realtime.OncePerFiveBlocks: stated only for one-second blocks and an engine
  that never raises. Other block sizes and a raising engine are covered only
  one step at a time by StepAppendsBlock and StepAtThreshold.

## Findings

| source | as written | input that shows it | evidently intended | confidence | as-written member | corrected member |
|---|---|---|---|---|---|---|
| app/main.py:130 | a source is sent to the YouTube downloader when it starts with `http` (the `https` alternative is subsumed) | a local file named `https_talk.mp3`, which passes the pre-flight check as a local file | route exactly the sources the pre-flight check at line 31 treats as URLs, those starting with `http://` or `https://` | not executed | Cli.CommandMisroutes | Cli.CommandIntended |
