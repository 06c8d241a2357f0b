# TranscriptionGUI — a verified model of its coordination logic

TranscriptionGUI is a small desktop front-end for the faster-whisper speech
recogniser. The user picks an audio file, an output file, a language and a
model size, then presses start. A background worker loads the model,
transcribes the audio and writes one line per recognised segment. It reports
progress through a queue of `(type, payload)` messages. The window drains
that queue periodically, and a stop button raises a flag that the worker
polls.

This project models that coordination in Dafny and proves its guarantees.
The model is sequential:

- The stop flag is an oracle `stops: seq<bool>`. `stops[c]` is what the
  worker sees at its `c`-th check:
  - check 0 is the one after "Loading model";
  - check 1 is the one after the model is built;
  - check 2 is the one after `transcribe` returns;
  - check 3 + i comes before segment i;
  - the last check comes after the loop.

  Past the end of the oracle, the flag keeps its last value. `Monotone(stops)`
  says that the flag, once raised, stays raised. Within a job this holds,
  because only an accepted start clears the flag, and a start is refused
  while a run is in progress.
- The result queue is a `seq` of messages.
- The speech model, the audio stream and the file system are a `Backend`
  value. It says how each foreign call ends: built or raising, the segment
  texts yielded, and an optional exception from the stream. The worker
  records the calls it makes.
- The output file is `Some(lines)` once opened. It is opened in "w" mode,
  so its content is exactly the lines written.

Modules:

- `Text`: the parts of Python's string and POSIX path library that the
  source uses: `str.strip`, `str.rfind`, `os.path.basename`,
  `os.path.splitext`, and the decimal rendering of an `int`.
- `Catalog`: the tables of `utils.py`.
- `Rules`: the pure decisions of `main.py`: language hint, model
  resolution, and the proposed output name.
- `Messages`: the queue messages.
- `Worker`: `transcription_worker`. It has a staged specification
  (`Body`, `AfterCheck0/1/2`, `WorkerRun`) and imperative methods proved
  against it.
- `WorkerProperties`: what a run guarantees.
- `Gui`: the controller class, with its handlers and the drain loop.
- `GuiProperties`: the transitions and a whole start, run and drain cycle.

The worker's `try`/`except`/`finally` is modelled as follows:

- The guarded body ends in one of three ways, given by `Exit`:
  - it returns at a stop check;
  - it runs through;
  - it raises with the exception's text.
- The handler adds the error message and its "ERROR: " log line when the
  body raised.
- The finished marker always follows.

The model follows the code where the code says more than a summary would.
Stopping sets the status to "Stopping..." (main.py:146), in addition to
setting the flag. Also, an exception from the fallback construction in the
`KeyError` handler is not caught by the sibling `HFValidationError`
handler, so it reaches the outer handler.

## Model

| member | source | states |
|---|---|---|
| `Text.Strip` | main.py:200 | the stripped text is the slice left after the leading whitespace, the rest is whitespace, and it neither starts nor ends with whitespace |
| `Text.StripIdempotent` | main.py:200 | stripping a stripped text changes nothing |
| `Text.LastIndex` | main.py:291 | `rfind`: -1 or an index holding the character, with no occurrence after it |
| `Text.Basename` | main.py:179 | the base name is a '/'-free suffix of the path, preceded by '/' unless it is the whole path |
| `Text.SplitExtRoot` | main.py:291 | the root of `splitext` is a prefix of the path |
| `Text.SplitExtExt` | main.py:291 | the extension of `splitext` is a suffix of the path, and starts with '.' when it is not empty |
| `Text.SplitExtKeepsWholeOnlyWithoutExtension` | main.py:291 | nothing is split off only when every '.' of the last component has only '.' before it in that component, so an extension present is always removed |
| `Text.SplitExtParts` | main.py:291 | `splitext` root and extension put together give the path; a non-empty extension is one '.' followed by no '.' or '/'; the root's last component then keeps a character other than '.' |
| `Text.Decimal` | main.py:207 | the rendered count is a non-empty digit string without a leading zero (except for 0) |
| `Text.DecimalRoundTrip` | main.py:207 | reading the rendered count back gives the count |
| `Text.DecimalInjective` | main.py:207 | different counts are rendered differently |
| `Catalog.SlashToDashes` | utils.py:40-68 | the cache naming leaves a '/'-free name unchanged |
| `Catalog.SlashToDashesAppend` | utils.py:40-68 | the cache naming distributes over concatenation |
| `Catalog.DefaultModelAvailable` | utils.py:43 | "base", the default and fallback model, has an entry, and its path is the one listed |
| `Catalog.SameKeys` | utils.py:40-68 | both tables have the same twelve distinct model ids as keys |
| `Catalog.RepoIdsFollowConvention` | utils.py:55-68 | every repository id is "Systran/faster-whisper-" followed by the model id |
| `Catalog.LocalPathSpelledOut` | utils.py:40-53 | every local path is "./models/models--Systran--faster-whisper-" followed by its '/'-free id |
| `Catalog.LocalPathFollowsConvention` | utils.py:40-68 | every local path is "./models/models--" followed by the repository id with each '/' turned into "--" |
| `Catalog.LocalPathsDistinct` | utils.py:40-53 | no two models share a local directory |
| `Catalog.LanguageValuesDistinct` | utils.py:29-37 | there are eight languages, listed in order, each listed, with pairwise different values |
| `Catalog.OnlyAutoMeansNoHint` | utils.py:29-37 | `AUTO` is the only language whose value is "auto" |
| `Rules.ResolveLanguage` | main.py:153 | no hint exactly when the code is "auto"; any other code is passed through unchanged |
| `Rules.ResolveSelectableLanguage` | main.py:153 | of the selectable languages, only `AUTO` gives no hint, and every other one is passed as its value |
| `Rules.ResolveModel` | main.py:162-169 | resolution never fails: the chosen directory is always one of the table's directories |
| `Rules.ResolveModelCases` | main.py:162-169 | a known id gets its own directory and no log line; an unknown id gets the directory of "base" and a log line naming the id |
| `Rules.DefaultOutputPath` | main.py:291-292 | the proposed name ends in "_transcript.txt" and what precedes the suffix is a prefix of the input |
| `Rules.DefaultOutputPathShape` | main.py:291-292 | the proposed name is the input minus its extension (empty, or one '.'-started suffix in the last component) followed by "_transcript.txt"; the input is kept whole only when its last component has no extension |
| `Rules.DefaultOutputPathExample` | main.py:291-292 | only the last extension is removed ("/home/u/talk.final.wav" gives "/home/u/talk.final_transcript.txt") |
| `Rules.DefaultOutputPathDottedDirectory` | main.py:291-292 | a dot in a directory name does not start an extension ("/data.d/recording" keeps its whole name) |
| `Rules.DefaultOutputPathLeadingDot` | main.py:291-292 | a leading dot in the file name does not start an extension ("/home/u/.ogg" keeps its whole name) |
| `Rules.PathsAfterBrowse` | main.py:288-292 | a cancelled choice changes nothing; a chosen file becomes the input, and an output is proposed only when none is set |
| `Messages.Count` | main.py:211-217 | the count of a tag is at most the length, and zero exactly when no message carries the tag |
| `Worker.Processed` | main.py:194-202 | the processed count is the number of segments before the first check that sees the flag: no check before it sees the flag, and the check at it does when a segment is left |
| `Worker.ProcessedIs` | main.py:194-202 | that characterisation determines the count |
| `Worker.StopSeenStays` | main.py:145 | a flag that is never cleared, once seen, is seen at every later check |
| `Worker.BuildModel` | main.py:162-173 | the model-building `try` block, statement by statement, gives the log lines, the constructions and the escaping exception of `LoadModel` |
| `Worker.WriteSegments` | main.py:191-204 | the segment loop writes the stripped text plus newline of exactly the processed segments, counts them, and reports whether it stopped and which check comes next |
| `Worker.LoadThenTranscribe` | main.py:162-209 | the body after check 0 follows its staged specification |
| `Worker.TranscribeThenWrite` | main.py:178-209 | the body after check 1 follows its staged specification |
| `Worker.WriteThenReport` | main.py:191-209 | the body after check 2 follows its staged specification |
| `Worker.TranscriptionWorker` | main.py:148-217 | the messages, calls and file content of the worker are those of `WorkerRun` |
| `WorkerProperties.BodyShape` | main.py:150-209 | the guarded body emits only status and log lines, followed by the three completion messages exactly when it reaches them |
| `WorkerProperties.RunFromBody` | main.py:211-217 | the handler adds the error and its "ERROR: " log line exactly when the body raised; the finished marker always follows |
| `WorkerProperties.FinishedExactlyOnceLast` | main.py:148-217 | every run emits exactly one finished marker, as its last message, whether it ran through, returned at a stop or raised |
| `WorkerProperties.SuccessReport` | main.py:206-209 | a successful run ends with the segment count, the output path, the success message and the finished marker; it reports no error; the file holds one line per counted segment |
| `WorkerProperties.SuccessExactlyWhenUnstoppedAndUnfailing` | main.py:195-209 | success is reported if and only if no exception escapes and neither the three checks before the file is opened nor the check at line 206 sees the flag (a stop seen inside the loop alone does not prevent success) |
| `WorkerProperties.SuccessMeansNoCheckSawFlag` | main.py:195-209 | with a flag that is never cleared, a run reporting success saw the flag at none of its checks, the per-segment ones included |
| `WorkerProperties.ErrorExactlyWhenRaised` | main.py:211-214 | an error is reported if and only if an exception escaped; it is then followed by the "ERROR: " log and the finished marker, and there is no success |
| `WorkerProperties.StopBeforeFileIsOpened` | main.py:159-193 | a stop seen at any of the three checks before the file is opened gives no success, no error, no file and no open call |
| `WorkerProperties.OutputIsProcessedLines` | main.py:193-202 | the file is opened if and only if the three checks pass; it has content if and only if the open succeeds; the content is the lines of the processed segments |
| `WorkerProperties.StopDuringSegments` | main.py:195-197 | a stop seen before segment j logs the stop, leaves exactly j lines and reports no error; with a flag that stays raised, it reports no success |
| `WorkerProperties.SuccessWritesEverySegment` | main.py:195-209 | with a flag that stays raised, a successful run wrote every segment |
| `WorkerProperties.CleanRun` | main.py:150-217 | a run with a known model, no exception and no stop gives exactly these messages, these three calls and every segment in the file |
| `WorkerProperties.LoadModelCases` | main.py:162-173 | the three model-building paths: the first construction uses the resolved directory; an invalid hub id falls back to "base" from the hub; a directory that fails to load raises the backend's own exception text, and an unknown id is announced and its fallback's exception escapes with its text |
| `Gui.Controller.constructor` | main.py:21-31 | the window opens idle, with the flag clear, status "Ready to work", empty paths, language "auto", model "base" and an empty queue |
| `Gui.Controller.LogMessage` | main.py:103-108 | appends the message and a newline to the log and changes nothing else |
| `Gui.Controller.UpdateStatus` | main.py:110-112 | replaces the status line and changes nothing else |
| `Gui.Controller.ShowDialog` | main.py:120-125 | a message box is added to the record of boxes shown |
| `Gui.Controller.StartTranscription` | main.py:114-141 | the start handler performs the `Start` transition and reports whether a worker is launched |
| `Gui.Controller.StopTranscription` | main.py:143-146 | the stop handler performs the `Stop` transition |
| `Gui.Controller.TranscriptionFinished` | main.py:241-247 | the finished handler performs the `Finish` transition |
| `Gui.Controller.BrowseAudio` | main.py:281-292 | the path fields become `PathsAfterBrowse` of the chosen file, and nothing else changes |
| `Gui.Controller.RunWorker` | main.py:140-141 | a worker run with the current settings appends its messages to the queue, after those still pending |
| `Gui.Controller.CheckQueue` | main.py:219-239 | the drain empties the queue and applies every pending message in FIFO order |
| `GuiProperties.StartGuards` | main.py:114-125 | a worker is launched if and only if none is running and both paths are set; a refused start changes nothing but, for a missing path, adds the error box naming that path |
| `GuiProperties.StartAccepted` | main.py:128-138 | an accepted start clears the flag, marks the controller busy, shows "Initializing..." and empties the log, keeping the settings |
| `GuiProperties.StopIdempotent` | main.py:143-146 | stopping twice is stopping once; stopping touches only the flag and the status line |
| `GuiProperties.FinishResets` | main.py:241-247 | the finished handler leaves the controller idle and ready and touches nothing else |
| `GuiProperties.MissingPayloadIgnored` | main.py:225-232 | a status, log, error or success message without a payload is ignored |
| `Gui.Apply` | main.py:222-234 | one message leaves the flag and settings alone; a status message with a payload sets the status line to that payload; the finished marker makes the controller idle and ready; no other message changes the status, only a log message changes the log, and only the finished marker changes the busy flag |
| `Gui.ApplyAll` | main.py:221-237 | a drain leaves the flag and the settings alone, and the boxes already shown stay, unchanged, as a prefix of the boxes after it |
| `GuiProperties.ApplyAllAppend` | main.py:219-237 | draining two batches in turn equals draining them together |
| `GuiProperties.DrainEffect` | main.py:219-237 | draining appends each log payload and a newline to the log in order, and adds the error and success boxes in order |
| `GuiProperties.StatusKept` | main.py:219-237 | draining messages none of which is a status message with a payload or the finished marker leaves the status line unchanged |
| `GuiProperties.DrainStatus` | main.py:219-237 | after draining, the status line is the payload of the last status message with a payload, or the ready text when the finished marker came after it |
| `GuiProperties.DrainEndsIdle` | main.py:233-234 | a batch ending with the finished marker leaves the controller idle and ready |
| `GuiProperties.AlertsAppend` | main.py:229-232 | the boxes of concatenated batches are concatenated |
| `GuiProperties.RunAlerts` | main.py:209-232 | one run pops up only the success box when it succeeds, only the error box with the exception's text when it raises, and no box otherwise |
| `GuiProperties.StartRunDrain` | main.py:114-247 | after an accepted start, one run and the drain of its messages, the controller is idle and ready; its log is exactly that run's log lines; the new boxes are exactly the run's boxes |

## Left out

- All tkinter layout, widgets, button enabling and the progress bar. They are presentation only.
- `messagebox` calls are recorded as a list of dialogs shown. `filedialog` is replaced by the chosen file name, an input of `BrowseAudio`. `browse_output` is not part of this model.
- Threads, `threading.Event` and `queue.Queue` synchronisation. The worker runs sequentially (`RunWorker`), and the flag it polls is the oracle `stops`, not the controller's `stopFlag` field. Interleavings of the stop button with the worker's checks are covered by the choice of oracle.
- The `root.after` rescheduling of the drain and the `time.sleep` in the loop. They are timer plumbing.
- `WhisperModel`, `model.transcribe`, the segment iterator and `open`. They are foreign calls, modelled only by how they end (`Backend`). The model id given to the hub fallback is recorded as a call, not executed.
- A `KeyError` raised from inside the `WhisperModel` constructor for a known id. It would also take the fallback branch. The model treats every constructor failure of a known id as an escaping exception, except an invalid hub id.
- A failing `f.write` and a failure when the file is closed. Only the open and the segment stream can fail in the model.
- The `:.2f` float formatting of the language probability and the duration. These arrive as ready-made strings in `Info`.
- Message tags other than the five the worker sends. The controller's `if` chain ignores them.
- Python's `str(e)` is the exception's text as given in the `Backend`.
- `get_logger` and `AppState` in `utils.py`, and `download_models.py`. They are logging configuration, the tkinter variable holder, and a network download loop.
- Windows path semantics of `os.path`. The POSIX rules are modelled.
