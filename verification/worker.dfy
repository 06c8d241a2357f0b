/**
 * The background transcription worker of main.py (`transcription_worker`),
 * run sequentially. The cross-thread stop flag is read only at explicit
 * checks, so it is modelled as an oracle: `stops[c]` is what the `c`-th
 * check sees. Check 0 is the one after "Loading model", 1 the one after the
 * model is built, 2 the one after `transcribe` returns, then one check per
 * segment taken from the stream, then the final check before reporting
 * success. The speech model, the file system and the segment stream are a
 * `Backend` value saying how each foreign call ends.
 */
module Worker {
  import opened Wrappers
  import opened Text
  import opened Catalog
  import opened Rules
  import opened Messages

  /** The four settings the worker reads when it starts. */
  datatype Job = Job(audioPath: string, outputPath: string, language: string, modelSize: string)

  /** How a model construction ends: built, rejected as an invalid hub id, or any other exception. */
  datatype LoadResult = Loaded | InvalidRepoId(reason: string) | LoadRaised(reason: string)

  /** The summary metadata of a transcription; the numbers already rendered with two decimals. */
  datatype Info = Info(language: string, probability: string, duration: string)

  /**
   * How the foreign calls of one run end: the construction from a local
   * directory, the fallback construction of "base" from the hub, the call
   * to `transcribe`, opening the output file, and the segment stream (the
   * texts it yields, then either the end or an exception).
   */
  datatype Backend = Backend(
    load: LoadResult,
    hubLoad: Option<string>,
    transcribeFault: Option<string>,
    info: Info,
    openFault: Option<string>,
    segments: seq<string>,
    streamFault: Option<string>)

  /** The foreign calls the worker makes, with their arguments. */
  datatype Call =
    | LoadLocal(path: string)
    | LoadHub(name: string)
    | Transcribe(audio: string, language: Option<string>)
    | OpenForWrite(path: string)

  /**
   * What one run leaves behind: the messages put on the queue, the foreign
   * calls made, and the output file's lines (None when it was never opened;
   * it is opened in "w" mode, so its lines are exactly the ones written).
   */
  datatype Outcome = Outcome(events: seq<Message>, calls: seq<Call>, output: Option<seq<string>>)

  /** The stop flag as the worker sees it at its `c`-th check; past the oracle's end it keeps its last value. */
  function StopSeen(stops: seq<bool>, c: nat): bool {
    if c < |stops| then stops[c] else stops != [] && stops[|stops| - 1]
  }

  /** Within one job the flag is only ever raised, never cleared. */
  predicate Monotone(stops: seq<bool>) {
    forall i, j :: 0 <= i <= j < |stops| && stops[i] ==> stops[j]
  }

  lemma StopSeenStays(stops: seq<bool>, c: nat, d: nat)
    requires Monotone(stops) && c <= d && StopSeen(stops, c)
    ensures StopSeen(stops, d)
  {
  }

  const LoadingStatus: string := "Loading model..."
  const TranscribingStatus: string := "Transcribing..."
  const StoppedLog: string := "Transcription stopped by user"
  const SuccessText: string := "Transcription completed successfully!"

  function LoadingLog(id: string): string { "Loading model: " + id }
  function InvalidPathLog(id: string, reason: string): string {
    "Invalid model path '" + id + "': " + reason + ". Using 'base' instead."
  }
  function StartingLog(audio: string): string { "Starting transcription of file: " + Basename(audio) }
  function ErrorText(reason: string): string { "An error occurred: " + reason }

  function InfoLogs(info: Info): seq<Message> {
    [LogMsg("Detected language: " + info.language + " (probability: " + info.probability + ")"),
     LogMsg("Approximate duration: " + info.duration + " seconds")]
  }

  function CompletionLogs(job: Job, processed: nat): seq<Message> {
    [LogMsg("Transcription completed! Processed segments: " + Decimal(processed)),
     LogMsg("Result saved to: " + job.outputPath),
     SuccessMsg(SuccessText)]
  }

  /** The line written for each segment: its stripped text and a newline. */
  function Lines(texts: seq<string>): seq<string> {
    seq(|texts|, i requires 0 <= i < |texts| => Strip(texts[i]) + "\n")
  }

  /**
   * How many segments are written when the per-segment checks start at
   * check `c`: the segments before the first one at which the flag is seen.
   */
  function Processed(segments: seq<string>, stops: seq<bool>, c: nat): (k: nat)
    ensures k <= |segments|
    ensures forall d :: c <= d < c + k ==> !StopSeen(stops, d)
    ensures k < |segments| ==> StopSeen(stops, c + k)
    decreases |segments|
  {
    if segments == [] || StopSeen(stops, c) then 0 else 1 + Processed(segments[1..], stops, c + 1)
  }

  /** `Processed` is determined by its contract. */
  lemma ProcessedIs(segments: seq<string>, stops: seq<bool>, c: nat, k: nat)
    requires k <= |segments|
    requires forall d :: c <= d < c + k ==> !StopSeen(stops, d)
    requires k < |segments| ==> StopSeen(stops, c + k)
    ensures Processed(segments, stops, c) == k
  {
  }

  /** The model-building step: the log lines it adds, the constructions it calls, the exception that escapes it. */
  datatype Loading = Loading(logs: seq<Message>, calls: seq<Call>, fault: Option<string>)

  function LoadModel(id: string, b: Backend): Loading {
    var choice := ResolveModel(id);
    var logs := if choice.notice == None then [] else [LogMsg(choice.notice.value)];
    var calls := [LoadLocal(choice.path)];
    match b.load
    case Loaded => Loading(logs, calls, None)
    case LoadRaised(e) => Loading(logs, calls, Some(e))
    case InvalidRepoId(e) =>
      if choice.notice == None then Loading([LogMsg(InvalidPathLog(id, e))], calls + [LoadHub("base")], b.hubLoad)
      else Loading(logs, calls, Some(e))
  }

  /** How the guarded body of the worker ends. */
  datatype Exit = Returned | RanThrough | Raised(reason: string)

  datatype Attempt = Attempt(run: Outcome, exit: Exit)

  /**
   * The guarded body of the worker, up to where the exception handler and
   * the final message take over. It is split where the stop flag is
   * checked; each part continues from the messages and calls so far.
   */
  function Body(job: Job, b: Backend, stops: seq<bool>): Attempt {
    var events := [StatusMsg(LoadingStatus), LogMsg(LoadingLog(job.modelSize))];
    if StopSeen(stops, 0) then Attempt(Outcome(events, [], None), Returned)
    else AfterCheck0(job, b, stops, events)
  }

  /** From building the model to the check after it. */
  function AfterCheck0(job: Job, b: Backend, stops: seq<bool>, events: seq<Message>): Attempt {
    var m := LoadModel(job.modelSize, b);
    if m.fault != None then Attempt(Outcome(events + m.logs, m.calls, None), Raised(m.fault.value))
    else if StopSeen(stops, 1) then Attempt(Outcome(events + m.logs, m.calls, None), Returned)
    else AfterCheck1(job, b, stops, events + m.logs, m.calls)
  }

  /** From announcing the transcription to the check after `transcribe`. */
  function AfterCheck1(job: Job, b: Backend, stops: seq<bool>, events: seq<Message>, calls: seq<Call>): Attempt {
    var events' := events + [StatusMsg(TranscribingStatus), LogMsg(StartingLog(job.audioPath))];
    var calls' := calls + [Transcribe(job.audioPath, ResolveLanguage(job.language))];
    if b.transcribeFault != None then Attempt(Outcome(events', calls', None), Raised(b.transcribeFault.value))
    else if StopSeen(stops, 2) then Attempt(Outcome(events', calls', None), Returned)
    else AfterCheck2(job, b, stops, events' + InfoLogs(b.info), calls' + [OpenForWrite(job.outputPath)])
  }

  /** From opening the output file to the end of the body. */
  function AfterCheck2(job: Job, b: Backend, stops: seq<bool>, events: seq<Message>, calls: seq<Call>): Attempt {
    if b.openFault != None then Attempt(Outcome(events, calls, None), Raised(b.openFault.value))
    else
      var k := Processed(b.segments, stops, 3);
      var file := Some(Lines(b.segments[..k]));
      if k < |b.segments| then
        var stopped := events + [LogMsg(StoppedLog)];
        Attempt(Outcome(if StopSeen(stops, 4 + k) then stopped else stopped + CompletionLogs(job, k), calls, file), RanThrough)
      else if b.streamFault != None then Attempt(Outcome(events, calls, file), Raised(b.streamFault.value))
      else Attempt(Outcome(if StopSeen(stops, 3 + k) then events else events + CompletionLogs(job, k), calls, file), RanThrough)
  }

  /** A whole run: the body, the handler's two messages if an exception escaped it, then always the finished message. */
  function WorkerRun(job: Job, b: Backend, stops: seq<bool>): Outcome {
    var a := Body(job, b, stops);
    var handled := match a.exit
      case Raised(e) => a.run.events + [ErrorMsg(ErrorText(e)), LogMsg("ERROR: " + ErrorText(e))]
      case _ => a.run.events;
    Outcome(handled + [FinishedMsg], a.run.calls, a.run.output)
  }

  /**
   * The model-building `try` block: look the id up, build from the local
   * directory, and on an unknown id (`KeyError`) or an invalid hub id fall
   * back to "base".
   */
  method BuildModel(modelSize: string, b: Backend) returns (logs: seq<Message>, calls: seq<Call>, fault: Option<string>)
    ensures Loading(logs, calls, fault) == LoadModel(modelSize, b)
  {
    logs, calls, fault := [], [], None;
    ResolveModelCases(modelSize);
    if modelSize in AvailableModels {
      calls := calls + [LoadLocal(AvailableModels[modelSize])];
      match b.load {
        case Loaded =>
        case InvalidRepoId(e) =>
          logs := logs + [LogMsg(InvalidPathLog(modelSize, e))];
          calls := calls + [LoadHub("base")];
          fault := b.hubLoad;
        case LoadRaised(e) =>
          fault := Some(e);
      }
    } else {
      logs := logs + [LogMsg(NotFoundNotice(modelSize))];
      calls := calls + [LoadLocal(AvailableModels["base"])];
      if b.load != Loaded {
        fault := Some(b.load.reason);
      }
    }
  }

  /**
   * The `with open(...)` loop: before each segment the flag is checked
   * (checks 3, 4, ...); a set flag logs the stop and leaves the loop,
   * otherwise the segment's stripped text is written as one line.
   * `check` is the index of the check that comes next.
   */
  method WriteSegments(segments: seq<string>, stops: seq<bool>)
    returns (lines: seq<string>, processed: nat, stopped: bool, check: nat)
    ensures processed == Processed(segments, stops, 3)
    ensures lines == Lines(segments[..processed]) && |lines| == processed
    ensures stopped <==> processed < |segments|
    ensures check == 3 + processed + (if stopped then 1 else 0)
  {
    lines, processed, stopped, check := [], 0, false, 3;
    var i := 0;
    while i < |segments|
      invariant 0 <= i <= |segments|
      invariant processed == i && check == 3 + i
      invariant lines == Lines(segments[..i])
      invariant forall d :: 3 <= d < 3 + i ==> !StopSeen(stops, d)
    {
      if StopSeen(stops, check) {
        stopped := true;
        check := check + 1;
        break;
      }
      assert Lines(segments[..i + 1]) == lines + [Strip(segments[i]) + "\n"];
      lines := lines + [Strip(segments[i]) + "\n"];
      processed := processed + 1;
      check := check + 1;
      i := i + 1;
    }
    ProcessedIs(segments, stops, 3, processed);
  }

  /**
   * The guarded body from building the model on (what follows check 0);
   * `exit` says whether it returned at a stop check, ran to its end, or
   * raised an exception.
   */
  method LoadThenTranscribe(job: Job, b: Backend, stops: seq<bool>, events0: seq<Message>)
    returns (events: seq<Message>, calls: seq<Call>, output: Option<seq<string>>, exit: Exit)
    ensures Attempt(Outcome(events, calls, output), exit) == AfterCheck0(job, b, stops, events0)
  {
    var logs, fault;
    logs, calls, fault := BuildModel(job.modelSize, b);
    events, output := events0 + logs, None;
    if fault != None {
      exit := Raised(fault.value);
    } else if StopSeen(stops, 1) {
      exit := Returned;
    } else {
      events, calls, output, exit := TranscribeThenWrite(job, b, stops, events, calls);
    }
  }

  /** The guarded body from announcing the transcription on (what follows check 1). */
  method TranscribeThenWrite(job: Job, b: Backend, stops: seq<bool>, events0: seq<Message>, calls0: seq<Call>)
    returns (events: seq<Message>, calls: seq<Call>, output: Option<seq<string>>, exit: Exit)
    ensures Attempt(Outcome(events, calls, output), exit) == AfterCheck1(job, b, stops, events0, calls0)
  {
    var language := ResolveLanguage(job.language);
    events := events0 + [StatusMsg(TranscribingStatus), LogMsg(StartingLog(job.audioPath))];
    calls := calls0 + [Transcribe(job.audioPath, language)];
    output := None;
    if b.transcribeFault != None {
      exit := Raised(b.transcribeFault.value);
    } else if StopSeen(stops, 2) {
      exit := Returned;
    } else {
      events, calls, output, exit :=
        WriteThenReport(job, b, stops, events + InfoLogs(b.info), calls + [OpenForWrite(job.outputPath)]);
    }
  }

  /** The guarded body from opening the output file on (what follows check 2). */
  method WriteThenReport(job: Job, b: Backend, stops: seq<bool>, events0: seq<Message>, calls0: seq<Call>)
    returns (events: seq<Message>, calls: seq<Call>, output: Option<seq<string>>, exit: Exit)
    ensures Attempt(Outcome(events, calls, output), exit) == AfterCheck2(job, b, stops, events0, calls0)
  {
    events, calls, output := events0, calls0, None;
    if b.openFault != None {
      exit := Raised(b.openFault.value);
      return;
    }
    var lines, processed, stopped, check := WriteSegments(b.segments, stops);
    output := Some(lines);
    if stopped {
      events := events + [LogMsg(StoppedLog)];
    } else if b.streamFault != None {
      exit := Raised(b.streamFault.value);
      return;
    }
    if !StopSeen(stops, check) {
      events := events + CompletionLogs(job, processed);
    }
    exit := RanThrough;
  }

  /**
   * `transcription_worker`: the guarded body (returning early at check 0 or
   * continuing), then the `except` clause when an exception escaped it, then
   * the `finally` clause's finished message.
   */
  method TranscriptionWorker(job: Job, b: Backend, stops: seq<bool>)
    returns (events: seq<Message>, calls: seq<Call>, output: Option<seq<string>>)
    ensures Outcome(events, calls, output) == WorkerRun(job, b, stops)
  {
    var exit;
    events := [StatusMsg(LoadingStatus), LogMsg(LoadingLog(job.modelSize))];
    if StopSeen(stops, 0) {
      calls, output, exit := [], None, Returned;
    } else {
      events, calls, output, exit := LoadThenTranscribe(job, b, stops, events);
    }
    if exit.Raised? {
      var message := ErrorText(exit.reason);
      events := events + [ErrorMsg(message), LogMsg("ERROR: " + message)];
    }
    events := events + [FinishedMsg];
  }
}
