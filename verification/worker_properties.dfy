/**
 * What a run of `transcription_worker` guarantees: how it ends, when it
 * reports success or an error, and what the output file holds.
 */
module WorkerProperties {
  import opened Wrappers
  import opened Catalog
  import opened Rules
  import opened Messages
  import opened Worker

  /** Only status and log messages: nothing the user is alerted to, no finished marker. */
  predicate Quiet(events: seq<Message>) {
    forall i :: 0 <= i < |events| ==> events[i].tag == Status || events[i].tag == Log
  }

  /** `events` ends with the three completion messages for `k` segments, and nothing before them is loud. */
  predicate Reported(events: seq<Message>, job: Job, k: nat) {
    && |events| >= 3
    && events[|events| - 3..] == CompletionLogs(job, k)
    && Quiet(events[..|events| - 3])
  }

  /** The run gets past the three checks before the output file is opened. */
  predicate PassesPreLoopChecks(job: Job, b: Backend, stops: seq<bool>) {
    && !StopSeen(stops, 0)
    && LoadModel(job.modelSize, b).fault == None
    && !StopSeen(stops, 1)
    && b.transcribeFault == None
    && !StopSeen(stops, 2)
  }

  /** The check made after the segment loop (line 206): one past the checks the loop made. */
  function FinalCheck(b: Backend, stops: seq<bool>): nat {
    var k := Processed(b.segments, stops, 3);
    if k < |b.segments| then 4 + k else 3 + k
  }

  /** From opening the output file on, the conditions for reaching the success report. */
  predicate SucceedsAfterCheck2(b: Backend, stops: seq<bool>) {
    && b.openFault == None
    && (Processed(b.segments, stops, 3) < |b.segments| || b.streamFault == None)
    && !StopSeen(stops, FinalCheck(b, stops))
  }

  /** The conditions under which the body reaches the success report. */
  predicate Succeeds(job: Job, b: Backend, stops: seq<bool>) {
    PassesPreLoopChecks(job, b, stops) && SucceedsAfterCheck2(b, stops)
  }

  lemma QuietAppend(a: seq<Message>, b: seq<Message>)
    requires Quiet(a) && Quiet(b)
    ensures Quiet(a + b)
  {
  }

  lemma ReportedAppend(events: seq<Message>, job: Job, k: nat)
    requires Quiet(events)
    ensures Reported(events + CompletionLogs(job, k), job, k)
  {
    var e := events + CompletionLogs(job, k);
    assert e[..|e| - 3] == events;
    assert e[|e| - 3..] == CompletionLogs(job, k);
  }

  lemma AfterCheck2Shape(job: Job, b: Backend, stops: seq<bool>, events: seq<Message>, calls: seq<Call>)
    requires Quiet(events)
    ensures var a := AfterCheck2(job, b, stops, events, calls);
      if SucceedsAfterCheck2(b, stops) then Reported(a.run.events, job, Processed(b.segments, stops, 3)) && a.exit == RanThrough
      else Quiet(a.run.events)
  {
    var k := Processed(b.segments, stops, 3);
    QuietAppend(events, [LogMsg(StoppedLog)]);
    ReportedAppend(events, job, k);
    ReportedAppend(events + [LogMsg(StoppedLog)], job, k);
  }

  /** Past the transcription call and the stop check before opening the file, the run continues as from that check. */
  lemma AfterCheck1Continues(job: Job, b: Backend, stops: seq<bool>, events: seq<Message>, calls: seq<Call>)
    requires b.transcribeFault == None && !StopSeen(stops, 2)
    ensures AfterCheck1(job, b, stops, events, calls)
      == AfterCheck2(job, b, stops,
           events + [StatusMsg(TranscribingStatus), LogMsg(StartingLog(job.audioPath))] + InfoLogs(b.info),
           calls + [Transcribe(job.audioPath, ResolveLanguage(job.language))] + [OpenForWrite(job.outputPath)])
  {
  }

  /** A fault in the transcription call or the stop check before opening the file ends the body with two more messages. */
  lemma AfterCheck1Ends(job: Job, b: Backend, stops: seq<bool>, events: seq<Message>, calls: seq<Call>)
    requires b.transcribeFault != None || StopSeen(stops, 2)
    ensures AfterCheck1(job, b, stops, events, calls).run.events
      == events + [StatusMsg(TranscribingStatus), LogMsg(StartingLog(job.audioPath))]
  {
  }

  /** The detected-language and duration lines are log messages. */
  lemma InfoLogsQuiet(info: Info)
    ensures Quiet(InfoLogs(info))
  {
    assert InfoLogs(info)[0].tag == Log && InfoLogs(info)[1].tag == Log;
  }

  /** A status line, a log line and quiet messages after quiet messages stay quiet. */
  lemma QuietAfterTranscribe(events: seq<Message>, status: Message, log: Message, rest: seq<Message>)
    requires Quiet(events) && status.tag == Status && log.tag == Log && Quiet(rest)
    ensures Quiet(events + [status, log])
    ensures Quiet(events + [status, log] + rest)
  {
    QuietAppend(events, [status, log]);
    QuietAppend(events + [status, log], rest);
  }

  lemma AfterCheck1Shape(job: Job, b: Backend, stops: seq<bool>, events: seq<Message>, calls: seq<Call>)
    requires Quiet(events)
    ensures var a := AfterCheck1(job, b, stops, events, calls);
      if b.transcribeFault == None && !StopSeen(stops, 2) && SucceedsAfterCheck2(b, stops) then
        Reported(a.run.events, job, Processed(b.segments, stops, 3)) && a.exit == RanThrough
      else Quiet(a.run.events)
  {
    InfoLogsQuiet(b.info);
    QuietAfterTranscribe(events, StatusMsg(TranscribingStatus), LogMsg(StartingLog(job.audioPath)), InfoLogs(b.info));
    if b.transcribeFault == None && !StopSeen(stops, 2) {
      AfterCheck1Continues(job, b, stops, events, calls);
      AfterCheck2Shape(job, b, stops,
        events + [StatusMsg(TranscribingStatus), LogMsg(StartingLog(job.audioPath))] + InfoLogs(b.info),
        calls + [Transcribe(job.audioPath, ResolveLanguage(job.language))] + [OpenForWrite(job.outputPath)]);
    } else {
      AfterCheck1Ends(job, b, stops, events, calls);
    }
  }

  lemma AfterCheck0Shape(job: Job, b: Backend, stops: seq<bool>, events: seq<Message>)
    requires Quiet(events)
    ensures var a := AfterCheck0(job, b, stops, events);
      if LoadModel(job.modelSize, b).fault == None && !StopSeen(stops, 1) && b.transcribeFault == None
        && !StopSeen(stops, 2) && SucceedsAfterCheck2(b, stops) then
        Reported(a.run.events, job, Processed(b.segments, stops, 3)) && a.exit == RanThrough
      else Quiet(a.run.events)
  {
    var m := LoadModel(job.modelSize, b);
    QuietAppend(events, m.logs);
    AfterCheck1Shape(job, b, stops, events + m.logs, m.calls);
  }

  /**
   * The guarded body's messages are status and log lines only, followed,
   * exactly when the run gets that far, by the three completion messages.
   */
  lemma BodyShape(job: Job, b: Backend, stops: seq<bool>)
    ensures var a := Body(job, b, stops);
      if Succeeds(job, b, stops) then Reported(a.run.events, job, Processed(b.segments, stops, 3)) && a.exit == RanThrough
      else Quiet(a.run.events)
  {
    AfterCheck0Shape(job, b, stops, [StatusMsg(LoadingStatus), LogMsg(LoadingLog(job.modelSize))]);
  }

  /** A reported run alerts success once, at its end, and never an error. */
  lemma ReportedTags(events: seq<Message>, job: Job, k: nat)
    requires Reported(events, job, k)
    ensures Has(events, Success) && !Has(events, Error) && !Has(events, Finished)
    ensures forall i :: 0 <= i < |events| - 1 ==> events[i].tag != Success
  {
    var n := |events|;
    assert events[n - 1] == events[n - 3..][2];
    forall i | 0 <= i < n
      ensures events[i].tag != Error && events[i].tag != Finished && (i < n - 1 ==> events[i].tag != Success)
    {
      if i < n - 3 {
        assert events[i] == events[..n - 3][i];
      } else {
        assert events[i] == events[n - 3..][i - (n - 3)];
      }
    }
  }

  /**
   * Every run puts exactly one finished marker on the queue, as its last
   * message, whether it ran through, returned at a stop check or raised.
   */
  lemma FinishedExactlyOnceLast(job: Job, b: Backend, stops: seq<bool>)
    ensures var e := WorkerRun(job, b, stops).events;
      |e| > 0 && e[|e| - 1] == FinishedMsg && Count(e, Finished) == 1
  {
    var a := Body(job, b, stops);
    BodyShape(job, b, stops);
    if Succeeds(job, b, stops) {
      ReportedTags(a.run.events, job, Processed(b.segments, stops, 3));
    }
    var e := WorkerRun(job, b, stops).events;
    var handled := e[..|e| - 1];
    assert forall i :: 0 <= i < |handled| ==> handled[i].tag != Finished by {
      forall i | 0 <= i < |handled|
        ensures handled[i].tag != Finished
      {
        if i < |a.run.events| {
          assert handled[i] == a.run.events[i];
        }
      }
    }
    assert e == handled + [FinishedMsg];
    CountAppend(handled, [FinishedMsg], Finished);
  }

  /** The handler adds the error message and its log line exactly when the body raised; the finished marker always follows. */
  lemma RunFromBody(job: Job, b: Backend, stops: seq<bool>)
    ensures var a := Body(job, b, stops);
      var r := WorkerRun(job, b, stops);
      && r.calls == a.run.calls
      && r.output == a.run.output
      && (!a.exit.Raised? ==> r.events == a.run.events + [FinishedMsg])
      && (a.exit.Raised? ==> var message := ErrorText(a.exit.reason);
            r.events == a.run.events + [ErrorMsg(message), LogMsg("ERROR: " + message), FinishedMsg])
  {
    var a := Body(job, b, stops);
    if a.exit.Raised? {
      var message := ErrorText(a.exit.reason);
      assert a.run.events + [ErrorMsg(message), LogMsg("ERROR: " + message)] + [FinishedMsg]
        == a.run.events + [ErrorMsg(message), LogMsg("ERROR: " + message), FinishedMsg];
    }
  }

  lemma ReportedThenFinished(events: seq<Message>, job: Job, k: nat)
    requires Reported(events, job, k)
    ensures var e := events + [FinishedMsg];
      && Has(e, Success) && !Has(e, Error)
      && e[|e| - 4..] == CompletionLogs(job, k) + [FinishedMsg]
  {
    var e := events + [FinishedMsg];
    ReportedTags(events, job, k);
    assert e[|e| - 4..] == events[|events| - 3..] + [FinishedMsg];
    var i :| 0 <= i < |events| && events[i].tag == Success;
    assert e[i] == events[i];
    forall j | 0 <= j < |e|
      ensures e[j].tag != Error
    {
      if j < |events| {
        assert e[j] == events[j];
      }
    }
  }

  /**
   * When the body reaches its success report, that report is the segment
   * count, the output path and the success message, right before the
   * finished marker; no error is reported and the file holds one line per
   * processed segment.
   */
  lemma SuccessReport(job: Job, b: Backend, stops: seq<bool>)
    requires Succeeds(job, b, stops)
    ensures var r := WorkerRun(job, b, stops);
      var k := Processed(b.segments, stops, 3);
      && Has(r.events, Success)
      && |r.events| >= 4
      && r.events[|r.events| - 4..] == CompletionLogs(job, k) + [FinishedMsg]
      && !Has(r.events, Error)
      && r.output == Some(Lines(b.segments[..k]))
  {
    var k := Processed(b.segments, stops, 3);
    BodyShape(job, b, stops);
    RunFromBody(job, b, stops);
    ReportedThenFinished(Body(job, b, stops).run.events, job, k);
  }

  /**
   * Success is reported exactly when no exception escapes the body and the
   * flag is seen neither at the three checks before the segment loop nor at
   * the check after it (line 206); a stop seen inside the loop alone does
   * not prevent it.
   */
  lemma SuccessExactlyWhenUnstoppedAndUnfailing(job: Job, b: Backend, stops: seq<bool>)
    ensures Has(WorkerRun(job, b, stops).events, Success) <==> Succeeds(job, b, stops)
  {
    if Succeeds(job, b, stops) {
      SuccessReport(job, b, stops);
    } else {
      var a := Body(job, b, stops);
      var r := WorkerRun(job, b, stops);
      BodyShape(job, b, stops);
      RunFromBody(job, b, stops);
      forall i | 0 <= i < |r.events|
        ensures r.events[i].tag != Success
      {
        if i < |a.run.events| {
          assert r.events[i] == a.run.events[i];
        }
      }
    }
  }

  lemma QuietThenHandled(events: seq<Message>, message: string)
    requires Quiet(events)
    ensures var e := events + [ErrorMsg(message), LogMsg("ERROR: " + message), FinishedMsg];
      && Has(e, Error) && !Has(e, Success)
      && e[|e| - 3..] == [ErrorMsg(message), LogMsg("ERROR: " + message), FinishedMsg]
  {
    var e := events + [ErrorMsg(message), LogMsg("ERROR: " + message), FinishedMsg];
    assert e[|events|].tag == Error;
  }

  lemma NoErrorThenFinished(events: seq<Message>)
    requires forall i :: 0 <= i < |events| ==> events[i].tag != Error
    ensures !Has(events + [FinishedMsg], Error)
  {
  }

  /**
   * An error is reported exactly when an exception escaped the body; it
   * carries the exception's text, is followed by the same text behind
   * "ERROR: " in the log and then the finished marker, and such a run
   * never reports success.
   */
  lemma ErrorExactlyWhenRaised(job: Job, b: Backend, stops: seq<bool>)
    ensures var a := Body(job, b, stops);
      var r := WorkerRun(job, b, stops);
      && (Has(r.events, Error) <==> a.exit.Raised?)
      && (a.exit.Raised? ==>
            var message := ErrorText(a.exit.reason);
            && !Has(r.events, Success)
            && |r.events| >= 3
            && r.events[|r.events| - 3..] == [ErrorMsg(message), LogMsg("ERROR: " + message), FinishedMsg])
  {
    var a := Body(job, b, stops);
    BodyShape(job, b, stops);
    RunFromBody(job, b, stops);
    if a.exit.Raised? {
      QuietThenHandled(a.run.events, ErrorText(a.exit.reason));
    } else if Succeeds(job, b, stops) {
      ReportedTags(a.run.events, job, Processed(b.segments, stops, 3));
      NoErrorThenFinished(a.run.events);
    } else {
      NoErrorThenFinished(a.run.events);
    }
  }

  /**
   * A stop seen at one of the three checks before the output file is
   * opened (each reached without an exception) ends the run quietly: no
   * success, no error, the file is never opened and nothing is written.
   */
  lemma StopBeforeFileIsOpened(job: Job, b: Backend, stops: seq<bool>, c: nat)
    requires c < 3 && StopSeen(stops, c)
    requires forall d :: 0 <= d < c ==> !StopSeen(stops, d)
    requires c >= 1 ==> LoadModel(job.modelSize, b).fault == None
    requires c >= 2 ==> b.transcribeFault == None
    ensures var r := WorkerRun(job, b, stops);
      && !Has(r.events, Success) && !Has(r.events, Error)
      && r.output == None
      && forall i :: 0 <= i < |r.calls| ==> !r.calls[i].OpenForWrite?
  {
    var a := Body(job, b, stops);
    BodyShape(job, b, stops);
    RunFromBody(job, b, stops);
    assert !StopSeen(stops, 0) ==> c >= 1;
    assert c >= 1 && !StopSeen(stops, 1) ==> c >= 2;
    assert a.exit == Returned;
    NoErrorThenFinished(a.run.events);
  }

  /**
   * The output file is opened exactly when the three checks before it are
   * passed, and holds something exactly when that open succeeds: one line
   * (stripped text and newline) per segment before the first one at whose
   * check the flag is seen.
   */
  lemma OutputIsProcessedLines(job: Job, b: Backend, stops: seq<bool>)
    ensures var r := WorkerRun(job, b, stops);
      && (OpenForWrite(job.outputPath) in r.calls <==> PassesPreLoopChecks(job, b, stops))
      && (r.output != None <==> PassesPreLoopChecks(job, b, stops) && b.openFault == None)
      && (r.output != None ==> r.output.value == Lines(b.segments[..Processed(b.segments, stops, 3)]))
  {
    RunFromBody(job, b, stops);
  }

  /**
   * A stop seen at the check before segment `j` (all earlier ones unset)
   * logs the stop, leaves exactly the first `j` lines in the file and
   * reports no error; with a flag that stays raised there is no success.
   */
  lemma StopDuringSegments(job: Job, b: Backend, stops: seq<bool>, j: nat)
    requires PassesPreLoopChecks(job, b, stops) && b.openFault == None
    requires j < |b.segments| && StopSeen(stops, 3 + j)
    requires forall d :: 3 <= d < 3 + j ==> !StopSeen(stops, d)
    ensures var r := WorkerRun(job, b, stops);
      && r.output == Some(Lines(b.segments[..j]))
      && LogMsg(StoppedLog) in r.events
      && !Has(r.events, Error)
      && (Monotone(stops) ==> !Has(r.events, Success))
  {
    ProcessedIs(b.segments, stops, 3, j);
    ErrorExactlyWhenRaised(job, b, stops);
    if Monotone(stops) {
      StopSeenStays(stops, 3 + j, 4 + j);
      SuccessExactlyWhenUnstoppedAndUnfailing(job, b, stops);
    }
  }

  /** With a flag that is never cleared, a successful run wrote every segment. */
  lemma SuccessWritesEverySegment(job: Job, b: Backend, stops: seq<bool>)
    requires Monotone(stops) && Has(WorkerRun(job, b, stops).events, Success)
    ensures Processed(b.segments, stops, 3) == |b.segments|
    ensures WorkerRun(job, b, stops).output == Some(Lines(b.segments))
  {
    SuccessExactlyWhenUnstoppedAndUnfailing(job, b, stops);
    SuccessReport(job, b, stops);
    var k := Processed(b.segments, stops, 3);
    if k < |b.segments| {
      StopSeenStays(stops, 3 + k, 4 + k);
    }
    assert b.segments[..k] == b.segments;
  }

  /**
   * A run with a known model, no exception and a flag never set: the exact
   * messages and calls, and every segment written.
   */
  lemma CleanRun(job: Job, b: Backend)
    requires job.modelSize in AvailableModels && b.load == Loaded
    requires b.transcribeFault == None && b.openFault == None && b.streamFault == None
    ensures WorkerRun(job, b, []) == Outcome(
      [StatusMsg(LoadingStatus), LogMsg(LoadingLog(job.modelSize)),
       StatusMsg(TranscribingStatus), LogMsg(StartingLog(job.audioPath))]
        + InfoLogs(b.info) + CompletionLogs(job, |b.segments|) + [FinishedMsg],
      [LoadLocal(AvailableModels[job.modelSize]), Transcribe(job.audioPath, ResolveLanguage(job.language)),
       OpenForWrite(job.outputPath)],
      Some(Lines(b.segments)))
  {
    ProcessedIs(b.segments, [], 3, |b.segments|);
    assert b.segments[..|b.segments|] == b.segments;
  }

  /**
   * Building the model: a known id is built from its own directory, and an
   * invalid-hub-id rejection of it falls back to "base" from the hub with a
   * log line quoting the reason; an unknown id is announced and built from
   * the directory of "base", and an exception from that second attempt is
   * not caught by the sibling handler and escapes.
   */
  lemma LoadModelCases(id: string, b: Backend)
    ensures var m := LoadModel(id, b);
      && |m.calls| >= 1
      && m.calls[0] == LoadLocal(ResolveModel(id).path)
      && (id in AvailableModels && b.load.InvalidRepoId? ==>
            && m.logs == [LogMsg(InvalidPathLog(id, b.load.reason))]
            && m.calls == [LoadLocal(AvailableModels[id]), LoadHub(DefaultModel)]
            && m.fault == b.hubLoad)
      && (id in AvailableModels && !b.load.InvalidRepoId? ==>
            && m.logs == [] && m.calls == [LoadLocal(AvailableModels[id])]
            && m.fault == (if b.load.Loaded? then None else Some(b.load.reason)))
      && (id !in AvailableModels ==>
            && m.logs == [LogMsg(NotFoundNotice(id))]
            && m.calls == [LoadLocal(AvailableModels[DefaultModel])]
            && m.fault == (if b.load.Loaded? then None else Some(b.load.reason)))
  {
    ResolveModelCases(id);
  }

  /**
   * With a flag that is never cleared, a run that reports success saw the
   * flag at none of the checks it made, the per-segment ones included.
   */
  lemma SuccessMeansNoCheckSawFlag(job: Job, b: Backend, stops: seq<bool>)
    requires Monotone(stops) && Has(WorkerRun(job, b, stops).events, Success)
    ensures forall c :: 0 <= c <= FinalCheck(b, stops) ==> !StopSeen(stops, c)
  {
    SuccessExactlyWhenUnstoppedAndUnfailing(job, b, stops);
    forall c | 0 <= c <= FinalCheck(b, stops)
      ensures !StopSeen(stops, c)
    {
      if StopSeen(stops, c) {
        StopSeenStays(stops, c, FinalCheck(b, stops));
      }
    }
  }
}
