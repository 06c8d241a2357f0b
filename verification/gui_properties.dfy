/**
 * What the controller's handlers and the queue drain guarantee, alone and
 * over a whole start, run and drain cycle.
 */
module GuiProperties {
  import opened Wrappers
  import opened Messages
  import opened Worker
  import opened WorkerProperties
  import opened Gui

  /**
   * A worker is launched exactly when none is running and both paths are
   * set; a refused start changes nothing but, for a missing path, the
   * error box naming the missing one.
   */
  lemma StartGuards(v: ControllerView)
    ensures Start(v).1 <==> !v.isTranscribing && v.audioFile != "" && v.outputFile != ""
    ensures v.isTranscribing ==> Start(v).0 == v
    ensures !v.isTranscribing && v.audioFile == "" ==>
      Start(v).0 == v.(dialogs := v.dialogs + [Dialog(ErrorBox, "Error", NoAudioText)])
    ensures !v.isTranscribing && v.audioFile != "" && v.outputFile == "" ==>
      Start(v).0 == v.(dialogs := v.dialogs + [Dialog(ErrorBox, "Error", NoOutputText)])
  {
  }

  /** An accepted start clears the flag, marks the controller busy, shows "Initializing..." and empties the log. */
  lemma StartAccepted(v: ControllerView)
    requires Start(v).1
    ensures var w := Start(v).0;
      && !w.stopFlag && w.isTranscribing && w.status == InitializingStatus && w.log == ""
      && w.dialogs == v.dialogs && JobOf(w) == JobOf(v)
  {
  }

  /** Stopping twice is stopping once; it touches only the flag and the status line. */
  lemma StopIdempotent(v: ControllerView)
    ensures Stop(Stop(v)) == Stop(v)
    ensures Stop(v).stopFlag && Stop(v).status == StoppingStatus
    ensures Stop(v).(stopFlag := v.stopFlag, status := v.status) == v
  {
  }

  /** The finished handler leaves the controller idle and ready, whatever it was doing. */
  lemma FinishResets(v: ControllerView)
    ensures !Finish(v).isTranscribing && Finish(v).status == ReadyStatus
    ensures Finish(v).(isTranscribing := v.isTranscribing, status := v.status) == v
  {
  }

  /** A status, log, error or success message without a payload is ignored. */
  lemma MissingPayloadIgnored(v: ControllerView, m: Message)
    requires m.data == None && m.tag != Finished
    ensures Apply(v, m) == v
  {
  }

  /** Draining two batches in turn is draining them together. */
  lemma {:induction false} ApplyAllAppend(v: ControllerView, p: seq<Message>, q: seq<Message>)
    ensures ApplyAll(v, p + q) == ApplyAll(ApplyAll(v, p), q)
    decreases |q|
  {
    if q == [] {
      assert p + q == p;
    } else {
      assert (p + q)[..|p + q| - 1] == p + q[..|q| - 1];
      ApplyAllAppend(v, p, q[..|q| - 1]);
    }
  }

  /** A message that sets the status line: a status message with a payload, or the finished marker. */
  predicate SetsStatus(m: Message) {
    m.tag == Finished || (m.tag == Status && m.data != None)
  }

  /** Draining messages none of which sets the status leaves the status line as it was. */
  lemma {:induction false} StatusKept(v: ControllerView, q: seq<Message>)
    requires forall j :: 0 <= j < |q| ==> !SetsStatus(q[j])
    ensures ApplyAll(v, q).status == v.status
    decreases |q|
  {
    if q != [] {
      StatusKept(v, q[..|q| - 1]);
    }
  }

  /**
   * After draining, the status line is what the last status-setting message
   * made it: that message's payload, or the ready text for the finished marker.
   */
  lemma DrainStatus(v: ControllerView, q: seq<Message>, i: int)
    requires 0 <= i < |q| && SetsStatus(q[i])
    requires forall j :: i < j < |q| ==> !SetsStatus(q[j])
    ensures ApplyAll(v, q).status == if q[i].tag == Finished then ReadyStatus else q[i].data.value
  {
    var p, r := q[..i + 1], q[i + 1..];
    assert p + r == q;
    ApplyAllAppend(v, p, r);
    assert p[..|p| - 1] == q[..i];
    assert forall j :: 0 <= j < |r| ==> r[j] == q[i + 1 + j];
    StatusKept(ApplyAll(v, p), r);
  }

  /**
   * Draining appends each log payload and a newline to the log, in queue
   * order and adds the boxes of the error and success messages in order.
   */
  lemma {:induction false} DrainEffect(v: ControllerView, q: seq<Message>)
    ensures ApplyAll(v, q).log == v.log + LogText(q)
    ensures ApplyAll(v, q).dialogs == v.dialogs + Alerts(q)
    decreases |q|
  {
    if q != [] {
      DrainEffect(v, q[..|q| - 1]);
    }
  }

  /** A batch that ends with the finished marker leaves the controller idle and ready. */
  lemma DrainEndsIdle(v: ControllerView, q: seq<Message>)
    requires q != [] && q[|q| - 1] == FinishedMsg
    ensures !ApplyAll(v, q).isTranscribing && ApplyAll(v, q).status == ReadyStatus
  {
  }

  lemma {:induction false} AlertsAppend(p: seq<Message>, q: seq<Message>)
    ensures Alerts(p + q) == Alerts(p) + Alerts(q)
    decreases |q|
  {
    if q == [] {
      assert p + q == p;
    } else {
      assert (p + q)[..|p + q| - 1] == p + q[..|q| - 1];
      AlertsAppend(p, q[..|q| - 1]);
    }
  }

  lemma {:induction false} QuietAlerts(q: seq<Message>)
    requires Quiet(q)
    ensures Alerts(q) == []
    decreases |q|
  {
    if q != [] {
      QuietAlerts(q[..|q| - 1]);
    }
  }

  lemma ReportedAlerts(events: seq<Message>, job: Job, k: nat)
    requires Reported(events, job, k)
    ensures Alerts(events + [FinishedMsg]) == [Dialog(InfoBox, "Success", SuccessText)]
  {
    var n := |events|;
    assert events == events[..n - 3] + events[n - 3..];
    var c := CompletionLogs(job, k);
    assert c[..2][..1][..0] == [];
    assert Alerts(c[..2][..1]) == [];
    assert Alerts(c[..2]) == [];
    QuietAlerts(events[..n - 3]);
    AlertsAppend(events[..n - 3], c);
    AlertsAppend(events, [FinishedMsg]);
  }

  lemma HandledAlerts(events: seq<Message>, message: string)
    requires Quiet(events)
    ensures Alerts(events + [ErrorMsg(message), LogMsg("ERROR: " + message), FinishedMsg])
      == [Dialog(ErrorBox, "Error", message)]
  {
    var handler := [ErrorMsg(message), LogMsg("ERROR: " + message), FinishedMsg];
    assert handler[..2][..1][..0] == [];
    assert Alerts(handler[..2][..1]) == [Dialog(ErrorBox, "Error", message)];
    assert Alerts(handler[..2]) == [Dialog(ErrorBox, "Error", message)];
    QuietAlerts(events);
    AlertsAppend(events, handler);
  }

  lemma QuietRunAlerts(events: seq<Message>)
    requires Quiet(events)
    ensures Alerts(events + [FinishedMsg]) == []
  {
    QuietAlerts(events);
    AlertsAppend(events, [FinishedMsg]);
  }

  /**
   * The message boxes one worker run pops up: the success box alone when
   * it succeeds, the error box with the exception's text alone when it
   * raises, and none otherwise.
   */
  lemma RunAlerts(job: Job, b: Backend, stops: seq<bool>)
    ensures var e := WorkerRun(job, b, stops).events;
      var a := Body(job, b, stops);
      && (Succeeds(job, b, stops) ==> Alerts(e) == [Dialog(InfoBox, "Success", SuccessText)])
      && (a.exit.Raised? ==> Alerts(e) == [Dialog(ErrorBox, "Error", ErrorText(a.exit.reason))])
      && (!Succeeds(job, b, stops) && !a.exit.Raised? ==> Alerts(e) == [])
  {
    var a := Body(job, b, stops);
    BodyShape(job, b, stops);
    RunFromBody(job, b, stops);
    if Succeeds(job, b, stops) {
      ReportedAlerts(a.run.events, job, Processed(b.segments, stops, 3));
    } else if a.exit.Raised? {
      HandledAlerts(a.run.events, ErrorText(a.exit.reason));
    } else {
      QuietRunAlerts(a.run.events);
    }
  }

  /**
   * A whole cycle: an accepted start, one worker run with the settings it
   * read, and the drain of everything it put on the queue. The controller
   * ends idle and ready, its log holds exactly that run's log lines, and
   * the user has seen exactly the run's one box (success or error) or none.
   */
  lemma StartRunDrain(v: ControllerView, b: Backend, stops: seq<bool>)
    requires Start(v).1
    ensures var started := Start(v).0;
      var e := WorkerRun(JobOf(v), b, stops).events;
      var w := ApplyAll(started, e);
      && !w.isTranscribing && w.status == ReadyStatus
      && w.log == LogText(e)
      && w.dialogs == v.dialogs + Alerts(e)
      && JobOf(w) == JobOf(v)
  {
    var started := Start(v).0;
    var e := WorkerRun(JobOf(v), b, stops).events;
    FinishedExactlyOnceLast(JobOf(v), b, stops);
    DrainEndsIdle(started, e);
    DrainEffect(started, e);
  }
}
