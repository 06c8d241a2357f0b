/**
 * The controller side of main.py's `TranscriptionGUI`: the fields the
 * window keeps (the busy flag, the stop flag, the status line, the log
 * text, the four settings), the handlers that change them, and the
 * periodic drain of the worker's result queue. Message boxes are recorded
 * as a list of the dialogs shown.
 */
module Gui {
  import opened Wrappers
  import opened Catalog
  import opened Rules
  import opened Messages
  import opened Worker

  datatype DialogKind = ErrorBox | InfoBox

  /** A message box the user was shown: its kind, title and text. */
  datatype Dialog = Dialog(kind: DialogKind, title: string, text: string)

  /** A snapshot of the controller's fields, the queue aside. */
  datatype ControllerView = ControllerView(
    isTranscribing: bool,
    stopFlag: bool,
    status: string,
    log: string,
    dialogs: seq<Dialog>,
    audioFile: string,
    outputFile: string,
    language: string,
    modelSize: string)

  const ReadyStatus: string := "Ready to work"
  const InitializingStatus: string := "Initializing..."
  const StoppingStatus: string := "Stopping..."
  const NoAudioText: string := "Select audio file"
  const NoOutputText: string := "Specify file for saving"

  /** The window as it opens: idle, nothing chosen, automatic language, model "base". */
  const Initial: ControllerView :=
    ControllerView(false, false, ReadyStatus, "", [], "", "", Auto.Value(), DefaultModel)

  /**
   * The start button: ignored while a run is in progress, refused with an
   * error box when a path is missing, otherwise the flag is cleared, the
   * controller becomes busy, the status shows initialising and the log is
   * emptied; the second component says whether a worker is launched.
   */
  function Start(v: ControllerView): (ControllerView, bool) {
    if v.isTranscribing then (v, false)
    else if v.audioFile == "" then (v.(dialogs := v.dialogs + [Dialog(ErrorBox, "Error", NoAudioText)]), false)
    else if v.outputFile == "" then (v.(dialogs := v.dialogs + [Dialog(ErrorBox, "Error", NoOutputText)]), false)
    else (v.(stopFlag := false, isTranscribing := true, status := InitializingStatus, log := ""), true)
  }

  /** The stop button: raise the flag and show that stopping is under way. */
  function Stop(v: ControllerView): ControllerView {
    v.(stopFlag := true, status := StoppingStatus)
  }

  /** `transcription_finished`: idle again, status back to ready. */
  function Finish(v: ControllerView): ControllerView {
    v.(isTranscribing := false, status := ReadyStatus)
  }

  /** What `check_queue` does with one message; payload-less messages other than the finished marker are ignored. */
  function Apply(v: ControllerView, m: Message): (w: ControllerView)
    ensures w.stopFlag == v.stopFlag && JobOf(w) == JobOf(v)
    ensures m.tag == Finished ==> !w.isTranscribing && w.status == ReadyStatus
    ensures m.tag != Finished ==> w.isTranscribing == v.isTranscribing
    ensures m.tag == Status && m.data != None ==> w.status == m.data.value
    ensures m.tag != Finished && !(m.tag == Status && m.data != None) ==> w.status == v.status
    ensures m.tag != Log ==> w.log == v.log
  {
    match m.tag
    case Status => if m.data != None then v.(status := m.data.value) else v
    case Log => if m.data != None then v.(log := v.log + m.data.value + "\n") else v
    case Error => if m.data != None then v.(dialogs := v.dialogs + [Dialog(ErrorBox, "Error", m.data.value)]) else v
    case Success => if m.data != None then v.(dialogs := v.dialogs + [Dialog(InfoBox, "Success", m.data.value)]) else v
    case Finished => Finish(v)
  }

  /** The messages of `q` applied in order. */
  function ApplyAll(v: ControllerView, q: seq<Message>): (w: ControllerView)
    ensures w.stopFlag == v.stopFlag && JobOf(w) == JobOf(v)
    ensures v.dialogs <= w.dialogs
    decreases |q|
  {
    if q == [] then v else Apply(ApplyAll(v, q[..|q| - 1]), q[|q| - 1])
  }

  /** The message boxes a sequence of messages pops up, in order. */
  function Alerts(q: seq<Message>): seq<Dialog> {
    if q == [] then []
    else
      var m := q[|q| - 1];
      Alerts(q[..|q| - 1])
        + (if m.tag == Error && m.data != None then [Dialog(ErrorBox, "Error", m.data.value)]
           else if m.tag == Success && m.data != None then [Dialog(InfoBox, "Success", m.data.value)]
           else [])
  }

  /** The worker's settings, read from the controller's fields. */
  function JobOf(v: ControllerView): Job {
    Job(v.audioFile, v.outputFile, v.language, v.modelSize)
  }

  class Controller {
    var isTranscribing: bool
    var stopFlag: bool
    var status: string
    var log: string
    var dialogs: seq<Dialog>
    var audioFile: string
    var outputFile: string
    var language: string
    var modelSize: string
    /** The result queue: messages the worker has put and the GUI not yet taken. */
    var queue: seq<Message>

    function View(): ControllerView
      reads this
    {
      ControllerView(isTranscribing, stopFlag, status, log, dialogs, audioFile, outputFile, language, modelSize)
    }

    constructor()
      ensures View() == Initial && queue == []
    {
      isTranscribing, stopFlag := false, false;
      status, log, dialogs := ReadyStatus, "", [];
      audioFile, outputFile := "", "";
      language, modelSize := Auto.Value(), DefaultModel;
      queue := [];
    }

    /** `log_message`: append the message and a newline to the log. */
    method LogMessage(message: string)
      modifies this
      ensures View() == old(View()).(log := old(log) + message + "\n")
      ensures queue == old(queue)
    {
      log := log + message + "\n";
    }

    /** `update_status`: replace the status line. */
    method UpdateStatus(text: string)
      modifies this
      ensures View() == old(View()).(status := text)
      ensures queue == old(queue)
    {
      status := text;
    }

    /** A message box: recorded in the list of dialogs shown. */
    method ShowDialog(kind: DialogKind, title: string, text: string)
      modifies this
      ensures View() == old(View()).(dialogs := old(dialogs) + [Dialog(kind, title, text)])
      ensures queue == old(queue)
    {
      dialogs := dialogs + [Dialog(kind, title, text)];
    }

    /** `start_transcription`; `launched` says whether the worker thread is started. */
    method StartTranscription() returns (launched: bool)
      modifies this
      ensures (View(), launched) == Start(old(View()))
      ensures queue == old(queue)
    {
      if isTranscribing {
        return false;
      }
      if audioFile == "" {
        ShowDialog(ErrorBox, "Error", NoAudioText);
        return false;
      }
      if outputFile == "" {
        ShowDialog(ErrorBox, "Error", NoOutputText);
        return false;
      }
      stopFlag := false;
      isTranscribing := true;
      UpdateStatus(InitializingStatus);
      log := "";
      launched := true;
    }

    /** `stop_transcription`. */
    method StopTranscription()
      modifies this
      ensures View() == Stop(old(View()))
      ensures queue == old(queue)
    {
      stopFlag := true;
      UpdateStatus(StoppingStatus);
    }

    /** `transcription_finished`. */
    method TranscriptionFinished()
      modifies this
      ensures View() == Finish(old(View()))
      ensures queue == old(queue)
    {
      isTranscribing := false;
      UpdateStatus(ReadyStatus);
    }

    /** `browse_audio`, with the file the dialog returned ("" when cancelled) as input. */
    method BrowseAudio(chosen: string)
      modifies this
      ensures (audioFile, outputFile) == PathsAfterBrowse(chosen, old(audioFile), old(outputFile))
      ensures View() == old(View()).(audioFile := audioFile, outputFile := outputFile)
      ensures queue == old(queue)
    {
      if chosen != "" {
        audioFile := chosen;
        if outputFile == "" {
          outputFile := DefaultOutputPath(chosen);
        }
      }
    }

    /**
     * One run of the worker thread with the current settings: its
     * messages are put on the queue, after whatever is still pending.
     */
    method RunWorker(b: Backend, stops: seq<bool>)
      modifies this
      ensures View() == old(View())
      ensures queue == old(queue) + WorkerRun(JobOf(View()), b, stops).events
    {
      var job := Job(audioFile, outputFile, language, modelSize);
      var events, calls, output := TranscriptionWorker(job, b, stops);
      queue := queue + events;
    }

    /** `check_queue`: take every pending message, oldest first, and act on it. */
    method CheckQueue()
      modifies this
      ensures queue == []
      ensures View() == ApplyAll(old(View()), old(queue))
    {
      ghost var v0, q0 := View(), queue;
      ghost var n := 0;
      while queue != []
        invariant 0 <= n <= |q0| && queue == q0[n..]
        invariant View() == ApplyAll(v0, q0[..n])
        decreases |queue|
      {
        var m := queue[0];
        queue := queue[1..];
        assert q0[..n + 1][..n] == q0[..n];
        match m.tag {
          case Status =>
            if m.data != None {
              UpdateStatus(m.data.value);
            }
          case Log =>
            if m.data != None {
              LogMessage(m.data.value);
            }
          case Error =>
            if m.data != None {
              ShowDialog(ErrorBox, "Error", m.data.value);
            }
          case Success =>
            if m.data != None {
              ShowDialog(InfoBox, "Success", m.data.value);
            }
          case Finished =>
            TranscriptionFinished();
        }
        n := n + 1;
      }
      assert q0[..n] == q0;
    }
  }
}
