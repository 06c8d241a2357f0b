/**
 * The `(type, payload)` pairs the worker puts on the result queue and the
 * GUI drains: five message types, each with an optional text payload.
 */
module Messages {
  import opened Wrappers

  datatype Tag = Status | Log | Error | Success | Finished

  datatype Message = Message(tag: Tag, data: Option<string>)

  function StatusMsg(text: string): Message { Message(Status, Some(text)) }
  function LogMsg(text: string): Message { Message(Log, Some(text)) }
  function ErrorMsg(text: string): Message { Message(Error, Some(text)) }
  function SuccessMsg(text: string): Message { Message(Success, Some(text)) }
  const FinishedMsg: Message := Message(Finished, None)

  /** How many messages of `events` carry `tag`. */
  function Count(events: seq<Message>, tag: Tag): (n: nat)
    ensures n <= |events|
    ensures n == 0 <==> forall i :: 0 <= i < |events| ==> events[i].tag != tag
  {
    if events == [] then 0
    else Count(events[..|events| - 1], tag) + (if events[|events| - 1].tag == tag then 1 else 0)
  }

  lemma {:induction false} CountAppend(a: seq<Message>, b: seq<Message>, tag: Tag)
    ensures Count(a + b, tag) == Count(a, tag) + Count(b, tag)
    decreases |b|
  {
    if b == [] {
      assert a + b == a;
    } else {
      assert (a + b)[..|a + b| - 1] == a + b[..|b| - 1];
      CountAppend(a, b[..|b| - 1], tag);
    }
  }

  /** Whether some message of `events` carries `tag`. */
  predicate Has(events: seq<Message>, tag: Tag) {
    exists i :: 0 <= i < |events| && events[i].tag == tag
  }

  /** The text the log shows after `events`: each log payload on its own line, in order. */
  function LogText(events: seq<Message>): string {
    if events == [] then ""
    else
      var m := events[|events| - 1];
      LogText(events[..|events| - 1]) + (if m.tag == Log && m.data != None then m.data.value + "\n" else "")
  }
}
