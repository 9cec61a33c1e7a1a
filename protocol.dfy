/** The four-event vocabulary the extension host posts to the chat webview,
    and the one request the webview posts back. */
module Protocol {

  datatype Role = User | Assistant

  /** A chat message as carried by `chatStart` and `chatComplete`. */
  datatype ChatMessage = ChatMessage(role: Role, content: string)

  /** A message posted by the controller to the webview. */
  datatype Event =
    | ChatStart(message: ChatMessage)
    | ChatStream(text: string)
    | ChatComplete(message: ChatMessage)
    | ChatError(text: string)
  {
    /** `chatComplete` and `chatError` end an exchange. */
    predicate IsTerminal() {
      ChatComplete? || ChatError?
    }
  }

  /** A message posted by the webview to the controller: `{ command, text }`. */
  datatype Request = Request(command: string, text: string)

  const ChatCommand: string := "chat"

  /** What the controller puts in front of a backend error message. */
  const ErrorPrefix: string := "Error: "

  /** The `command` tag of an event, without its payload. */
  datatype Kind = Start | Stream | Complete | Error

  function KindOf(e: Event): Kind {
    match e
    case ChatStart(_) => Start
    case ChatStream(_) => Stream
    case ChatComplete(_) => Complete
    case ChatError(_) => Error
  }

  /** How many events of `evs` carry the tag `k`. */
  function Count(evs: seq<Event>, k: Kind): (n: nat)
    ensures n <= |evs|
    ensures n == 0 <==> forall i :: 0 <= i < |evs| ==> KindOf(evs[i]) != k
  {
    if evs == [] then 0
    else Count(evs[..|evs| - 1], k) + (if KindOf(evs[|evs| - 1]) == k then 1 else 0)
  }

  lemma {:induction false} CountAppend(a: seq<Event>, b: seq<Event>, k: Kind)
    ensures Count(a + b, k) == Count(a, k) + Count(b, k)
    decreases |b|
  {
    if b != [] {
      assert (a + b)[..|a + b| - 1] == a + b[..|b| - 1];
      CountAppend(a, b[..|b| - 1], k);
    } else {
      assert a + b == a;
    }
  }
}
