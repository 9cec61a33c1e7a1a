/** The extension host's `chat` handler: it relays a backend's streamed answer
    to the webview as `chatStart`, one `chatStream` per fragment carrying the
    text so far, and one terminal `chatComplete` or `chatError`. */
module Controller {
  import opened Protocol

  datatype Option<T> = None | Some(value: T)

  /** How the fragment stream ends once its fragments have been read. */
  datatype StreamEnd = Done | Throws(message: string)

  /** The backend's behaviour for one call: either the call itself rejects,
      or it returns a stream that yields `fragments` in order and then ends
      or throws (a failure after k fragments has k fragments here). */
  datatype Backend =
    | CallRejects(message: string)
    | Streams(fragments: seq<string>, end: StreamEnd)

  /** The fragments the handler receives before the stream ends or fails. */
  function Fragments(b: Backend): seq<string> {
    if b.Streams? then b.fragments else []
  }

  predicate Fails(b: Backend) {
    b.CallRejects? || b.end.Throws?
  }

  function FailureMessage(b: Backend): string
    requires Fails(b)
  {
    if b.CallRejects? then b.message else b.end.message
  }

  /** The concatenation of `fs`, in order. */
  function Joined(fs: seq<string>): string {
    if fs == [] then "" else Joined(fs[..|fs| - 1]) + fs[|fs| - 1]
  }

  /** One `chatStream` per fragment; the k-th carries the first k fragments joined. */
  function StreamEvents(fs: seq<string>): (evs: seq<Event>)
    ensures |evs| == |fs|
    ensures forall i :: 0 <= i < |evs| ==> evs[i].ChatStream?
  {
    if fs == [] then [] else StreamEvents(fs[..|fs| - 1]) + [ChatStream(Joined(fs))]
  }

  /** The event that ends the exchange: the full text, or the prefixed error. */
  function Terminal(b: Backend): (e: Event)
    ensures e.IsTerminal()
    ensures e.ChatError? <==> Fails(b)
  {
    if Fails(b) then ChatError(ErrorPrefix + FailureMessage(b))
    else ChatComplete(ChatMessage(Assistant, Joined(b.fragments)))
  }

  /** Every event the handler posts for `req` when the backend behaves as `b`. */
  function Relay(req: Request, b: Backend): (posted: seq<Event>)
    ensures posted == [] <==> req.command != ChatCommand
    ensures posted != [] ==> |posted| == |Fragments(b)| + 2
    ensures posted != [] ==> posted[0] == ChatStart(ChatMessage(Assistant, ""))
    ensures posted != [] ==> posted[|posted| - 1].IsTerminal()
    ensures forall i :: 0 < i < |posted| - 1 ==> posted[i].ChatStream?
  {
    if req.command != ChatCommand then []
    else [ChatStart(ChatMessage(Assistant, ""))] + StreamEvents(Fragments(b)) + [Terminal(b)]
  }

  /** The `onDidReceiveMessage` handler: returns the events it posts, in order. */
  method HandleMessage(req: Request, b: Backend) returns (posted: seq<Event>)
    ensures posted == Relay(req, b)
  {
    posted := [];
    if req.command == ChatCommand {
      var response := "";
      posted := posted + [ChatStart(ChatMessage(Assistant, ""))];
      var thrown: Option<string> := None;
      match b {
        case CallRejects(message) =>
          thrown := Some(message);
        case Streams(fragments, end) =>
          var i := 0;
          while i < |fragments|
            invariant 0 <= i <= |fragments|
            invariant response == Joined(fragments[..i])
            invariant posted == [ChatStart(ChatMessage(Assistant, ""))] + StreamEvents(fragments[..i])
          {
            assert fragments[..i + 1][..i] == fragments[..i];
            response := response + fragments[i];
            posted := posted + [ChatStream(response)];
            i := i + 1;
          }
          assert fragments[..i] == fragments;
          match end {
            case Done =>
              posted := posted + [ChatComplete(ChatMessage(Assistant, response))];
            case Throws(message) =>
              thrown := Some(message);
          }
      }
      if thrown.Some? {
        posted := posted + [ChatError(ErrorPrefix + thrown.value)];
      }
    }
  }

  lemma {:induction false} JoinedPrefix(fs: seq<string>, i: nat, j: nat)
    requires i <= j <= |fs|
    ensures Joined(fs[..i]) <= Joined(fs[..j])
    decreases j - i
  {
    if i < j {
      JoinedPrefix(fs, i, j - 1);
      assert fs[..j][..j - 1] == fs[..j - 1];
    }
  }

  lemma {:induction false} StreamEventAt(fs: seq<string>, k: nat)
    requires k < |fs|
    ensures StreamEvents(fs)[k] == ChatStream(Joined(fs[..k + 1]))
    decreases |fs|
  {
    if k < |fs| - 1 {
      StreamEventAt(fs[..|fs| - 1], k);
      assert fs[..|fs| - 1][..k + 1] == fs[..k + 1];
    } else {
      assert fs[..k + 1] == fs;
    }
  }

  /** The k-th `chatStream` carries the first k fragments joined. */
  lemma StreamPayload(req: Request, b: Backend, k: nat)
    requires req.command == ChatCommand
    requires 1 <= k <= |Fragments(b)|
    ensures Relay(req, b)[k] == ChatStream(Joined(Fragments(b)[..k]))
  {
    StreamEventAt(Fragments(b), k - 1);
  }

  /** Each `chatStream` payload is a prefix of every later one, and the next one
      extends it by exactly the next fragment. */
  lemma StreamPayloadsGrow(req: Request, b: Backend, i: nat, j: nat)
    requires req.command == ChatCommand
    requires 1 <= i <= j <= |Fragments(b)|
    ensures Relay(req, b)[i].text <= Relay(req, b)[j].text
    ensures j == i + 1 ==> Relay(req, b)[j].text == Relay(req, b)[i].text + Fragments(b)[i]
  {
    var fs := Fragments(b);
    StreamPayload(req, b, i);
    StreamPayload(req, b, j);
    JoinedPrefix(fs, i, j);
    if j == i + 1 {
      assert fs[..j][..i] == fs[..i];
    }
  }

  lemma {:induction false} StreamEventsCount(fs: seq<string>, k: Kind)
    ensures Count(StreamEvents(fs), k) == if k == Stream then |fs| else 0
    decreases |fs|
  {
    if fs != [] {
      StreamEventsCount(fs[..|fs| - 1], k);
      CountAppend(StreamEvents(fs[..|fs| - 1]), [ChatStream(Joined(fs))], k);
      assert [ChatStream(Joined(fs))][..0] == [];
    }
  }

  lemma CountRelay(req: Request, b: Backend, k: Kind)
    requires req.command == ChatCommand
    ensures Count(Relay(req, b), k) ==
      (if k == Start then 1 else 0) + (if k == Stream then |Fragments(b)| else 0) + (if KindOf(Terminal(b)) == k then 1 else 0)
  {
    var start := [ChatStart(ChatMessage(Assistant, ""))];
    var streams := StreamEvents(Fragments(b));
    var last := [Terminal(b)];
    assert Relay(req, b) == (start + streams) + last;
    CountAppend(start + streams, last, k);
    CountAppend(start, streams, k);
    StreamEventsCount(Fragments(b), k);
    assert start[..0] == [] && last[..0] == [];
  }

  /** A `chat` request posts one `chatStart`, one `chatStream` per fragment
      received, and exactly one terminal event: `chatComplete` when the stream
      ends cleanly, `chatError` when the call or the stream fails. */
  lemma RelayCounts(req: Request, b: Backend)
    requires req.command == ChatCommand
    ensures Count(Relay(req, b), Start) == 1
    ensures Count(Relay(req, b), Stream) == |Fragments(b)|
    ensures Count(Relay(req, b), Complete) == if Fails(b) then 0 else 1
    ensures Count(Relay(req, b), Error) == if Fails(b) then 1 else 0
  {
    CountRelay(req, b, Start);
    CountRelay(req, b, Stream);
    CountRelay(req, b, Complete);
    CountRelay(req, b, Error);
  }

  /** A stream that ends cleanly finishes with `chatComplete` holding every
      fragment joined, which is also the last `chatStream` payload. */
  lemma CleanEnd(req: Request, b: Backend)
    requires req.command == ChatCommand
    requires !Fails(b)
    ensures Relay(req, b)[|Relay(req, b)| - 1] == ChatComplete(ChatMessage(Assistant, Joined(Fragments(b))))
    ensures Fragments(b) != [] ==> Relay(req, b)[|Relay(req, b)| - 2] == ChatStream(Joined(Fragments(b)))
  {
    var fs := Fragments(b);
    if fs != [] {
      StreamPayload(req, b, |fs|);
      assert fs[..|fs|] == fs;
    }
  }

  /** A failure, at call time or mid-stream, ends the exchange with the prefixed
      error message; no `chatComplete` is posted. */
  lemma FailureEnd(req: Request, b: Backend)
    requires req.command == ChatCommand
    requires Fails(b)
    ensures Relay(req, b)[|Relay(req, b)| - 1] == ChatError(ErrorPrefix + FailureMessage(b))
    ensures forall i :: 0 <= i < |Relay(req, b)| ==> !Relay(req, b)[i].ChatComplete?
  {
  }
}
