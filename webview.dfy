/** The script of the chat webview: a transcript of rendered messages, the
    `isProcessing` flag that gates the send button, the submit handler and
    the handler for the controller's events. */
module Webview {
  import opened Protocol

  /** ECMAScript's WhiteSpace and LineTerminator characters: the ones
      `String.prototype.trim` removes (Zs as of Unicode 15). */
  predicate IsWhitespace(c: char) {
    || c == '\t' || c == '\n' || c == '\U{000B}' || c == '\U{000C}' || c == '\r'
    || c == ' ' || c == '\U{00A0}' || c == '\U{1680}'
    || ('\U{2000}' <= c <= '\U{200A}')
    || c == '\U{2028}' || c == '\U{2029}' || c == '\U{202F}' || c == '\U{205F}'
    || c == '\U{3000}' || c == '\U{FEFF}'
  }

  /** `s` without its leading whitespace. */
  function TrimStart(s: string): (r: string)
    ensures |r| <= |s| && r == s[|s| - |r|..]
    ensures forall i :: 0 <= i < |s| - |r| ==> IsWhitespace(s[i])
    ensures r != "" ==> !IsWhitespace(r[0])
  {
    if s != "" && IsWhitespace(s[0]) then TrimStart(s[1..]) else s
  }

  /** `s` without its trailing whitespace. */
  function TrimEnd(s: string): (r: string)
    ensures |r| <= |s| && r == s[..|r|]
    ensures forall i :: |r| <= i < |s| ==> IsWhitespace(s[i])
    ensures r != "" ==> !IsWhitespace(r[|r| - 1])
  {
    if s != "" && IsWhitespace(s[|s| - 1]) then TrimEnd(s[..|s| - 1]) else s
  }

  predicate AllWhitespace(s: string) {
    forall i :: 0 <= i < |s| ==> IsWhitespace(s[i])
  }

  /** `r` sits at offset `k` of `s`, with only whitespace around it. */
  predicate SurroundedAt(s: string, r: string, k: int) {
    && 0 <= k <= |s| - |r|
    && s[k..k + |r|] == r
    && AllWhitespace(s[..k])
    && AllWhitespace(s[k + |r|..])
  }

  /** `String.prototype.trim`. */
  function Trim(s: string): string {
    TrimEnd(TrimStart(s))
  }

  /** The trimmed text sits inside `s` with only whitespace around it, has no
      whitespace at either end, and is empty exactly when `s` is blank. */
  lemma TrimSpec(s: string)
    ensures Trim(s) == "" <==> AllWhitespace(s)
    ensures Trim(s) != "" ==> !IsWhitespace(Trim(s)[0]) && !IsWhitespace(Trim(s)[|Trim(s)| - 1])
    ensures exists k :: SurroundedAt(s, Trim(s), k)
  {
    var t := TrimStart(s);
    TrimmedBoth(s, t, TrimEnd(t));
  }

  lemma TrimmedBoth(s: string, t: string, r: string)
    requires |t| <= |s| && t == s[|s| - |t|..]
    requires forall i :: 0 <= i < |s| - |t| ==> IsWhitespace(s[i])
    requires t != "" ==> !IsWhitespace(t[0])
    requires |r| <= |t| && r == t[..|r|]
    requires forall i :: |r| <= i < |t| ==> IsWhitespace(t[i])
    ensures r != "" ==> !IsWhitespace(r[0])
    ensures SurroundedAt(s, r, |s| - |t|)
    ensures r == "" <==> AllWhitespace(s)
  {
    var k := |s| - |t|;
    assert s[k..k + |r|] == r;
    assert forall i :: k + |r| <= i < |s| ==> s[i] == t[i - k];
  }

  /** One child of `#chatContainer`. */
  datatype Entry = Entry(role: Role, content: string, loading: bool, error: bool)

  /** The part of the page's state the events act on. */
  datatype View = View(transcript: seq<Entry>, isProcessing: bool)

  /** `updateLastMessage` on a transcript: the last entry, if any, gets the new
      content and markers and keeps its role. */
  function UpdateLast(t: seq<Entry>, content: string, loading: bool, error: bool): (r: seq<Entry>)
    ensures |r| == |t|
    ensures forall i :: 0 <= i < |t| - 1 ==> r[i] == t[i]
    ensures t != [] ==> r[|r| - 1] == Entry(t[|t| - 1].role, content, loading, error)
  {
    if t == [] then t
    else t[|t| - 1 := t[|t| - 1].(content := content, loading := loading, error := error)]
  }

  /** The text an overwriting event puts into the last entry. */
  function Payload(e: Event): string {
    match e
    case ChatStart(m) => m.content
    case ChatStream(text) => text
    case ChatComplete(m) => m.content
    case ChatError(text) => text
  }

  /** The effect of one controller event on the page. */
  function Reduce(v: View, e: Event): (w: View)
    ensures e.ChatStart? ==> w.transcript == v.transcript + [Entry(Assistant, "", true, false)]
    ensures !e.ChatStart? ==> |w.transcript| == |v.transcript|
    ensures !e.ChatStart? ==> forall i :: 0 <= i < |v.transcript| - 1 ==> w.transcript[i] == v.transcript[i]
    ensures !e.ChatStart? && v.transcript != [] ==>
      w.transcript[|w.transcript| - 1] ==
        Entry(v.transcript[|v.transcript| - 1].role, Payload(e), false, e.ChatError?)
    ensures w.isProcessing == (v.isProcessing && !e.IsTerminal())
  {
    match e
    case ChatStart(_) => View(v.transcript + [Entry(Assistant, "", true, false)], v.isProcessing)
    case ChatStream(text) => View(UpdateLast(v.transcript, text, false, false), v.isProcessing)
    case ChatComplete(m) => View(UpdateLast(v.transcript, m.content, false, false), false)
    case ChatError(text) => View(UpdateLast(v.transcript, text, false, true), false)
  }

  /** The page after handling `evs` in order, starting from `v`. */
  function ReduceAll(v: View, evs: seq<Event>): View {
    if evs == [] then v else Reduce(ReduceAll(v, evs[..|evs| - 1]), evs[|evs| - 1])
  }

  lemma {:induction false} ReduceAllAppend(v: View, a: seq<Event>, b: seq<Event>)
    ensures ReduceAll(v, a + b) == ReduceAll(ReduceAll(v, a), b)
    decreases |b|
  {
    if b == [] {
      assert a + b == a;
    } else {
      assert (a + b)[..|a + b| - 1] == a + b[..|b| - 1];
      ReduceAllAppend(v, a, b[..|b| - 1]);
    }
  }

  /** An event that overwrites the last entry makes an earlier `chatStream`
      irrelevant: handling the stream and then it is handling it alone. */
  lemma StreamSuperseded(v: View, text: string, e: Event)
    requires !e.ChatStart?
    ensures Reduce(Reduce(v, ChatStream(text)), e) == Reduce(v, e)
  {
    if v.transcript != [] {
      var n := |v.transcript|;
      assert Reduce(Reduce(v, ChatStream(text)), e).transcript[n - 1] == Reduce(v, e).transcript[n - 1];
    }
  }

  /** The page: `#chatContainer`'s children, the `isProcessing` flag, the send
      button's `disabled` property, the prompt's value and the messages posted
      to the extension with `vscode.postMessage`. */
  class ChatPage {
    var transcript: seq<Entry>
    var isProcessing: bool
    var sendDisabled: bool
    var input: string
    var outbox: seq<Request>

    /** The send button is disabled exactly while a request is in flight. */
    ghost predicate Valid()
      reads this
    {
      sendDisabled == isProcessing
    }

    function Snapshot(): View
      reads this
    {
      View(transcript, isProcessing)
    }

    /** The page as loaded: nothing shown, nothing in flight. */
    constructor ()
      ensures Valid()
      ensures transcript == [] && !isProcessing && input == "" && outbox == []
    {
      transcript, isProcessing, sendDisabled, input, outbox := [], false, false, "", [];
    }

    /** `addMessage`: appends one entry. While `loading` holds the page shows
        only the spinner, not `content`; the entry keeps `content` anyway. */
    method AddMessage(role: Role, content: string, loading: bool)
      modifies this`transcript
      ensures transcript == old(transcript) + [Entry(role, content, loading, false)]
    {
      transcript := transcript + [Entry(role, content, loading, false)];
    }

    method UpdateLastMessage(content: string, loading: bool, error: bool)
      modifies this`transcript
      ensures transcript == UpdateLast(old(transcript), content, loading, error)
    {
      if transcript != [] {
        var last := |transcript| - 1;
        transcript := transcript[last := transcript[last].(content := content, loading := loading, error := error)];
      }
    }

    method UpdateSendButton()
      modifies this`sendDisabled
      ensures sendDisabled == isProcessing
    {
      sendDisabled := isProcessing;
    }

    /** The form's submit handler. While a request is in flight, or when the
        trimmed prompt is empty, nothing changes; otherwise the trimmed prompt
        becomes a user entry, the prompt is cleared, the button is disabled
        and the prompt is posted as a `chat` request. */
    method Submit()
      requires Valid()
      modifies this
      ensures Valid()
      ensures old(isProcessing) || Trim(old(input)) == "" ==> unchanged(this)
      ensures !old(isProcessing) && Trim(old(input)) != "" ==>
        && transcript == old(transcript) + [Entry(User, Trim(old(input)), false, false)]
        && input == ""
        && isProcessing
        && outbox == old(outbox) + [Request(ChatCommand, Trim(old(input)))]
    {
      if isProcessing {
        return;
      }
      var text := Trim(input);
      if text == "" {
        return;
      }
      AddMessage(User, text, false);
      input := "";
      isProcessing := true;
      UpdateSendButton();
      outbox := outbox + [Request(ChatCommand, text)];
    }

    /** The window's `message` listener. */
    method OnMessage(e: Event)
      requires Valid()
      modifies this
      ensures Valid()
      ensures Snapshot() == Reduce(old(Snapshot()), e)
      ensures input == old(input) && outbox == old(outbox)
    {
      match e {
        case ChatStart(_) =>
          AddMessage(Assistant, "", true);
        case ChatStream(text) =>
          UpdateLastMessage(text, false, false);
        case ChatComplete(message) =>
          UpdateLastMessage(message.content, false, false);
          isProcessing := false;
          UpdateSendButton();
        case ChatError(text) =>
          UpdateLastMessage(text, false, true);
          isProcessing := false;
          UpdateSendButton();
      }
    }
  }
}
