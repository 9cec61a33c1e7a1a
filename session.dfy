/** The two sides connected: a submit on the page, the controller's relay of
    the resulting `chat` request, and the page handling every event it is
    posted, in the order posted. */
module Session {
  import opened Protocol
  import opened Controller
  import opened Webview

  /** The assistant entry an exchange leaves behind: the whole answer, or the
      prefixed error marked as an error. */
  function FinalEntry(b: Backend): (e: Entry)
    ensures e.role == Assistant && !e.loading && e.error == Fails(b)
    ensures e.content == if Fails(b) then ErrorPrefix + FailureMessage(b) else Joined(Fragments(b))
  {
    Entry(Assistant, Payload(Terminal(b)), false, Fails(b))
  }

  const OpenEntry: Entry := Entry(Assistant, "", true, false)

  /** While fragments arrive, the open assistant entry shows the text so far,
      and nothing before it changes. */
  lemma {:induction false} StreamsFillLastEntry(t: seq<Entry>, p: bool, fs: seq<string>)
    ensures ReduceAll(View(t + [OpenEntry], p), StreamEvents(fs)) ==
      View(t + [if fs == [] then OpenEntry else Entry(Assistant, Joined(fs), false, false)], p)
    decreases |fs|
  {
    var v := View(t + [OpenEntry], p);
    if fs == [] {
      assert StreamEvents(fs) == [];
    } else {
      var evs := StreamEvents(fs);
      assert evs[..|evs| - 1] == StreamEvents(fs[..|fs| - 1]);
      StreamsFillLastEntry(t, p, fs[..|fs| - 1]);
      var w := Reduce(ReduceAll(v, evs[..|evs| - 1]), evs[|evs| - 1]);
      assert w.transcript == t + [Entry(Assistant, Joined(fs), false, false)];
    }
  }

  /** After an accepted submit, handling everything the controller posts for
      that prompt leaves the user entry followed by one finished assistant
      entry (the whole answer, or the error), and re-enables submitting. */
  lemma ExchangeOutcome(t: seq<Entry>, text: string, b: Backend)
    ensures ReduceAll(View(t + [Entry(User, text, false, false)], true), Relay(Request(ChatCommand, text), b)) ==
      View(t + [Entry(User, text, false, false), FinalEntry(b)], false)
  {
    var t1 := t + [Entry(User, text, false, false)];
    var v := View(t1, true);
    var start := ChatStart(ChatMessage(Assistant, ""));
    var streams := StreamEvents(Fragments(b));
    var posted := [start] + streams + [Terminal(b)];
    assert Relay(Request(ChatCommand, text), b) == posted;

    var v1 := Reduce(v, start);
    assert ReduceAll(v, [start]) == v1 by {
      assert [start][..0] == [];
    }
    assert v1 == View(t1 + [OpenEntry], true);

    StreamsFillLastEntry(t1, true, Fragments(b));
    var v2 := ReduceAll(v1, streams);
    ReduceAllAppend(v, [start], streams);

    var v3 := Reduce(v2, Terminal(b));
    assert ReduceAll(v, posted) == v3 by {
      assert posted[..|posted| - 1] == [start] + streams;
    }
    assert |v3.transcript| == |t1| + 1;
    assert v3.transcript == t1 + [FinalEntry(b)];
  }

  /** A later `chatStream`, `chatComplete` or `chatError` overwrites whatever
      the `chatStream` events before it wrote: the page ends up as if they
      had never been posted. */
  lemma {:induction false} StreamsOverwritten(v: View, fs: seq<string>, e: Event)
    requires !e.ChatStart?
    ensures Reduce(ReduceAll(v, StreamEvents(fs)), e) == Reduce(v, e)
    decreases |fs|
  {
    var evs := StreamEvents(fs);
    if fs == [] {
      assert evs == [];
    } else {
      var init := StreamEvents(fs[..|fs| - 1]);
      assert evs[..|evs| - 1] == init;
      StreamSuperseded(ReduceAll(v, init), Joined(fs), e);
      StreamsOverwritten(v, fs[..|fs| - 1], e);
    }
  }

  /** The page's state after an exchange depends only on its first and its
      terminal event: the cumulative `chatStream` payloads are redundant. */
  lemma RelayStreamsRedundant(v: View, req: Request, b: Backend)
    requires req.command == ChatCommand
    ensures ReduceAll(v, Relay(req, b)) == ReduceAll(v, [ChatStart(ChatMessage(Assistant, "")), Terminal(b)])
  {
    var start := ChatStart(ChatMessage(Assistant, ""));
    var streams := StreamEvents(Fragments(b));
    var posted := Relay(req, b);
    assert posted[..|posted| - 1] == [start] + streams;
    ReduceAllAppend(v, [start], streams);
    var started := ReduceAll(v, [start]);
    StreamsOverwritten(started, Fragments(b), Terminal(b));
    assert [start, Terminal(b)][..1] == [start];
  }

  /** The page's `message` listener called once per event, in order. */
  method Deliver(page: ChatPage, events: seq<Event>)
    requires page.Valid()
    modifies page
    ensures page.Valid()
    ensures page.Snapshot() == ReduceAll(old(page.Snapshot()), events)
    ensures page.input == old(page.input) && page.outbox == old(page.outbox)
  {
    var i := 0;
    while i < |events|
      invariant 0 <= i <= |events|
      invariant page.Valid()
      invariant page.Snapshot() == ReduceAll(old(page.Snapshot()), events[..i])
      invariant page.input == old(page.input) && page.outbox == old(page.outbox)
    {
      assert events[..i + 1][..i] == events[..i];
      page.OnMessage(events[i]);
      i := i + 1;
    }
    assert events[..i] == events;
  }

  /** One round trip: the user submits the prompt, the controller handles the
      posted request against backend `b`, and the page handles every event. */
  method Exchange(page: ChatPage, b: Backend)
    requires page.Valid()
    modifies page
    ensures page.Valid()
    ensures old(page.isProcessing) || Trim(old(page.input)) == "" ==> unchanged(page)
    ensures !old(page.isProcessing) && Trim(old(page.input)) != "" ==>
      && page.transcript == old(page.transcript) + [Entry(User, Trim(old(page.input)), false, false), FinalEntry(b)]
      && !page.isProcessing
      && !page.sendDisabled
      && page.input == ""
      && page.outbox == old(page.outbox) + [Request(ChatCommand, Trim(old(page.input)))]
  {
    var sent := |page.outbox|;
    page.Submit();
    if |page.outbox| > sent {
      var request := page.outbox[sent];
      var events := HandleMessage(request, b);
      Deliver(page, events);
      ExchangeOutcome(old(page.transcript), request.text, b);
    }
  }

  /** A prompt answered in two fragments: the events the controller posts. */
  method ScenarioHelloRelay() {
    var b := Streams(["Hi", " there"], Done);
    var events := HandleMessage(Request(ChatCommand, "hello"), b);
    assert events == [ChatStart(ChatMessage(Assistant, "")), ChatStream("Hi"),
                      ChatStream("Hi there"), ChatComplete(ChatMessage(Assistant, "Hi there"))] by {
      assert ["Hi", " there"][..1] == ["Hi"];
      assert ["Hi", " there"][..2] == ["Hi", " there"];
      assert Joined(["Hi"]) == "Hi" by {
        assert ["Hi"][..0] == [];
      }
      assert Joined(["Hi", " there"]) == "Hi there";
      StreamPayload(Request(ChatCommand, "hello"), b, 1);
      StreamPayload(Request(ChatCommand, "hello"), b, 2);
    }
  }

  /** The same exchange seen from the page: the final transcript. */
  method ScenarioHelloPage() {
    var b := Streams(["Hi", " there"], Done);
    var page := new ChatPage();
    page.input := "hello";
    assert Trim("hello") == "hello" by {
      assert !IsWhitespace('h') && !IsWhitespace('o');
    }
    Exchange(page, b);
    assert Joined(["Hi", " there"]) == "Hi there" by {
      assert ["Hi", " there"][..1] == ["Hi"];
      assert ["Hi"][..0] == [];
    }
    assert page.transcript == [Entry(User, "hello", false, false), Entry(Assistant, "Hi there", false, false)];
    assert !page.isProcessing;
  }

  /** A backend call that rejects before any fragment. */
  method ScenarioTimeout() {
    var b := CallRejects("timeout");
    assert ErrorPrefix + "timeout" == "Error: timeout";
    var events := HandleMessage(Request(ChatCommand, "x"), b);
    assert events == [ChatStart(ChatMessage(Assistant, "")), ChatError("Error: timeout")];
    var page := new ChatPage();
    page.input := "x";
    assert Trim("x") != "" by {
      TrimSpec("x");
      assert !IsWhitespace("x"[0]);
    }
    Exchange(page, b);
    assert page.transcript[|page.transcript| - 1] == Entry(Assistant, "Error: timeout", false, true);
    assert !page.isProcessing && !page.sendDisabled;
  }
}
