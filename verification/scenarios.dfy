/**
 The bridge driven by a well-behaved view, and concrete call sequences:
 the behaviours the bridge promises (creation then resolution, two requests
 in send order, a wrong reply kind) and the example application's own
 sequence of calls.
 */
module Scenarios {
  import opened Protocol
  import opened Bridge
  import opened Invariants

  /** A view that runs the in-flight script and posts its reply before the
      next turn of the event loop. */
  function Echo(s: State): State {
    if s.pending.Some? && s.submitted != [] then Deliver(s, s.submitted[|s.submitted| - 1].reply) else s
  }

  /** `rounds` turns of the event loop against that view. */
  function Serve(s: State, rounds: nat): Outcome
    decreases rounds
  {
    if rounds == 0 then Ok(s)
    else
      match Poll(Echo(s))
      case Panic(f) => Panic(f)
      case Ok(t) => Serve(t, rounds - 1)
  }

  /** An idle bridge with nothing queued stays as it is. */
  lemma {:induction false} ServeIdle(s: State, rounds: nat)
    requires s.pending.None? && s.requests == []
    ensures Serve(s, rounds) == Ok(s)
    decreases rounds
  {
    if rounds > 0 {
      ServeIdle(s, rounds - 1);
    }
  }

  /** Idle with an empty queue, every sent request was submitted and fired. */
  lemma IdleMeansDrained(s: State)
    requires Inv(s) && s.pending.None? && s.requests == []
    ensures |s.submitted| == |s.fired| == |s.issued|
  {
    assert s.issued[|s.submitted|..] == [];
  }

  /** What a view that answers relies on: the in-flight request's script is
      the last one submitted and its sender is still there, and every queued
      request carries a sender. */
  ghost predicate Answerable(s: State) {
    && (s.pending.Some? ==> && s.submitted != []
                            && s.submitted[|s.submitted| - 1] == Synthesize(s.pending.value)
                            && s.pending.value.tx.Some?)
    && (forall i :: 0 <= i < |s.requests| ==> s.requests[i].tx.Some?)
  }

  lemma InvAnswerable(s: State)
    requires Inv(s)
    ensures Answerable(s)
  {
    var k := |s.submitted|;
    forall i | 0 <= i < |s.requests|
      ensures s.requests[i].tx.Some?
    {
      assert s.requests[i] == s.issued[k + i];
    }
  }

  /** One turn against a view that answers: no panic, the reply queue is
      empty again, and the queue shrinks unless the bridge went idle. */
  lemma FaithfulTurn(s: State)
    requires Answerable(s) && s.replies == []
    requires s.pending.Some? || s.requests != []
    ensures Poll(Echo(s)).Ok?
    ensures Answerable(Poll(Echo(s)).state)
    ensures Poll(Echo(s)).state.replies == []
    ensures Poll(Echo(s)).state.issued == s.issued
    ensures || |Poll(Echo(s)).state.requests| < |s.requests|
            || (Poll(Echo(s)).state.pending.None? && Poll(Echo(s)).state.requests == [])
  {
    var t := Poll(Echo(s)).state;
    if t.pending.Some? && t.pending != s.pending {
      assert t.requests == s.requests[1..];
      forall i | 0 <= i < |t.requests|
        ensures t.requests[i].tx.Some?
      {
        assert t.requests[i] == s.requests[i + 1];
      }
    }
  }

  /** A turn that does not panic hands its state to the remaining turns. */
  lemma ServeStep(s: State, rounds: nat)
    requires rounds > 0 && Poll(Echo(s)).Ok?
    ensures Serve(s, rounds) == Serve(Poll(Echo(s)).state, rounds - 1)
  {
  }

  /** Against a view that answers, one more turn than there are queued
      requests empties both queues and the slot without a panic. */
  lemma {:induction false} ServeDrains(s: State, rounds: nat)
    requires Answerable(s) && s.replies == []
    requires rounds > |s.requests| || (s.pending.None? && s.requests == [])
    ensures Serve(s, rounds).Ok?
    ensures && Serve(s, rounds).state.requests == [] && Serve(s, rounds).state.replies == []
            && Serve(s, rounds).state.pending.None? && Serve(s, rounds).state.issued == s.issued
    decreases rounds
  {
    if s.pending.None? && s.requests == [] {
      ServeIdle(s, rounds);
    } else {
      FaithfulTurn(s);
      ServeStep(s, rounds);
      ServeDrains(Poll(Echo(s)).state, rounds - 1);
    }
  }

  /** The view's reply only touches the reply queue, and a poll step that
      does not panic keeps the invariant. */
  lemma TurnKeepsInv(s: State)
    requires Inv(s) && Poll(Echo(s)).Ok?
    ensures Inv(Poll(Echo(s)).state)
  {
    assert Inv(Echo(s));
    PollPreservesInv(Echo(s));
  }

  /** Turns that do not panic keep the invariant: the view's reply only
      touches the reply queue, and each poll step keeps it. */
  lemma {:induction false} ServeKeepsInv(s: State, rounds: nat)
    requires Inv(s) && Serve(s, rounds).Ok?
    ensures Inv(Serve(s, rounds).state)
    decreases rounds
  {
    if rounds > 0 {
      assert Poll(Echo(s)).Ok?;
      var t := Poll(Echo(s)).state;
      TurnKeepsInv(s);
      assert Serve(s, rounds) == Serve(t, rounds - 1) by {
        ServeStep(s, rounds);
      }
      ServeKeepsInv(t, rounds - 1);
    }
  }

  /** Nothing queued, nothing in flight, no reply waiting, and every one of
      the `sent` requests submitted and completed, under the invariant. */
  ghost predicate Drained(t: State, sent: seq<Request>) {
    && Inv(t) && t.requests == [] && t.replies == [] && t.pending.None?
    && t.issued == sent && |t.submitted| == |t.fired| == |sent|
  }

  /** Liveness against a view that answers every script: one more turn than
      there are queued requests never panics, and leaves every sent request
      submitted and its completion fired, in send order, with both queues
      empty and nothing in flight. */
  lemma FaithfulViewDrains(s: State, rounds: nat)
    requires Inv(s) && s.replies == []
    requires rounds > |s.requests| || (s.pending.None? && s.requests == [])
    ensures Serve(s, rounds).Ok? && Drained(Serve(s, rounds).state, s.issued)
  {
    InvAnswerable(s);
    ServeDrains(s, rounds);
    ServeKeepsInv(s, rounds);
    IdleMeansDrained(Serve(s, rounds).state);
  }

  /** Creating a "div" returns id 1 and queues one request; a poll submits
      its script and makes it pending; the CreateNode reply fires its
      completion and the bridge is idle again. */
  lemma CreateElementRoundTrip()
    ensures Bridge.CreateElement(New(), "div").0 == Element(1)
    ensures Bridge.CreateElement(New(), "div").1.requests == [Request.CreateElement(1, "div", Some(Sender(0)))]
    ensures Run(New(), [CreateElementCall("div"), PollCall]).Ok?
    ensures Run(New(), [CreateElementCall("div"), PollCall]).state.pending
            == Some(Request.CreateElement(1, "div", Some(Sender(0))))
    ensures Run(New(), [CreateElementCall("div"), PollCall]).state.submitted
            == [Script(BindElement(1, "div"), CreateNode)]
    ensures Run(New(), [CreateElementCall("div"), PollCall, Reply(CreateNode), PollCall]).Ok?
    ensures Run(New(), [CreateElementCall("div"), PollCall, Reply(CreateNode), PollCall]).state.pending.None?
    ensures Run(New(), [CreateElementCall("div"), PollCall, Reply(CreateNode), PollCall]).state.fired == [0]
  {
    var s0 := New();
    var s1 := Bridge.CreateElement(s0, "div").1;
    var s2 := Poll(s1).state;
    var s3 := Deliver(s2, CreateNode);
    assert Run(New(), [CreateElementCall("div"), PollCall, Reply(CreateNode), PollCall])
        == Run(s1, [PollCall, Reply(CreateNode), PollCall]);
  }

  /** The state after `create_element("div")` and `set_text_content` on the
      new handle, before any poll. */
  function TwoQueued(): State {
    var ce := Request.CreateElement(1, "div", Some(Sender(0)));
    var st := Request.SetText(1, "hi", Some(Sender(1)));
    State(2, [ce, st], [ce, st], [], None, [], [], {1})
  }

  lemma TwoQueuedCalls()
    ensures Run(New(), [CreateElementCall("div"), SetTextContentCall(Element(1), "hi")]) == Ok(TwoQueued())
  {
  }

  /** The state once the creation has been answered: ticket 0 fired and the
      text update in flight. */
  function FirstDone(): State {
    TwoQueued().(requests := [], pending := Some(TwoQueued().issued[1]), fired := [0],
                 submitted := [Script(BindElement(1, "div"), CreateNode), Script(AssignValue(1, "hi"), Message.SetText)])
  }

  /** The first poll submits only the creation; once its reply is in, the
      next poll fires ticket 0 and submits the text update. */
  lemma FirstAnswered()
    ensures Run(TwoQueued(), [PollCall, Reply(CreateNode), PollCall]) == Ok(FirstDone())
  {
  }

  /** The text update's reply fires ticket 1 and leaves the bridge idle. */
  lemma SecondAnswered()
    ensures Run(FirstDone(), [Reply(Message.SetText), PollCall]) == Ok(FirstDone().(pending := None, fired := [0, 1]))
  {
  }

  /** Two requests sent back to back are submitted in send order and
      complete in that order. */
  lemma SendOrderIsSubmitOrder()
    ensures var es := [CreateElementCall("div"), SetTextContentCall(Element(1), "hi"),
                       PollCall, Reply(CreateNode), PollCall, Reply(Message.SetText), PollCall];
            && Run(New(), es).Ok?
            && Run(New(), es).state.submitted
               == [Script(BindElement(1, "div"), CreateNode), Script(AssignValue(1, "hi"), Message.SetText)]
            && Run(New(), es).state.fired == [0, 1]
  {
    var calls := [CreateElementCall("div"), SetTextContentCall(Element(1), "hi")];
    var first := [PollCall, Reply(CreateNode), PollCall];
    var second := [Reply(Message.SetText), PollCall];
    assert [CreateElementCall("div"), SetTextContentCall(Element(1), "hi"),
            PollCall, Reply(CreateNode), PollCall, Reply(Message.SetText), PollCall]
        == calls + (first + second);
    TwoQueuedCalls();
    FirstAnswered();
    SecondAnswered();
    RunConcat(TwoQueued(), first, second);
    RunConcat(New(), calls, first + second);
  }

  /** Without a reply the second request stays queued: a second poll submits
      nothing. */
  lemma SecondWaitsForReply()
    ensures Run(New(), [CreateElementCall("div"), SetTextContentCall(Element(1), "hi"), PollCall, PollCall])
              .state.submitted == [Script(BindElement(1, "div"), CreateNode)]
  {
    var s2 := SetTextContent(Bridge.CreateElement(New(), "div").1, Element(1), "hi").1;
    assert Run(New(), [CreateElementCall("div"), SetTextContentCall(Element(1), "hi"), PollCall, PollCall])
        == Run(s2, [PollCall, PollCall]);
  }

  /** A SetText reply while a CreateElement is pending is a protocol
      violation: the step panics instead of resolving either request. */
  lemma WrongReplyKindPanics()
    ensures Run(New(), [CreateElementCall("div"), PollCall, Reply(Message.SetText), PollCall])
            == Panic(ReplyMismatch(Request.CreateElement(1, "div", Some(Sender(0))), Message.SetText))
  {
    var s1 := Bridge.CreateElement(New(), "div").1;
    assert Run(New(), [CreateElementCall("div"), PollCall, Reply(Message.SetText), PollCall])
        == Run(s1, [PollCall, Reply(Message.SetText), PollCall]);
  }

  /** As written, every creation request panics when its reply arrives: the
      receiver of its completion channel was dropped when the creating call
      returned, and the send into it is unwrapped. The corrected step
      resolves the same state. */
  lemma AsWrittenCreationReplyPanics(s: State)
    requires Inv(s)
    requires s.pending.Some? && s.pending.value.IsCreation()
    requires s.replies != [] && s.replies[0] == CreateNode
    ensures PollAsWritten(s) == Panic(ReceiverDropped(|s.submitted| - 1))
    ensures Poll(s).Ok? && Poll(s).state.fired == s.fired + [|s.submitted| - 1]
  {
    var k := |s.submitted|;
    assert s.pending.value.tx == Some(Sender(k - 1));
    assert k - 1 !in s.receivers;
    ResolvePreservesInv(s);
  }

  /** The example application's calls: a text node "0", appended under the
      body, then its text set to "1"; neither receiver is kept. */
  function ExampleCalls(): seq<Event> {
    [ CreateTextCall("0")
    , AppendChildCall(Element(0), Element(1)), DropReceiverCall(Receiver(1))
    , SetTextContentCall(Element(1), "1"), DropReceiverCall(Receiver(2)) ]
  }

  /** The requests the example's calls send, in order. */
  function ExampleRequests(): seq<Request> {
    [ CreateTextElement(1, "0", Some(Sender(0)))
    , Request.AppendChild(0, 1, Some(Sender(1)))
    , Request.SetText(1, "1", Some(Sender(2))) ]
  }

  /** The example's calls queue a text-node creation for id 1, its append
      under the root, and its text update, in that order; no caller keeps a
      receiver and nothing has gone to the view yet. */
  lemma ExampleQueues()
    ensures Run(New(), ExampleCalls()) == Ok(ExampleQueued())
  {
    var rs := ExampleRequests();
    var es := ExampleCalls();
    var s1 := State(2, rs[..1], rs[..1], [], None, [], [], {});
    var s2 := State(2, rs[..2], rs[..2], [], None, [], [], {1});
    var s3 := State(2, rs[..2], rs[..2], [], None, [], [], {});
    var s4 := State(2, rs, rs, [], None, [], [], {2});
    assert Apply(New(), es[0]) == Ok(s1);
    assert Apply(s1, es[1]) == Ok(s2);
    assert Apply(s2, es[2]) == Ok(s3);
    assert Apply(s3, es[3]) == Ok(s4);
    assert Run(s4, es[4..]) == Ok(ExampleQueued());
    assert Run(s3, es[3..]) == Run(s4, es[4..]);
    assert Run(s2, es[2..]) == Run(s3, es[3..]);
    assert Run(s1, es[1..]) == Run(s2, es[2..]);
  }

  /** The state the example's calls leave behind. */
  function ExampleQueued(): State {
    State(2, ExampleRequests(), ExampleRequests(), [], None, [], [], {})
  }

  lemma ExampleQueuedInv()
    ensures Inv(ExampleQueued())
  {
    var s := ExampleQueued();
    assert CreatedIds(s.issued) == Span(1, 2) by {
      assert s.issued[..2][..1] == s.issued[..1];
      assert s.issued[..3][..2] == s.issued[..2];
      assert s.issued[..1][..0] == [];
    }
  }

  /** Once drained, the i-th sent request's script is the i-th submitted and
      its ticket the i-th fired. */
  lemma DrainedLogs(t: State, sent: seq<Request>)
    requires Drained(t, sent)
    ensures forall i :: 0 <= i < |sent| ==> t.submitted[i] == Synthesize(sent[i]) && t.fired[i] == i
  {
  }

  /** Against a view that answers, the example's three requests reach the
      view as "create text 0 as id 1", "append 1 under 0", "set 1 to 1", in
      that order, and all three complete within four turns of the loop. */
  lemma ExampleCompletes(rounds: nat)
    requires rounds >= 4
    ensures Serve(ExampleQueued(), rounds).Ok?
    ensures Serve(ExampleQueued(), rounds).state.submitted
            == [ Script(BindText(1, "0"), CreateNode)
               , Script(AppendNode(0, 1), Message.AppendChild)
               , Script(AssignValue(1, "1"), Message.SetText) ]
    ensures Serve(ExampleQueued(), rounds).state.fired == [0, 1, 2]
  {
    var s := ExampleQueued();
    ExampleQueuedInv();
    FaithfulViewDrains(s, rounds);
    var t := Serve(s, rounds).state;
    DrainedLogs(t, ExampleRequests());
    assert |t.submitted| == |t.fired| == 3;
    assert t.submitted == [Synthesize(ExampleRequests()[0]), Synthesize(ExampleRequests()[1]), Synthesize(ExampleRequests()[2])];
    assert t.fired == [t.fired[0], t.fired[1], t.fired[2]];
  }

  /** As written, the example panics on the first reply: the text node's
      creation is answered, and its completion's receiver is gone. */
  lemma ExampleAsWrittenPanics()
    ensures PollAsWritten(Echo(Poll(ExampleQueued()).state)) == Panic(ReceiverDropped(0))
  {
    var s := ExampleQueued();
    var p := Poll(s).state;
    assert p.pending == Some(ExampleRequests()[0]);
    assert Echo(p).replies == [CreateNode];
  }
}
