/**
 The native half of the document bridge: the identifier counter and request
 queue behind `Document` and `Element`, and the single-slot state machine of
 `HtmlView::poll` that admits one request at a time and resolves it when the
 view's reply arrives.

 The two channels are sequences (oldest first). Handing a script to the view
 is "append to `submitted`"; the view's IPC handler is `Deliver`, which
 appends to `replies`. `issued`, `submitted` and `fired` are histories the
 model keeps so that ordering and exactly-once properties can be stated.
 */
module Bridge {
  import opened Protocol

  /** A node handle. The owning document is implicit: a state models one. */
  datatype Element = Element(id: nat)

  /** The receiving half of a completion channel, returned to a caller. */
  datatype Receiver = Receiver(ticket: nat)

  datatype State = State(
    nextId: nat,               // the document's shared id counter
    issued: seq<Request>,      // every request ever sent, in send order
    requests: seq<Request>,    // the request queue, oldest first
    replies: seq<Message>,     // the reply queue, oldest first
    pending: Option<Request>,  // the in-flight slot
    submitted: seq<Script>,    // scripts handed to the view, in order
    fired: seq<nat>,           // tickets of completions fired, in order
    receivers: set<nat>        // tickets whose receiver a caller still holds
  )

  /** A handle is valid in `s` when the requests sent so far bind its id in
      the view: the root, or an id some creation request carries. */
  ghost predicate ValidHandle(s: State, e: Element) {
    e.id in Bound(s.issued)
  }

  /** The bridge right after the view is built: the native counter starts at
      1 (0 is the root), nothing is queued, nothing is in flight. */
  function New(): (s: State)
    ensures s.nextId == 1 && s.nextId !in Bound(s.issued)
    ensures s.issued == [] && s.requests == [] && s.replies == []
    ensures s.pending.None? && s.submitted == [] && s.fired == []
    ensures s.receivers == {}
  {
    State(1, [], [], [], None, [], [], {})
  }

  /** Queues `r`: it joins the end of the request queue and the history. */
  function Send(s: State, r: Request): State {
    s.(issued := s.issued + [r], requests := s.requests + [r])
  }

  /** The ticket of the completion channel created by the next request. */
  function NextTicket(s: State): nat {
    |s.issued|
  }

  /** The root handle: id 0, bound from the start, no request sent. */
  function Body(s: State): (e: Element)
    ensures e.id == 0
    ensures ValidHandle(s, e)
  {
    BoundHasRoot(s.issued);
    Element(0)
  }

  lemma {:induction false} BoundHasRoot(rs: seq<Request>)
    ensures 0 in Bound(rs)
    decreases |rs|
  {
    if rs != [] {
      BoundHasRoot(rs[..|rs| - 1]);
    }
  }

  /** `create_element`: takes the counter's value as the new id, bumps the
      counter by one, queues exactly one CreateElement request for that id
      and returns the handle. The receiver is dropped on return, so no
      caller holds it. Nothing else changes. */
  function CreateElement(s: State, name: string): (r: (Element, State))
    ensures r.0.id == s.nextId
    ensures r.1.nextId == s.nextId + 1
    ensures r.1.requests == s.requests + [Request.CreateElement(s.nextId, name, Some(Sender(|s.issued|)))]
    ensures r.1.issued == s.issued + [Request.CreateElement(s.nextId, name, Some(Sender(|s.issued|)))]
    ensures ValidHandle(r.1, r.0)
    ensures r.1.replies == s.replies && r.1.pending == s.pending
    ensures r.1.submitted == s.submitted && r.1.fired == s.fired && r.1.receivers == s.receivers
  {
    var req := Request.CreateElement(s.nextId, name, Some(Sender(NextTicket(s))));
    BoundSnoc(s.issued, req);
    (Element(s.nextId), Send(s, req).(nextId := s.nextId + 1))
  }

  /** `create_text`: as `CreateElement`, queueing a CreateTextElement. */
  function CreateText(s: State, content: string): (r: (Element, State))
    ensures r.0.id == s.nextId
    ensures r.1.nextId == s.nextId + 1
    ensures r.1.requests == s.requests + [CreateTextElement(s.nextId, content, Some(Sender(|s.issued|)))]
    ensures r.1.issued == s.issued + [CreateTextElement(s.nextId, content, Some(Sender(|s.issued|)))]
    ensures ValidHandle(r.1, r.0)
    ensures r.1.replies == s.replies && r.1.pending == s.pending
    ensures r.1.submitted == s.submitted && r.1.fired == s.fired && r.1.receivers == s.receivers
  {
    var req := CreateTextElement(s.nextId, content, Some(Sender(NextTicket(s))));
    BoundSnoc(s.issued, req);
    (Element(s.nextId), Send(s, req).(nextId := s.nextId + 1))
  }

  /** `parent.append_child(child)`: queues exactly one AppendChild request
      carrying the parent's id then the child's id, and hands its receiver to
      the caller. The id counter and everything else are unchanged. */
  function AppendChild(s: State, parent: Element, child: Element): (r: (Receiver, State))
    ensures r.1.requests == s.requests + [Request.AppendChild(parent.id, child.id, Some(Sender(|s.issued|)))]
    ensures r.1.issued == s.issued + [Request.AppendChild(parent.id, child.id, Some(Sender(|s.issued|)))]
    ensures r.0.ticket == |s.issued| && r.1.receivers == s.receivers + {r.0.ticket}
    ensures r.1.nextId == s.nextId && r.1.replies == s.replies && r.1.pending == s.pending
    ensures r.1.submitted == s.submitted && r.1.fired == s.fired
  {
    var req := Request.AppendChild(parent.id, child.id, Some(Sender(NextTicket(s))));
    (Receiver(NextTicket(s)), Send(s, req).(receivers := s.receivers + {NextTicket(s)}))
  }

  /** `e.set_text_content(content)`: queues exactly one SetText request for
      the handle's own id and hands its receiver to the caller. */
  function SetTextContent(s: State, e: Element, content: string): (r: (Receiver, State))
    ensures r.1.requests == s.requests + [Request.SetText(e.id, content, Some(Sender(|s.issued|)))]
    ensures r.1.issued == s.issued + [Request.SetText(e.id, content, Some(Sender(|s.issued|)))]
    ensures r.0.ticket == |s.issued| && r.1.receivers == s.receivers + {r.0.ticket}
    ensures r.1.nextId == s.nextId && r.1.replies == s.replies && r.1.pending == s.pending
    ensures r.1.submitted == s.submitted && r.1.fired == s.fired
  {
    var req := Request.SetText(e.id, content, Some(Sender(NextTicket(s))));
    (Receiver(NextTicket(s)), Send(s, req).(receivers := s.receivers + {NextTicket(s)}))
  }

  /** A caller lets go of a receiver it was handed. */
  function DropReceiver(s: State, rx: Receiver): (t: State)
    ensures rx.ticket !in t.receivers
    ensures t.receivers + {rx.ticket} == s.receivers + {rx.ticket}
    ensures t.requests == s.requests && t.replies == s.replies && t.pending == s.pending
    ensures t.nextId == s.nextId && t.issued == s.issued && t.submitted == s.submitted && t.fired == s.fired
  {
    s.(receivers := s.receivers - {rx.ticket})
  }

  /** The view's IPC handler: an already-parsed reply joins the reply queue. */
  function Deliver(s: State, m: Message): (t: State)
    ensures t.replies == s.replies + [m]
    ensures t.requests == s.requests && t.pending == s.pending && t.submitted == s.submitted
    ensures t.nextId == s.nextId && t.issued == s.issued && t.fired == s.fired && t.receivers == s.receivers
  {
    s.(replies := s.replies + [m])
  }

  /** Why a poll step panics. */
  datatype Fault =
    | ReplyMismatch(request: Request, reply: Message)  // a reply of the wrong kind reaches `todo!()`
    | SenderTaken                                      // the pending request has no sender left
    | ReceiverDropped(ticket: nat)                     // firing into a receiver nobody holds is unwrapped

  datatype Outcome = Ok(state: State) | Panic(fault: Fault)

  /** How firing a completion treats a receiver the caller has dropped:
      ignore it, or unwrap the failed send and panic. */
  datatype SendMode = IgnoreDropped | UnwrapSend

  /** With the slot empty: the oldest queued request, if any, has its script
      handed to the view and becomes pending. At most one is taken. */
  function Admit(s: State): (t: State)
    ensures s.requests == [] ==> t == s
    ensures s.requests != [] ==> t.requests == s.requests[1..]
    ensures s.requests != [] ==> t.submitted == s.submitted + [Synthesize(s.requests[0])]
    ensures s.requests != [] ==> t.pending == Some(s.requests[0])
    ensures t.nextId == s.nextId && t.issued == s.issued && t.replies == s.replies
    ensures t.fired == s.fired && t.receivers == s.receivers
  {
    if s.requests == [] then s
    else
      var req := s.requests[0];
      s.(requests := s.requests[1..], submitted := s.submitted + [Synthesize(req)], pending := Some(req))
  }

  /** Takes the pending request's sender, fires it and clears the slot. */
  function Complete(s: State, req: Request, mode: SendMode): (r: Outcome)
    ensures req.tx.None? ==> r == Panic(SenderTaken)
    ensures req.tx.Some? && mode.UnwrapSend? && req.tx.value.ticket !in s.receivers
            ==> r == Panic(ReceiverDropped(req.tx.value.ticket))
    ensures r.Ok? <==> req.tx.Some? && (mode.IgnoreDropped? || req.tx.value.ticket in s.receivers)
    ensures r.Ok? ==> r.state.fired == s.fired + [req.tx.value.ticket] && r.state.pending.None?
    ensures r.Ok? ==> && r.state.requests == s.requests && r.state.replies == s.replies
                      && r.state.submitted == s.submitted && r.state.nextId == s.nextId
                      && r.state.issued == s.issued && r.state.receivers == s.receivers
  {
    match req.tx
    case None => Panic(SenderTaken)
    case Some(tx) =>
      if mode.UnwrapSend? && tx.ticket !in s.receivers then Panic(ReceiverDropped(tx.ticket))
      else Ok(s.(fired := s.fired + [tx.ticket], pending := None))
  }

  /** One poll step. With a request pending, one reply is taken if there is
      one: the wrong kind panics, the right kind fires the request's
      completion and clears the slot; no reply means return at once. Once
      the slot is empty, at most one queued request is admitted. */
  function PollWith(s: State, mode: SendMode): Outcome {
    match s.pending
    case None => Ok(Admit(s))
    case Some(req) =>
      if s.replies == [] then Ok(s)
      else if !Matches(req, s.replies[0]) then Panic(ReplyMismatch(req, s.replies[0]))
      else
        match Complete(s.(replies := s.replies[1..]), req, mode)
        case Panic(f) => Panic(f)
        case Ok(t) => Ok(Admit(t))
  }

  /** The poll step in which firing into a dropped receiver is a no-op. */
  function Poll(s: State): (r: Outcome)
    // a pending request with no reply: return at once, nothing changes
    ensures s.pending.Some? && s.replies == [] ==> r == Ok(s)
    // nothing pending and nothing queued: nothing changes
    ensures s.pending.None? && s.requests == [] ==> r == Ok(s)
    // a reply of the wrong kind is never a resolution
    ensures s.pending.Some? && s.replies != [] && !Matches(s.pending.value, s.replies[0])
            ==> r == Panic(ReplyMismatch(s.pending.value, s.replies[0]))
    // a reply of the right kind is consumed and fires that request's completion once
    ensures s.pending.Some? && s.replies != [] && Matches(s.pending.value, s.replies[0]) && s.pending.value.tx.Some?
            ==> r.Ok? && r.state.replies == s.replies[1..]
                && r.state.fired == s.fired + [s.pending.value.tx.value.ticket]
    // with nothing pending, no reply is consumed and nothing fires
    ensures s.pending.None? ==> r.Ok? && r.state.replies == s.replies && r.state.fired == s.fired
    // at most one request is admitted, the oldest, with its script, and it becomes pending
    ensures r.Ok? ==> || (r.state.requests == s.requests && r.state.submitted == s.submitted)
                      || (&& s.requests != []
                          && r.state.requests == s.requests[1..]
                          && r.state.submitted == s.submitted + [Synthesize(s.requests[0])]
                          && r.state.pending == Some(s.requests[0]))
    // an empty slot takes the oldest queued request, if there is one
    ensures s.pending.None? ==> r.state.pending == (if s.requests == [] then None else Some(s.requests[0]))
    // a resolved request leaves the slot, which then takes the oldest queued request, if any
    ensures s.pending.Some? && s.replies != [] && Matches(s.pending.value, s.replies[0]) && s.pending.value.tx.Some?
            ==> r.state.pending == (if s.requests == [] then None else Some(s.requests[0]))
    // an empty slot dequeues the oldest request and submits its script
    ensures s.pending.None? && s.requests != []
            ==> r.state.requests == s.requests[1..] && r.state.submitted == s.submitted + [Synthesize(s.requests[0])]
    // so does a resolution, once the slot is free again
    ensures && s.pending.Some? && s.replies != [] && Matches(s.pending.value, s.replies[0])
            && s.pending.value.tx.Some? && s.requests != []
            ==> r.state.requests == s.requests[1..] && r.state.submitted == s.submitted + [Synthesize(s.requests[0])]
    // a matching reply for a request whose sender is gone panics on the take
    ensures s.pending.Some? && s.replies != [] && Matches(s.pending.value, s.replies[0]) && s.pending.value.tx.None?
            ==> r == Panic(SenderTaken)
    // after a step that completes, the slot is only empty when the queue is
    ensures r.Ok? && r.state.pending.None? ==> r.state.requests == []
    ensures r.Ok? ==> r.state.nextId == s.nextId && r.state.issued == s.issued
    ensures r.Ok? ==> r.state.receivers == s.receivers
  {
    PollWith(s, IgnoreDropped)
  }

  /** The poll step as the source writes it: the send into the completion
      channel is unwrapped, so a dropped receiver panics. */
  function PollAsWritten(s: State): (r: Outcome)
    ensures s.pending.Some? && s.replies != [] && Matches(s.pending.value, s.replies[0])
            && s.pending.value.tx.Some? && s.pending.value.tx.value.ticket !in s.receivers
            ==> r == Panic(ReceiverDropped(s.pending.value.tx.value.ticket))
    // every other step, including idle, no reply, a wrong kind and a missing sender, is the same as Poll
    ensures !(&& s.pending.Some? && s.replies != [] && Matches(s.pending.value, s.replies[0])
              && s.pending.value.tx.Some? && s.pending.value.tx.value.ticket !in s.receivers)
            ==> r == Poll(s)
  {
    PollWith(s, UnwrapSend)
  }

  /** One thing that can happen to the bridge: a handle call, a reply
      arriving from the view, or one turn of the event loop. */
  datatype Event =
    | CreateElementCall(name: string)
    | CreateTextCall(content: string)
    | AppendChildCall(parent: Element, child: Element)
    | SetTextContentCall(target: Element, content: string)
    | DropReceiverCall(rx: Receiver)
    | Reply(msg: Message)
    | PollCall

  function Apply(s: State, e: Event): Outcome {
    match e
    case CreateElementCall(name) => Ok(CreateElement(s, name).1)
    case CreateTextCall(content) => Ok(CreateText(s, content).1)
    case AppendChildCall(parent, child) => Ok(AppendChild(s, parent, child).1)
    case SetTextContentCall(target, content) => Ok(SetTextContent(s, target, content).1)
    case DropReceiverCall(rx) => Ok(DropReceiver(s, rx))
    case Reply(msg) => Ok(Deliver(s, msg))
    case PollCall => Poll(s)
  }

  /** Applies events in order, stopping at the first panic. */
  function Run(s: State, es: seq<Event>): Outcome
    decreases |es|
  {
    if es == [] then Ok(s)
    else
      match Apply(s, es[0])
      case Panic(f) => Panic(f)
      case Ok(t) => Run(t, es[1..])
  }
}
