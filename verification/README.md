# web-slinger document bridge, modelled in Dafny

web-slinger lets native Rust code build a page inside an embedded web view
through node handles. `Document::create_element` / `create_text` and
`Element::append_child` / `set_text_content` do not touch the view: each one
sends a `Request` on an unbounded channel. `HtmlView::poll`, called once per
turn of the event loop, is the single consumer. It keeps at most one request
in flight (`pending`). It turns an admitted request into a script that the
view runs, and it waits for the view's one-word reply (`Message`). On a reply
of the right kind it fires the request's one-shot completion and clears the
slot.

This project models that bridge as pure functions over immutable state:

- `protocol.dfy` (module `Protocol`) has `Request`, `Message` and the
  abstract `Script` (view-side operation, identifiers, text, reply kind).
  It also has the reply kind the poll step expects for each request, and
  the per-request script synthesis.
- `view.dfy` (module `View`) has the view-side identifier table seeded by
  `HtmlView::new` (0 is the body, mirrored counter 1). It also says what one
  script does to that table and which reply the script posts.
- `bridge.dfy` (module `Bridge`) has the bridge `State`. The state holds the
  id counter, the request queue, the reply queue, the pending slot, the
  scripts submitted, the completions fired, and the receivers callers still
  hold. The module has the handle operations, the poll step (corrected and
  as written), and a run of events.
- `invariants.dfy` (module `Invariants`) has the invariant of reachable
  states, its preservation by every event and every run, and what follows
  from it.
- `scenarios.dfy` (module `Scenarios`) drives the bridge with a view that
  answers every script (liveness). It also holds concrete call sequences,
  including the example application's.

The two channels are sequences, oldest first. Two foreign calls become list
appends: handing a script to the view appends to `submitted`, and the view's
IPC handler (`Deliver`) appends to `replies`. A completion sender is
`Sender(ticket)`, where the ticket is the position of its request in the
history of sent requests. Firing it appends the ticket to `fired`.

Where the code's behaviour and its evident intent part ways, the model
follows the code in the first two cases below. In the third it models both
readings: `PollAsWritten` is the code's step and `Poll` the corrected one.
The event model (`Apply`, `Run`, `Reachable`) and every scenario built on it
use the corrected step, `Poll`:
- A reply kind that does not match the pending request reaches `todo!()`.
  The model makes it a `Panic(ReplyMismatch(..))` outcome, never a
  resolution.
- Script submission failures are unwrapped in the code, not propagated as
  recoverable errors. They are left out (see below).
- Firing a completion whose receiver was dropped is unwrapped in the code, so
  it panics. The commented-out `rx.await.unwrap()` at src/lib.rs:106 and 123
  shows the creation receiver was meant to outlive the call. The code's
  step is `PollAsWritten`; the event model uses the corrected `Poll`. See
  Findings.
- A reply that arrives while nothing is pending stays in the reply queue.
  The next admitted request will consume it. The poll step's contract
  states this: with nothing pending, no reply is consumed.

## Model

| member | source | states |
|---|---|---|
| Protocol.Synthesize | src/lib.rs:256-311 | The script for each request posts exactly the reply kind the poll step accepts for that request. Its operation reads exactly the ids the request looks up and binds exactly the ids it creates. |
| Protocol.BoundIsCreated | src/lib.rs:154-165 | The ids bound in the view after a request history are the root 0 plus exactly the ids its creation requests carry. |
| Protocol.ScopedPrefix | src/lib.rs:256-311 | Every prefix of a history in which each lookup refers to an earlier creation (or the root) has the same property. |
| View.Seed | src/lib.rs:154-165 | The view's table starts with only id 0, bound to the body. The mirrored counter starts at 1 and no reply has been posted. |
| View.Execute | src/lib.rs:263-308 | A script runs exactly when every id it looks up is bound. It then binds exactly the ids it creates, an element or text node carrying the script's name or text, and posts exactly its own reply. A value write replaces only the looked-up node, and every other binding is unchanged. A failed lookup posts nothing. |
| View.SynthesizedEffect | src/lib.rs:256-311 | The script of CreateElement binds an element with the request's name under its id, and the script of CreateTextElement binds a text node holding its text. SetText on a text node replaces its data and leaves any other node unchanged. AppendChild rebinds nothing. Each runs exactly when the ids it looks up are bound, and then posts exactly the reply kind the bridge waits for. |
| View.ScopedScriptsRun | src/lib.rs:256-311 | If each request only looks up ids created before it, running their scripts in order from the seeded table never fails. It binds the root and the created ids, and it posts one reply per request, of the kind the bridge expects. |
| Bridge.New | src/lib.rs:167-179 | The native counter starts at 1, an id not yet bound. Both queues and the slot are empty and nothing has been submitted or fired. |
| Bridge.Body | src/lib.rs:90-95 | The root handle has id 0 and is valid in every state. It sends no request: the state is not an output. |
| Bridge.CreateElement | src/lib.rs:96-111 | Returns the counter's current value as the new id and bumps the counter by exactly one. Appends exactly one CreateElement request for that id, with the next ticket, to the end of the queue. The new handle is valid, and the replies, slot, logs and held receivers are unchanged. |
| Bridge.CreateText | src/lib.rs:113-128 | Same as create_element, with a CreateTextElement request carrying the text. |
| Bridge.AppendChild | src/lib.rs:25-36 | Appends exactly one AppendChild request, with the parent's id then the child's id and the next ticket, to the end of the queue. Hands that ticket's receiver to the caller. The counter, replies, slot and logs are unchanged. |
| Bridge.SetTextContent | src/lib.rs:38-49 | Appends exactly one SetText request for the handle's own id and text to the end of the queue, and hands its receiver to the caller. Nothing else changes. |
| Bridge.DropReceiver | src/lib.rs:25-49 | After the caller drops a receiver it no longer holds it, and the other held receivers are unchanged. Both queues, the slot, the counter and the sent, submitted and fired logs are unchanged. |
| Bridge.Deliver | src/lib.rs:148-151 | The IPC handler appends the parsed reply to the end of the reply queue. The request queue, slot, counter, sent, submitted and fired logs and held receivers are unchanged. |
| Bridge.Admit | src/lib.rs:256-311 | With an empty queue nothing changes. Otherwise the oldest request leaves the queue, exactly its script is appended to the submitted log, and it becomes pending. |
| Bridge.Complete | src/lib.rs:194-202 | A request with no sender left panics with SenderTaken. When the send is unwrapped and nobody holds the receiver, it panics with ReceiverDropped for that ticket. Otherwise the ticket is appended to the fired log once and the slot is cleared. The queues, submitted log, history, counter and receivers are unchanged. |
| Bridge.Poll | src/lib.rs:186-312 | A pending request with no reply: nothing changes. Idle with nothing queued: nothing changes. A wrong-kind reply panics. A right-kind reply is consumed and fires that request's completion once. At most the oldest request is admitted, with its script, and becomes pending. Starting from an empty slot, or after a resolution, the slot ends up holding the oldest queued request, or nothing if the queue was empty. After a successful step the slot is empty only if the queue is. Counter, history and receivers are unchanged. |
| Bridge.PollAsWritten | src/lib.rs:186-311 | With the send unwrapped, a matching reply for a request whose receiver nobody holds panics with ReceiverDropped. In every other case the step is the same as Poll: idle, no reply, a wrong kind, a missing sender, or a held receiver. |
| Invariants.SpanMembers | src/lib.rs:96-128 | The i-th of the ids lo, lo+1, ... is lo+i. These are the values a fetch-and-increment counter hands out. |
| Invariants.NewSatisfiesInv | src/lib.rs:167-179 | The bridge as built satisfies the invariant and its (empty) history is scoped. |
| Invariants.HistorySnoc | src/lib.rs:25-128 | Appending a request that carries the next ticket keeps the i-th request's ticket equal to i. The submitted scripts stay those of the first requests sent, the queue stays the unsubmitted rest, and every held receiver still belongs to a sent append or set-text request. |
| Invariants.QueuePreservesInv | src/lib.rs:96-128 | Sending a request with the next ticket keeps the invariant. A creation must take the counter's value and bump it, and callers may only be handed the receiver of a non-creation request. |
| Invariants.AdmitPreservesInv | src/lib.rs:256-311 | Admitting from an empty slot keeps the invariant: the admitted request is the next unsubmitted one in send order. |
| Invariants.ResolvePreservesInv | src/lib.rs:194-252 | A matching reply never panics under the invariant. It fires exactly the ticket of the last submitted request and keeps the invariant. |
| Invariants.CallPreservesInv | src/lib.rs:25-128 | The four handle calls never panic, and each keeps the invariant. |
| Invariants.PollPreservesInv | src/lib.rs:186-311 | A poll step that does not panic keeps the invariant. |
| Invariants.ApplyPreservesInv | src/lib.rs:25-311 | Every handle call, reply delivery, receiver drop or poll step that does not panic keeps the invariant. |
| Invariants.RunPreservesInv | src/lib.rs:186-311 | Every run of events that does not panic keeps the invariant. |
| Invariants.PollPanicsOnlyOnMismatch | src/lib.rs:186-252 | Under the invariant a poll step panics exactly when a request is pending and the next reply is of the wrong kind. |
| Invariants.IdsFreshAndIncreasing | src/lib.rs:96-128 | The ids handed out so far are 1, 2, ..., counter-1, in order: strictly increasing, never repeated, never the root's 0. A handle is valid exactly when its id is below the counter. |
| Invariants.InFlightAccounting | src/lib.rs:186-311 | Submitted minus fired is 1 exactly while a request is pending, and 0 otherwise. A request's completion has fired exactly when it was submitted and is no longer pending. No completion fires twice. |
| Invariants.ApplyExtendsLogs | src/lib.rs:186-311 | One event that does not panic only appends to the sent, submitted and fired logs, and never lowers the counter. |
| Invariants.RunExtendsLogs | src/lib.rs:186-311 | Over any run the sent, submitted and fired logs only grow (each start log is a prefix of the end log), and the counter never goes back. |
| Invariants.RunConcat | src/lib.rs:186-311 | A run of a + b that gets through a without a panic is the run of b from where a ended. |
| Invariants.ApplyPreservesScoped | src/lib.rs:25-128 | Sending requests that name only valid handles keeps every lookup after the creation it depends on in queue order. |
| Invariants.RunPreservesScoped | src/lib.rs:25-128 | The same over any run whose events use only valid handles. |
| Invariants.SubmittedScriptsRunInView | src/lib.rs:256-311 | With handles used as handed out, the scripts submitted so far run in order in the seeded view without a failed lookup. Each posts a reply that the matching request accepts. |
| Invariants.Reachable | src/lib.rs:140-311 | After any run from a fresh bridge that does not panic and uses only valid handles, the invariant holds and the history is scoped. |
| Scenarios.ServeIdle | src/lib.rs:186-311 | An idle bridge with an empty queue stays unchanged over any number of event-loop turns. |
| Scenarios.IdleMeansDrained | src/lib.rs:186-311 | Idle with an empty queue, every sent request has been submitted and completed. |
| Scenarios.InvAnswerable | src/lib.rs:186-311 | Under the invariant, the in-flight request's script is the last one submitted and it still has its sender, and every queued request carries a sender. |
| Scenarios.FaithfulTurn | src/lib.rs:186-311 | Against a view that answers the in-flight script, a turn never panics and keeps those two facts. It empties the reply queue, keeps the history, and shrinks the request queue unless the bridge went idle. |
| Scenarios.TurnKeepsInv | src/lib.rs:148-311 | A reply from the view followed by a poll step that does not panic keeps the invariant. |
| Scenarios.ServeDrains | src/lib.rs:186-311 | Against a view that answers, one more turn than there are queued requests never panics. It leaves both queues empty, nothing in flight and the history unchanged. |
| Scenarios.ServeKeepsInv | src/lib.rs:186-311 | Any number of event-loop turns against that view that do not panic keep the invariant. |
| Scenarios.DrainedLogs | src/lib.rs:186-311 | Once drained, the i-th submitted script is the i-th sent request's script and the i-th fired ticket is i. |
| Scenarios.FaithfulViewDrains | src/lib.rs:186-311 | Against a view that answers, one more turn than there are queued requests never panics. It leaves every sent request submitted and completed, in send order, with both queues empty and nothing in flight. |
| Scenarios.CreateElementRoundTrip | src/lib.rs:96-311 | Under the corrected step: Creating "div" returns id 1 and queues one request. A poll submits its script and makes it pending. The CreateNode reply fires its completion (ticket 0) and the bridge is idle again. |
| Scenarios.SendOrderIsSubmitOrder | src/lib.rs:38-311 | Under the corrected step: A CreateElement then a SetText sent before any poll reach the view in that order, each as its own script, and their completions fire in that order (tickets 0 then 1). |
| Scenarios.SecondWaitsForReply | src/lib.rs:186-311 | With the same two requests queued and no reply, a second poll submits nothing: the SetText waits for the CreateNode reply. |
| Scenarios.FirstAnswered | src/lib.rs:186-311 | Under the corrected step: From those two queued requests, poll, the CreateNode reply, then poll fires ticket 0, submits the SetText script and makes it pending. |
| Scenarios.WrongReplyKindPanics | src/lib.rs:207-216 | A SetText reply while a CreateElement is pending panics with a reply mismatch instead of resolving anything. |
| Scenarios.AsWrittenCreationReplyPanics | src/lib.rs:96-230 | As written, the CreateNode reply to any pending creation request panics, because its receiver was dropped when the creating call returned. The corrected step resolves the same state and fires its completion. |
| Scenarios.ExampleQueues | examples/main.rs:21-31 | The example's calls queue a text creation for id 1, its append under the root, and its text update, in that order. No receiver is kept. |
| Scenarios.ExampleQueuedInv | examples/main.rs:21-31 | The state the example's calls leave behind satisfies the invariant. |
| Scenarios.ExampleCompletes | examples/main.rs:21-31 | Under the corrected step: Against a view that answers, those three requests reach the view in order as the expected scripts and all complete within four turns. |
| Scenarios.ExampleAsWrittenPanics | examples/main.rs:22-28 | As written, the example panics on the first reply it receives. |

## Left out

- `HtmlView::run` (src/lib.rs:314-390) is left out. So are the GTK/X11 hooks and the window and event loop in the example: they are GUI plumbing. The loop is represented only as repeated poll steps (`Run`, `Serve`).
- wry `WebView` construction, `evaluate_script` and the IPC handler closure (src/lib.rs:140-165) are foreign calls. They appear only as appends to the submitted log and to the reply queue. Their `.unwrap()` failure paths (script submission errors) are not modelled.
- JSON parsing of `Message` (src/lib.rs:52-53, 149) is left out, including the panic on a malformed message. Replies arrive already parsed.
- The JavaScript text, its quoting and escaping are left out. The SetText script inserts the text without quotes, so only text that is a valid script expression would run. The element and text names are not escaped. The CreateElement script declares a top-level `let element` each time (src/lib.rs:279). Not executed, but in a browser engine a second such script would throw on the redeclaration before posting its reply. Its request would then stay pending and the bridge would wait for that reply forever. `View.Execute` does not model this. Scripts are abstract (operation, ids, text, reply kind), and `View.Execute` assumes each script reaches its reply whenever its lookups succeed.
- Protocol.Synthesize: the AppendChild script's operation keeps the parent and child in the request's order, but no contract observes that order, because the node tree is not modelled.
- DOM semantics beyond the id table are left out. The model does not track the node tree, so errors the engine would raise (appending a node under its own descendant, for example) are not modelled.
- Real concurrency is left out: the atomic counter, the multi-producer channels and the one-shot channels are a sequential counter and sequences. Each handle call is one event of a run.
- Allocating an id and sending its creation request are one step here. In the code they are two (src/lib.rs:97 then 99-105, and 114 then 116-122), so two producers on different threads could queue CreateElement(2) before CreateElement(1). The invariant's "creation requests carry 1, 2, 3, ... in queue order" (`Invariants.Inv`, `Invariants.IdsFreshAndIncreasing`) therefore holds only for a single producer. The model does not cover several producers.
- The event model (`Apply`, `Run`) takes the corrected poll step, `Poll`. So `Invariants.Reachable`, `Scenarios.FaithfulViewDrains`, `Scenarios.CreateElementRoundTrip`, `Scenarios.SendOrderIsSubmitOrder`, `Scenarios.FirstAnswered` and `Scenarios.ExampleCompletes` describe the intended bridge. As written, each such run stops with `ReceiverDropped` at the first CreateNode reply, because `create_element` and `create_text` drop their receiver (src/lib.rs:98, 115). Only `Bridge.PollAsWritten`, `Scenarios.AsWrittenCreationReplyPanics` and `Scenarios.ExampleAsWrittenPanics` describe that step.
- Closed channels are left out: the request channel's `send(..).unwrap()` and a disconnected `try_recv`. Each needs the `HtmlView` or its view to be dropped, and the model never tears the bridge down.
- Bridge.CreateElement: the counter is an unbounded `nat`. The `u64` wrap-around of `fetch_add` after 2^64 allocations is not modelled, so "ids never return to 0" holds without that bound.
- Bridge.CreateText: the same unbounded counter, for the same reason.
- A state holds one document. `HtmlView::document` (src/lib.rs:182-184) only clones the handle to it, and handles carry only their id. Appending an element of one document under an element of another is not expressible.
- The view-side mirrored counter is seeded at 1 but never read or updated by any script. The model keeps it only as part of `View.Seed`.

## Findings

| source | as written | input that shows it | evidently intended | confidence | as-written member | corrected member |
|---|---|---|---|---|---|---|
| src/lib.rs:98-211 | `create_element` (and `create_text`, lines 115 and 225) keep the completion receiver in a local binding that is dropped on return. `poll` then unwraps the send into that channel on the CreateNode reply. | `create_element("div")`, poll, deliver CreateNode, poll: the send fails and the unwrap panics. The example application hits this on its first reply. | A completion whose receiver is gone is fired into a channel nobody reads, with no effect on the bridge. The slot is cleared and the next request is admitted. | medium; not executed | Bridge.PollAsWritten, Scenarios.AsWrittenCreationReplyPanics | Bridge.Poll, Invariants.PollPanicsOnlyOnMismatch |
