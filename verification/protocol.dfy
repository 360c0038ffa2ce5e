/**
 The wire vocabulary of the document bridge: the requests the native side
 queues, the replies the view posts back, and the abstract script the bridge
 synthesizes for each request.

 A script is not JavaScript text here: it is the view-side operation it
 performs (with the identifiers and text it carries) and the reply kind it
 posts once that operation has run.
 */
module Protocol {

  datatype Option<T> = None | Some(value: T)

  /** The sending half of a one-shot completion channel. `ticket` names the
      request the channel was created for. */
  datatype Sender = Sender(ticket: nat)

  /** A mutation queued by a node handle. Every variant carries the optional
      completion sender that the bridge takes and fires once on resolution. */
  datatype Request =
    | AppendChild(parentId: nat, childId: nat, tx: Option<Sender>)
    | CreateElement(id: nat, name: string, tx: Option<Sender>)
    | CreateTextElement(id: nat, content: string, tx: Option<Sender>)
    | SetText(id: nat, content: string, tx: Option<Sender>)
  {
    /** True for the two requests that bind a fresh identifier in the view. */
    predicate IsCreation() {
      CreateElement? || CreateTextElement?
    }
  }

  /** An already-parsed acknowledgement posted by the view. It carries its
      kind only; correlation with a request is positional. */
  datatype Message = CreateNode | AppendChild | SetText

  /** The reply kind the bridge's poll step accepts for a pending request. */
  function ExpectedReply(r: Request): Message {
    match r
    case AppendChild(_, _, _) => Message.AppendChild
    case CreateElement(_, _, _) => CreateNode
    case CreateTextElement(_, _, _) => CreateNode
    case SetText(_, _, _) => Message.SetText
  }

  predicate Matches(r: Request, m: Message) {
    m == ExpectedReply(r)
  }

  /** The identifiers a request looks up in the view's table. */
  function Refs(r: Request): set<nat> {
    match r
    case AppendChild(parent, child, _) => {parent, child}
    case CreateElement(_, _, _) => {}
    case CreateTextElement(_, _, _) => {}
    case SetText(id, _, _) => {id}
  }

  /** The identifiers a request binds in the view's table. */
  function Creates(r: Request): set<nat> {
    match r
    case AppendChild(_, _, _) => {}
    case CreateElement(id, _, _) => {id}
    case CreateTextElement(id, _, _) => {id}
    case SetText(_, _, _) => {}
  }

  /** The operation a script performs against the view-side identifier table. */
  datatype ViewOp =
    | AppendNode(parentId: nat, childId: nat)  // look both up, append child under parent
    | BindElement(id: nat, tagName: string)    // create an element, bind it under id
    | BindText(id: nat, data: string)          // create a text node, bind it under id
    | AssignValue(id: nat, value: string)      // look id up, overwrite its node value
  {
    /** Identifiers the operation must find in the table. */
    function Reads(): set<nat> {
      match this
      case AppendNode(p, c) => {p, c}
      case BindElement(_, _) => {}
      case BindText(_, _) => {}
      case AssignValue(id, _) => {id}
    }

    /** Identifiers the operation adds to the table. */
    function Binds(): set<nat> {
      match this
      case AppendNode(_, _) => {}
      case BindElement(id, _) => {id}
      case BindText(id, _) => {id}
      case AssignValue(_, _) => {}
    }
  }

  /** A script: the view-side operation, then one reply message posted back. */
  datatype Script = Script(op: ViewOp, reply: Message)

  /** The script the bridge submits when it admits `r`. The reply the script
      posts is the one the poll step waits for, and the operation touches
      exactly the identifiers the request names. */
  function Synthesize(r: Request): (sc: Script)
    ensures sc.reply == ExpectedReply(r)
    ensures sc.op.Reads() == Refs(r)
    ensures sc.op.Binds() == Creates(r)
  {
    match r
    case AppendChild(parent, child, _) => Script(AppendNode(parent, child), Message.AppendChild)
    case CreateElement(id, name, _) => Script(BindElement(id, name), CreateNode)
    case CreateTextElement(id, content, _) => Script(BindText(id, content), CreateNode)
    case SetText(id, content, _) => Script(AssignValue(id, content), Message.SetText)
  }

  /** Identifiers bound, in order, by the creation requests of `rs`. */
  function CreatedIds(rs: seq<Request>): (ids: seq<nat>)
    ensures |ids| <= |rs|
    decreases |rs|
  {
    if rs == [] then []
    else
      var r := rs[|rs| - 1];
      CreatedIds(rs[..|rs| - 1]) + (if r.IsCreation() then [r.id] else [])
  }

  lemma CreatedIdsSnoc(rs: seq<Request>, r: Request)
    ensures CreatedIds(rs + [r]) == CreatedIds(rs) + (if r.IsCreation() then [r.id] else [])
  {
    assert (rs + [r])[..|rs|] == rs;
  }

  /** The identifiers the view's table holds after running the scripts of
      `rs` in order from the seeded table: the root 0 and every created id. */
  function Bound(rs: seq<Request>): set<nat>
    decreases |rs|
  {
    if rs == [] then {0} else Bound(rs[..|rs| - 1]) + Creates(rs[|rs| - 1])
  }

  lemma BoundSnoc(rs: seq<Request>, r: Request)
    ensures Bound(rs + [r]) == Bound(rs) + Creates(r)
  {
    assert (rs + [r])[..|rs|] == rs;
  }

  /** The bound identifiers are the root and the created ones. */
  lemma {:induction false} BoundIsCreated(rs: seq<Request>)
    ensures forall x :: x in Bound(rs) <==> x == 0 || x in CreatedIds(rs)
    decreases |rs|
  {
    if rs != [] {
      BoundIsCreated(rs[..|rs| - 1]);
    }
  }

  /** A prefix of a scoped sequence is scoped. */
  lemma ScopedPrefix(rs: seq<Request>, n: nat)
    requires n <= |rs|
    requires Scoped(rs)
    ensures Scoped(rs[..n])
  {
    forall i | 0 <= i < n
      ensures Refs(rs[..n][i]) <= Bound(rs[..n][..i])
    {
      assert rs[..n][..i] == rs[..i];
    }
  }

  /** Every identifier a request looks up was bound by an earlier request
      (or is the root): queue order alone makes each lookup succeed. */
  ghost predicate Scoped(rs: seq<Request>) {
    forall i :: 0 <= i < |rs| ==> Refs(rs[i]) <= Bound(rs[..i])
  }
}
