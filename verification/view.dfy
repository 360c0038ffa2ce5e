/**
 The view side of the bridge, as far as the bridge relies on it: a table
 from identifier to live node, seeded when the view is built, and the effect
 of running one synthesized script against that table. Layout, rendering and
 the document tree itself belong to the embedded engine and are not modelled.
 */
module View {
  import opened Protocol

  datatype Node = Body | ElementNode(tagName: string) | TextNode(data: string)

  /** The view's identifier table, its mirrored id counter, and the replies
      its scripts have posted so far (in posting order). */
  datatype ViewState = ViewState(elements: map<nat, Node>, nextId: nat, posted: seq<Message>)

  /** The table installed right after the view is built: only the root,
      bound to the document body under identifier 0, and a counter at 1. */
  function Seed(): (v: ViewState)
    ensures v.elements.Keys == Bound([])
    ensures v.elements[0] == Body
    ensures v.nextId == 1
    ensures v.posted == []
  {
    ViewState(map[0 := Body], 1, [])
  }

  /** Writing a node value changes a text node's data; on the body or an
      element the write has no effect. */
  function AssignNodeValue(n: Node, value: string): (m: Node)
    ensures n.TextNode? <==> m.TextNode?
    ensures m.TextNode? ==> m.data == value
    ensures !n.TextNode? ==> m == n
  {
    if n.TextNode? then TextNode(value) else n
  }

  /** Runs one script. `None` means a lookup found no node: the script throws
      before it reaches its reply, so nothing is posted. */
  function Execute(v: ViewState, sc: Script): (r: Option<ViewState>)
    ensures r.Some? <==> sc.op.Reads() <= v.elements.Keys
    ensures r.Some? ==> r.value.elements.Keys == v.elements.Keys + sc.op.Binds()
    ensures r.Some? ==> r.value.posted == v.posted + [sc.reply]
    ensures r.Some? ==> r.value.nextId == v.nextId
    // a creation binds a fresh node of its own kind, carrying its name or text
    ensures r.Some? && sc.op.BindElement? ==> r.value.elements[sc.op.id] == ElementNode(sc.op.tagName)
    ensures r.Some? && sc.op.BindText? ==> r.value.elements[sc.op.id] == TextNode(sc.op.data)
    // a value write replaces the looked-up node by the written one
    ensures r.Some? && sc.op.AssignValue? ==> r.value.elements[sc.op.id] == AssignNodeValue(v.elements[sc.op.id], sc.op.value)
    // every other binding is left as it was
    ensures r.Some? ==>
              forall k :: k in v.elements && k !in sc.op.Binds() && !(sc.op.AssignValue? && k == sc.op.id) ==>
                r.value.elements[k] == v.elements[k]
  {
    var post := v.posted + [sc.reply];
    match sc.op
    case AppendNode(parent, child) =>
      if parent in v.elements && child in v.elements then Some(v.(posted := post)) else None
    case BindElement(id, tagName) =>
      Some(v.(elements := v.elements[id := ElementNode(tagName)], posted := post))
    case BindText(id, data) =>
      Some(v.(elements := v.elements[id := TextNode(data)], posted := post))
    case AssignValue(id, value) =>
      if id in v.elements
      then Some(v.(elements := v.elements[id := AssignNodeValue(v.elements[id], value)], posted := post))
      else None
  }

  /** What the script of each request does to the table: a creation binds
      an element named `name` or a text node holding `content` under its id,
      a text update on a text node replaces its data (and leaves any other
      node as it is), and an append looks both ids up without rebinding
      either. Each posts exactly the reply the bridge waits for. */
  lemma SynthesizedEffect(v: ViewState, r: Request)
    ensures Execute(v, Synthesize(r)).Some? <==> Refs(r) <= v.elements.Keys
    ensures Execute(v, Synthesize(r)).Some? ==> Execute(v, Synthesize(r)).value.posted == v.posted + [ExpectedReply(r)]
    ensures r.CreateElement? ==> Execute(v, Synthesize(r)).value.elements == v.elements[r.id := ElementNode(r.name)]
    ensures r.CreateTextElement? ==> Execute(v, Synthesize(r)).value.elements == v.elements[r.id := TextNode(r.content)]
    ensures r.SetText? && r.id in v.elements && v.elements[r.id].TextNode?
            ==> Execute(v, Synthesize(r)).value.elements == v.elements[r.id := TextNode(r.content)]
    ensures r.SetText? && r.id in v.elements && !v.elements[r.id].TextNode?
            ==> Execute(v, Synthesize(r)).value.elements == v.elements
    ensures r.AppendChild? && Refs(r) <= v.elements.Keys ==> Execute(v, Synthesize(r)).value.elements == v.elements
  {
  }

  /** Runs scripts in submission order, stopping at the first that throws. */
  function ExecuteAll(v: ViewState, scs: seq<Script>): Option<ViewState>
    decreases |scs|
  {
    if scs == [] then Some(v)
    else
      match ExecuteAll(v, scs[..|scs| - 1])
      case None => None
      case Some(w) => Execute(w, scs[|scs| - 1])
  }

  /** Queue order is enough for the view: if every request only looks up
      identifiers created before it, then running their scripts in order from
      the seeded table never throws, binds exactly the root and the created
      identifiers, and posts one reply per script, each of the kind the
      bridge expects for that request. */
  lemma {:induction false} ScopedScriptsRun(rs: seq<Request>, scs: seq<Script>)
    requires |scs| == |rs|
    requires forall i :: 0 <= i < |rs| ==> scs[i] == Synthesize(rs[i])
    requires Scoped(rs)
    ensures ExecuteAll(Seed(), scs).Some?
    ensures ExecuteAll(Seed(), scs).value.elements.Keys == Bound(rs)
    ensures |ExecuteAll(Seed(), scs).value.posted| == |rs|
    ensures forall i :: 0 <= i < |rs| ==> ExecuteAll(Seed(), scs).value.posted[i] == ExpectedReply(rs[i])
  {
    if rs != [] {
      var n := |rs| - 1;
      var front := rs[..n];
      ScopedPrefix(rs, n);
      ScopedScriptsRun(front, scs[..n]);
      var w := ExecuteAll(Seed(), scs[..n]).value;
      assert Refs(rs[n]) <= Bound(rs[..n]);
      assert scs[n].op.Reads() <= w.elements.Keys;
      var u := Execute(w, scs[n]);
      assert ExecuteAll(Seed(), scs) == u;
      assert u.value.posted == w.posted + [ExpectedReply(rs[n])];
      assert Bound(rs) == Bound(front) + Creates(rs[n]);
      forall i | 0 <= i < |rs|
        ensures u.value.posted[i] == ExpectedReply(rs[i])
      {
        if i < n {
          assert u.value.posted[i] == w.posted[i] && rs[i] == front[i];
        } else {
          assert i == |w.posted|;
        }
      }
    }
  }
}
