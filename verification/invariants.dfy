/**
 What holds of every bridge state reachable from `New`, and what a run of
 events preserves: identifiers are handed out as 1, 2, 3, … in order;
 scripts are submitted in exactly the order requests were sent; at most one
 request is in flight and it is the last one submitted; completions fire in
 send order, once each, and the number fired trails the number submitted by
 one exactly while a request is pending.
 */
module Invariants {
  import opened Protocol
  import opened Bridge
  import View

  /** The identifiers lo, lo+1, …, hi-1, in increasing order. */
  function Span(lo: nat, hi: nat): seq<nat>
    decreases hi
  {
    if hi <= lo then [] else Span(lo, hi - 1) + [hi - 1]
  }

  lemma {:induction false} SpanMembers(lo: nat, hi: nat)
    ensures |Span(lo, hi)| == if hi <= lo then 0 else hi - lo
    ensures forall i :: 0 <= i < |Span(lo, hi)| ==> Span(lo, hi)[i] == lo + i
    decreases hi
  {
    if hi > lo {
      SpanMembers(lo, hi - 1);
    }
  }

  ghost predicate Inv(s: State) {
    // the counter starts at 1 and every value it handed out went to one creation request, in order
    && s.nextId >= 1
    && CreatedIds(s.issued) == Span(1, s.nextId)
    // the i-th request sent carries the i-th completion sender
    && (forall i :: 0 <= i < |s.issued| ==> s.issued[i].tx == Some(Sender(i)))
    // the submitted scripts are those of a prefix of the sent requests; the queue holds the rest
    && |s.submitted| <= |s.issued|
    && (forall i :: 0 <= i < |s.submitted| ==> s.submitted[i] == Synthesize(s.issued[i]))
    && s.requests == s.issued[|s.submitted|..]
    // the pending request is the last submitted one
    && (s.pending.Some? ==> |s.submitted| >= 1 && s.pending.value == s.issued[|s.submitted| - 1])
    // completions fired: every submitted request except the pending one, in order, once each
    && |s.fired| == |s.submitted| - (if s.pending.Some? then 1 else 0)
    && (forall i :: 0 <= i < |s.fired| ==> s.fired[i] == i)
    // callers only ever hold receivers of append and set-text requests
    && (forall t :: t in s.receivers ==> t < |s.issued| && !s.issued[t].IsCreation())
  }

  lemma NewSatisfiesInv()
    ensures Inv(New())
    ensures Scoped(New().issued)
  {
  }

  /** Appending a request with the next ticket to the history keeps the
      ticket numbering, the submitted prefix and the receivers' bounds. */
  lemma HistorySnoc(s: State, req: Request, t: State)
    requires Inv(s)
    requires req.tx == Some(Sender(|s.issued|))
    requires t.issued == s.issued + [req] && t.requests == s.requests + [req] && t.submitted == s.submitted
    requires t.receivers <= s.receivers + (if req.IsCreation() then {} else {|s.issued|})
    ensures forall i :: 0 <= i < |t.issued| ==> t.issued[i].tx == Some(Sender(i))
    ensures forall i :: 0 <= i < |t.submitted| ==> t.submitted[i] == Synthesize(t.issued[i])
    ensures t.requests == t.issued[|t.submitted|..]
    ensures forall r :: r in t.receivers ==> r < |t.issued| && !t.issued[r].IsCreation()
  {
    var k := |s.submitted|;
    assert t.requests == t.issued[k..] by {
      assert s.issued[k..] + [req] == (s.issued + [req])[k..];
    }
    forall i | 0 <= i < |t.issued|
      ensures t.issued[i].tx == Some(Sender(i))
    {
      if i < |s.issued| {
        assert t.issued[i] == s.issued[i];
      }
    }
    forall i | 0 <= i < k
      ensures t.submitted[i] == Synthesize(t.issued[i])
    {
      assert t.issued[i] == s.issued[i];
    }
    forall r | r in t.receivers
      ensures r < |t.issued| && !t.issued[r].IsCreation()
    {
      if r < |s.issued| {
        assert t.issued[r] == s.issued[r];
      }
    }
  }

  /** Sending a request keeps the invariant when the request carries the next
      ticket, a creation takes the counter's value and bumps it, and callers
      are only handed the receiver of a non-creation request. */
  lemma QueuePreservesInv(s: State, req: Request, t: State)
    requires Inv(s)
    requires req.tx == Some(Sender(|s.issued|))
    requires req.IsCreation() ==> req.id == s.nextId
    requires t.nextId == if req.IsCreation() then s.nextId + 1 else s.nextId
    requires t.issued == s.issued + [req] && t.requests == s.requests + [req]
    requires t.submitted == s.submitted && t.pending == s.pending && t.fired == s.fired
    requires t.receivers <= s.receivers + (if req.IsCreation() then {} else {|s.issued|})
    ensures Inv(t)
  {
    assert CreatedIds(t.issued) == Span(1, t.nextId) by {
      CreatedIdsSnoc(s.issued, req);
    }
    HistorySnoc(s, req, t);
  }

  /** Admitting a request from an empty slot keeps the invariant. */
  lemma AdmitPreservesInv(s: State)
    requires Inv(s) && s.pending.None?
    ensures Inv(Admit(s))
  {
    if s.requests != [] {
      var k := |s.submitted|;
      assert s.requests[0] == s.issued[k];
      assert s.requests[1..] == s.issued[k + 1..];
    }
  }

  /** Resolving the pending request with a matching reply keeps the invariant
      and fires exactly the ticket of the last submitted request. */
  lemma ResolvePreservesInv(s: State)
    requires Inv(s) && s.pending.Some? && s.replies != [] && Matches(s.pending.value, s.replies[0])
    ensures Poll(s).Ok?
    ensures Poll(s).state.fired == s.fired + [|s.submitted| - 1]
    ensures Inv(Poll(s).state)
  {
    var k := |s.submitted|;
    var t := s.(replies := s.replies[1..], fired := s.fired + [k - 1], pending := None);
    assert Complete(s.(replies := s.replies[1..]), s.pending.value, IgnoreDropped) == Ok(t);
    assert Inv(t);
    AdmitPreservesInv(t);
  }

  /** A handle call keeps the invariant: it sends one request with the next
      ticket, and only append and set-text hand out a receiver. */
  lemma CallPreservesInv(s: State, e: Event)
    requires Inv(s)
    requires e.CreateElementCall? || e.CreateTextCall? || e.AppendChildCall? || e.SetTextContentCall?
    ensures Apply(s, e).Ok? && Inv(Apply(s, e).state)
  {
    match e
    case CreateElementCall(name) =>
      var req := Request.CreateElement(s.nextId, name, Some(Sender(|s.issued|)));
      QueuePreservesInv(s, req, Bridge.CreateElement(s, name).1);
    case CreateTextCall(content) =>
      var req := CreateTextElement(s.nextId, content, Some(Sender(|s.issued|)));
      QueuePreservesInv(s, req, CreateText(s, content).1);
    case AppendChildCall(parent, child) =>
      var req := Request.AppendChild(parent.id, child.id, Some(Sender(|s.issued|)));
      QueuePreservesInv(s, req, Bridge.AppendChild(s, parent, child).1);
    case SetTextContentCall(target, content) =>
      var req := Request.SetText(target.id, content, Some(Sender(|s.issued|)));
      QueuePreservesInv(s, req, SetTextContent(s, target, content).1);
  }

  /** A poll step that does not panic keeps the invariant. */
  lemma PollPreservesInv(s: State)
    requires Inv(s)
    requires Poll(s).Ok?
    ensures Inv(Poll(s).state)
  {
    if s.pending.None? {
      AdmitPreservesInv(s);
    } else if s.replies != [] {
      ResolvePreservesInv(s);
    }
  }

  /** Every event that does not panic keeps the invariant. */
  lemma ApplyPreservesInv(s: State, e: Event)
    requires Inv(s)
    requires Apply(s, e).Ok?
    ensures Inv(Apply(s, e).state)
  {
    match e
    case DropReceiverCall(rx) =>
      assert Apply(s, e).state == DropReceiver(s, rx);
    case Reply(msg) =>
      assert Apply(s, e).state == Deliver(s, msg);
    case PollCall =>
      PollPreservesInv(s);
    case _ =>
      CallPreservesInv(s, e);
  }

  /** Every run that does not panic keeps the invariant. */
  lemma {:induction false} RunPreservesInv(s: State, es: seq<Event>)
    requires Inv(s)
    requires Run(s, es).Ok?
    ensures Inv(Run(s, es).state)
    decreases |es|
  {
    if es != [] {
      ApplyPreservesInv(s, es[0]);
      RunPreservesInv(Apply(s, es[0]).state, es[1..]);
    }
  }

  /** Under the invariant a poll step only panics on a reply of the wrong
      kind: the pending request always still has its sender. */
  lemma PollPanicsOnlyOnMismatch(s: State)
    requires Inv(s)
    ensures Poll(s).Panic? <==> s.pending.Some? && s.replies != [] && !Matches(s.pending.value, s.replies[0])
  {
    if s.pending.Some? && s.replies != [] && Matches(s.pending.value, s.replies[0]) {
      ResolvePreservesInv(s);
    }
  }

  /** Identifiers handed out so far are 1, 2, …, nextId-1: strictly
      increasing, never repeated and never the root's 0. A handle is valid
      exactly when its id is below the counter. */
  lemma IdsFreshAndIncreasing(s: State)
    requires Inv(s)
    ensures |CreatedIds(s.issued)| == s.nextId - 1
    ensures forall i :: 0 <= i < |CreatedIds(s.issued)| ==> CreatedIds(s.issued)[i] == i + 1
    ensures forall i, j :: 0 <= i < j < |CreatedIds(s.issued)| ==> 0 < CreatedIds(s.issued)[i] < CreatedIds(s.issued)[j]
    ensures forall e: Element :: ValidHandle(s, e) <==> e.id < s.nextId
  {
    SpanMembers(1, s.nextId);
    BoundIsCreated(s.issued);
    var ids := CreatedIds(s.issued);
    forall e: Element
      ensures ValidHandle(s, e) <==> e.id < s.nextId
    {
      if 0 < e.id < s.nextId {
        assert ids[e.id - 1] == e.id;
      }
    }
  }

  /** The in-flight accounting: submitted minus fired is one exactly while a
      request is pending; the ticket of a sent request has fired exactly when
      the request was submitted and is no longer the pending one; and no
      ticket fires twice. */
  lemma InFlightAccounting(s: State)
    requires Inv(s)
    ensures |s.submitted| - |s.fired| == if s.pending.Some? then 1 else 0
    ensures forall i :: 0 <= i < |s.issued| ==>
              (i in s.fired <==> i < |s.submitted| && s.pending != Some(s.issued[i]))
    ensures forall i, j :: 0 <= i < j < |s.fired| ==> s.fired[i] != s.fired[j]
  {
    forall i | 0 <= i < |s.issued|
      ensures i in s.fired <==> i < |s.submitted| && s.pending != Some(s.issued[i])
    {
      if i < |s.fired| {
        assert s.fired[i] == i;
      }
      if s.pending == Some(s.issued[i]) {
        assert s.issued[i].tx == s.issued[|s.submitted| - 1].tx;
      }
    }
  }

  /** One event that does not panic only appends to the logs. */
  lemma ApplyExtendsLogs(s: State, e: Event)
    requires Apply(s, e).Ok?
    ensures s.issued <= Apply(s, e).state.issued
    ensures s.submitted <= Apply(s, e).state.submitted
    ensures s.fired <= Apply(s, e).state.fired
    ensures s.nextId <= Apply(s, e).state.nextId
  {
    match e
    case PollCall =>
      var t := Poll(s).state;
      assert s.submitted <= t.submitted;
      if s.pending.Some? && s.replies != [] {
        assert s.fired <= t.fired;
      }
    case _ =>
  }

  /** The logs only grow: over any run that does not panic, the sent
      requests, the submitted scripts and the fired completions of the start
      state are prefixes of those of the end state, and the counter never
      goes back. */
  lemma {:induction false} RunExtendsLogs(s: State, es: seq<Event>)
    requires Run(s, es).Ok?
    ensures s.issued <= Run(s, es).state.issued
    ensures s.submitted <= Run(s, es).state.submitted
    ensures s.fired <= Run(s, es).state.fired
    ensures s.nextId <= Run(s, es).state.nextId
    decreases |es|
  {
    if es != [] {
      var t := Apply(s, es[0]).state;
      ApplyExtendsLogs(s, es[0]);
      RunExtendsLogs(t, es[1..]);
      assert Run(s, es) == Run(t, es[1..]);
    }
  }

  /** Running `a` then `b` is running `a + b`: a run that does not panic
      can be cut anywhere. */
  lemma {:induction false} RunConcat(s: State, a: seq<Event>, b: seq<Event>)
    requires Run(s, a).Ok?
    ensures Run(s, a + b) == Run(Run(s, a).state, b)
    decreases |a|
  {
    if a != [] {
      assert (a + b)[0] == a[0] && (a + b)[1..] == a[1..] + b;
      RunConcat(Apply(s, a[0]).state, a[1..], b);
    } else {
      assert a + b == b;
    }
  }

  /** Every handle an event names is valid in the state it is applied to. */
  ghost predicate HandlesValid(s: State, e: Event) {
    match e
    case AppendChildCall(parent, child) => ValidHandle(s, parent) && ValidHandle(s, child)
    case SetTextContentCall(target, _) => ValidHandle(s, target)
    case _ => true
  }

  /** Every event of a run names only handles valid when it happens. */
  ghost predicate RunHandlesValid(s: State, es: seq<Event>)
    decreases |es|
  {
    es == [] || (HandlesValid(s, es[0]) && (Apply(s, es[0]).Ok? ==> RunHandlesValid(Apply(s, es[0]).state, es[1..])))
  }

  /** Sending requests that name only valid handles keeps the history scoped. */
  lemma ApplyPreservesScoped(s: State, e: Event)
    requires Scoped(s.issued) && HandlesValid(s, e)
    requires Apply(s, e).Ok?
    ensures Scoped(Apply(s, e).state.issued)
  {
    var t := Apply(s, e).state;
    if t.issued != s.issued {
      var req := t.issued[|s.issued|];
      assert t.issued == s.issued + [req];
      assert Refs(req) <= Bound(s.issued);
      forall i | 0 <= i < |t.issued|
        ensures Refs(t.issued[i]) <= Bound(t.issued[..i])
      {
        if i < |s.issued| {
          assert t.issued[..i] == s.issued[..i];
        } else {
          assert t.issued[..i] == s.issued;
        }
      }
    }
  }

  lemma {:induction false} RunPreservesScoped(s: State, es: seq<Event>)
    requires Scoped(s.issued) && RunHandlesValid(s, es)
    requires Run(s, es).Ok?
    ensures Scoped(Run(s, es).state.issued)
    decreases |es|
  {
    if es != [] {
      ApplyPreservesScoped(s, es[0]);
      RunPreservesScoped(Apply(s, es[0]).state, es[1..]);
    }
  }

  /** The bridge and the view agree: when handles are used as the API hands
      them out, the scripts submitted so far run in the view, in order, from
      its seeded table without a failed lookup, and they post one reply each,
      of exactly the kind the poll step expects for the matching request. */
  lemma SubmittedScriptsRunInView(s: State)
    requires Inv(s) && Scoped(s.issued)
    ensures View.ExecuteAll(View.Seed(), s.submitted).Some?
    ensures |View.ExecuteAll(View.Seed(), s.submitted).value.posted| == |s.submitted|
    ensures forall i :: 0 <= i < |s.submitted| ==>
              Matches(s.issued[i], View.ExecuteAll(View.Seed(), s.submitted).value.posted[i])
  {
    var k := |s.submitted|;
    ScopedPrefix(s.issued, k);
    View.ScopedScriptsRun(s.issued[..k], s.submitted);
  }

  /** The whole-trace statement: from a freshly built bridge, after any run
      of handle calls, replies and polls that does not panic, the invariant
      holds, scripts went to the view in send order, and (if handles came
      from the API) the view can run every submitted script. */
  lemma {:induction false} Reachable(es: seq<Event>)
    requires Run(New(), es).Ok?
    requires RunHandlesValid(New(), es)
    ensures Inv(Run(New(), es).state)
    ensures Scoped(Run(New(), es).state.issued)
  {
    NewSatisfiesInv();
    RunPreservesInv(New(), es);
    RunPreservesScoped(New(), es);
  }
}
