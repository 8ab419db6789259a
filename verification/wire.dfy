/** Frames exchanged by two endpoints, after JSON decoding and before JSON
    encoding, and the bookkeeping values shared by both endpoint variants. */
module Wire {

  datatype Option<T> = None | Some(value: T)

  /** A payload carried by a frame, kept opaque; `Undefined` is what
      JavaScript yields for a missing field or for a function that
      returns nothing. */
  datatype Value = Undefined | Json(text: string)

  /** Identity of a handler function: `Fn(k)` is the k-th function user code
      hands in, `Waiter(k)` the resolving closure the k-th `waitFor` builds. */
  datatype Listener = Fn(k: nat) | Waiter(k: nat)

  /** A received message once `JSON.parse` has run. `Malformed` is a message
      that does not parse (or parses to something that cannot be
      destructured). In an `Envelope`, `id == 0` stands for a missing or
      falsy `_id`, `kind == ""` for a missing or falsy `type`, and
      `args == None` for an `args` field that cannot be spread. */
  datatype Inbound =
    | Malformed
    | Envelope(id: int, kind: string, args: Option<seq<Value>>, responseData: Value)

  /** A frame handed to the transport: a call `{_id, type, args}` or a reply
      `{_id, responseData}`. */
  datatype Outbound =
    | Call(id: int, kind: string, args: seq<Value>)
    | Reply(id: int, responseData: Value)

  /** How the promise returned by `emit` settled. */
  datatype Settlement = Resolved(value: Value) | Rejected

  /** The closure `on` registers with the event emitter around a listener;
      `serial` tells apart two closures built around the same listener. */
  datatype Wrapper = Wrapper(serial: nat, listener: Option<Listener>)

  /** One invocation of a wrapper by an inbound call frame. */
  datatype Invocation = Invocation(callId: int, wrapper: Wrapper, args: seq<Value>)

  /** The invocations one inbound call starts: every registered wrapper, in
      registration order, with the call's id and arguments. */
  function Invocations(callId: int, hs: seq<Wrapper>, args: seq<Value>): (r: seq<Invocation>)
    ensures |r| == |hs|
    ensures forall i :: 0 <= i < |hs| ==> r[i].callId == callId && r[i].wrapper == hs[i] && r[i].args == args
  {
    seq(|hs|, i requires 0 <= i < |hs| => Invocation(callId, hs[i], args))
  }

  /** What a finished wrapper hands to the pending reply, given what its
      listener's promise produced (`None`: it rejected). A falsy listener is
      never called and never replies; the `waitFor` closure returns nothing. */
  function ReplyValue(listener: Option<Listener>, result: Option<Value>): (r: Option<Value>)
    ensures listener.None? ==> r.None?
    ensures listener.Some? && listener.value.Waiter? ==> r == Some(Undefined)
    ensures listener.Some? && listener.value.Fn? ==> r == result
  {
    match listener
    case None => None
    case Some(Waiter(_)) => Some(Undefined)
    case Some(Fn(_)) => result
  }

  /** Number of reply frames for `id` in `out`. */
  function RepliesTo(out: seq<Outbound>, id: int): nat
  {
    if out == [] then 0
    else RepliesTo(out[..|out| - 1], id) + (if out[|out| - 1].Reply? && out[|out| - 1].id == id then 1 else 0)
  }

  /** Number of times `x` occurs in `s`. */
  function Occurrences(s: seq<int>, x: int): nat
  {
    if s == [] then 0 else Occurrences(s[..|s| - 1], x) + (if s[|s| - 1] == x then 1 else 0)
  }

  lemma FramesAppended(out: seq<Outbound>, f: Outbound)
    ensures forall id :: RepliesTo(out + [f], id) == RepliesTo(out, id) + (if f.Reply? && f.id == id then 1 else 0)
  {
    assert (out + [f])[..|out|] == out;
  }

  /** The call-id discipline of an endpoint that has handed out ids up to
      `lastId`: every call frame sent carries an id in 1..lastId, and each
      carries a larger id than every call frame before it. */
  ghost predicate CallIdsWellFormed(out: seq<Outbound>, lastId: nat)
  {
    && (forall i :: 0 <= i < |out| && out[i].Call? ==> 0 < out[i].id <= lastId)
    && (forall i, j :: 0 <= i < j < |out| && out[i].Call? && out[j].Call? ==> out[i].id < out[j].id)
  }

  /** Sending the call frame with the next id keeps the discipline, and the
      new id collides with none sent before. */
  lemma NextCallKeepsIds(out: seq<Outbound>, lastId: nat, kind: string, args: seq<Value>)
    requires CallIdsWellFormed(out, lastId)
    ensures CallIdsWellFormed(out + [Call(lastId + 1, kind, args)], lastId + 1)
    ensures forall f :: f in out && f.Call? ==> f.id < lastId + 1
  {
  }

  /** Sending a reply frame leaves the call ids alone. */
  lemma {:induction false} ReplyKeepsIds(out: seq<Outbound>, lastId: nat, id: int, v: Value)
    requires CallIdsWellFormed(out, lastId)
    ensures CallIdsWellFormed(out + [Reply(id, v)], lastId)
  {
    FramesAppended(out, Reply(id, v));
  }

  /** The reply discipline of an endpoint: for every id, the replies sent
      plus a still-pending reply never exceed the call frames accepted. */
  ghost predicate RepliesBounded(out: seq<Outbound>, pending: set<int>, accepted: seq<int>)
  {
    forall id {:trigger RepliesTo(out, id)} :: RepliesTo(out, id) + (if id in pending then 1 else 0) <= Occurrences(accepted, id)
  }

  /** Accepting an inbound call adds its id to the pending replies. */
  lemma {:induction false} AcceptKeepsReplies(out: seq<Outbound>, pending: set<int>, accepted: seq<int>, id: int)
    requires RepliesBounded(out, pending, accepted)
    ensures RepliesBounded(out, pending + {id}, accepted + [id])
  {
    assert (accepted + [id])[..|accepted|] == accepted;
    forall x ensures Occurrences(accepted + [id], x) == Occurrences(accepted, x) + (if x == id then 1 else 0) {
    }
  }

  /** Sending the pending reply for `id` (or dropping it unsent) trades the
      pending entry for at most one reply frame. */
  lemma {:induction false} SettleKeepsReplies(out: seq<Outbound>, pending: set<int>, accepted: seq<int>, id: int, v: Value)
    requires RepliesBounded(out, pending, accepted)
    requires id in pending
    ensures RepliesBounded(out + [Reply(id, v)], pending - {id}, accepted)
    ensures RepliesBounded(out, pending - {id}, accepted)
  {
    FramesAppended(out, Reply(id, v));
    forall x ensures RepliesTo(out, x) + (if x in pending then 1 else 0) <= Occurrences(accepted, x) {
    }
  }

  /** Sending a call frame does not touch the replies. */
  lemma {:induction false} CallKeepsReplies(out: seq<Outbound>, pending: set<int>, accepted: seq<int>, id: int, kind: string, args: seq<Value>)
    requires RepliesBounded(out, pending, accepted)
    ensures RepliesBounded(out + [Call(id, kind, args)], pending, accepted)
  {
    FramesAppended(out, Call(id, kind, args));
  }

  /** A peer that never reuses an id gets at most one reply per id; none
      while its reply is still pending. */
  lemma AtMostOneReply(out: seq<Outbound>, pending: set<int>, accepted: seq<int>, id: int)
    requires RepliesBounded(out, pending, accepted)
    requires Occurrences(accepted, id) <= 1
    ensures RepliesTo(out, id) <= 1
    ensures id in pending ==> RepliesTo(out, id) == 0
  {
    assert RepliesTo(out, id) + (if id in pending then 1 else 0) <= Occurrences(accepted, id);
  }

  /** The arguments of the first invocation of `l`: the value the promise of
      the `waitFor` that built `l` resolves with (later calls cannot change
      a settled promise). */
  function FirstArgs(invs: seq<Invocation>, l: Listener): (r: Option<seq<Value>>)
    ensures r.None? <==> forall i :: 0 <= i < |invs| ==> invs[i].wrapper.listener != Some(l)
    ensures r.Some? ==> exists i :: 0 <= i < |invs| && invs[i].wrapper.listener == Some(l) && invs[i].args == r.value
                                    && forall j :: 0 <= j < i ==> invs[j].wrapper.listener != Some(l)
  {
    if invs == [] then None
    else if invs[0].wrapper.listener == Some(l) then Some(invs[0].args)
    else
      var rest := FirstArgs(invs[1..], l);
      assert forall i :: 1 <= i < |invs| ==> invs[i] == invs[1..][i - 1];
      rest
  }

  /** A waiter's result is fixed once it is called: later invocations do not
      change it. */
  lemma {:induction false} FirstArgsStable(invs: seq<Invocation>, more: seq<Invocation>, l: Listener)
    requires FirstArgs(invs, l).Some?
    ensures FirstArgs(invs + more, l) == FirstArgs(invs, l)
  {
    if invs[0].wrapper.listener != Some(l) {
      assert (invs + more)[1..] == invs[1..] + more;
      FirstArgsStable(invs[1..], more, l);
    }
  }
}
