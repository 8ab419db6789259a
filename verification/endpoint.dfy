/** The per-connection correlation engine of src/Emitter.js: outgoing calls
    get increasing ids and wait in a table for their response; inbound calls
    wait in another table for the first of their handlers to finish. The
    transport is reduced to a flag (is `send` possible) and an outbox of the
    frames it accepted; asynchronous handler completion is the explicit step
    `Finish`. */
module Endpoint {
  import opened Wire
  import opened Registry

  class Emitter {
    /** `_lastId`: the last id handed out by `emit`. */
    var lastId: nat
    /** Keys of `_outputCallbacks`: calls still waiting for their response. */
    var outputCallbacks: set<int>
    /** Keys of `_inputCallbacks`: inbound calls whose reply is not sent yet. */
    var inputCallbacks: set<int>
    /** `_listeners`, the WeakMap from a listener to its latest wrapper. */
    var listeners: map<Listener, Wrapper>
    /** The wrappers registered with `_eventEmitter`, per call type. */
    var handlers: map<string, seq<Wrapper>>
    /** Wrappers built so far; the next one gets this serial. */
    var wrappersBuilt: nat
    /** `waitFor` calls so far; the next one builds `Waiter(waitersBuilt)`. */
    var waitersBuilt: nat
    /** Whether `_ws` is present and open, so that `send` does not throw. */
    var transportOpen: bool
    /** Whether `close` has set `_ws` to null. */
    var dropped: bool
    /** Frames the transport accepted, in order. */
    var outbox: seq<Outbound>
    /** Handler invocations started by inbound calls, in order. */
    var invocations: seq<Invocation>
    /** Indices of `invocations` whose listener has finished. */
    var finished: set<nat>
    /** How each promise returned by `emit` settled, by call id. */
    var outcomes: map<int, Settlement>
    /** Ids of the inbound call frames accepted so far. */
    ghost var accepted: seq<int>

    ghost predicate Valid()
      reads this
    {
      CallsValid() && RepliesValid() && RegistryValid()
    }

    /** Outgoing ids: every id in use lies in 1..lastId, and the call frames
        sent carry strictly increasing ids. */
    ghost predicate CallsValid()
      reads this
    {
      && (forall id :: id in outputCallbacks ==> 0 < id <= lastId)
      && (forall id :: id in outcomes ==> 0 < id <= lastId)
      && CallIdsWellFormed(outbox, lastId)
      && (dropped ==> !transportOpen)
    }

    /** Inbound calls: at most one reply per accepted call frame. */
    ghost predicate RepliesValid()
      reads this
    {
      && RepliesBounded(outbox, inputCallbacks, accepted)
      && (forall k :: k in finished ==> k < |invocations|)
    }

    /** Handlers: no empty list; the WeakMap sends each listener to one of
        its own wrappers. */
    ghost predicate RegistryValid()
      reads this
    {
      && NoEmptyLists(handlers)
      && (forall l :: l in listeners ==> listeners[l].listener == Some(l) && listeners[l].serial < wrappersBuilt)
      && (forall l :: l in listeners && l.Waiter? ==> l.k < waitersBuilt)
    }

    /** The wrappers `_eventEmitter.emit(kind, …)` calls. */
    function HandlersFor(kind: string): seq<Wrapper>
      reads this
    {
      Get(handlers, kind)
    }

    /** `new Emitter(ws)`; `open` says whether `ws` can send yet. */
    constructor (open: bool)
      ensures Valid()
      ensures lastId == 0 && outputCallbacks == {} && inputCallbacks == {}
      ensures listeners == map[] && handlers == map[] && outbox == [] && invocations == []
      ensures finished == {} && outcomes == map[] && transportOpen == open && !dropped
    {
      lastId := 0;
      outputCallbacks := {};
      inputCallbacks := {};
      listeners := map[];
      handlers := map[];
      wrappersBuilt := 0;
      waitersBuilt := 0;
      transportOpen := open;
      dropped := false;
      outbox := [];
      invocations := [];
      finished := {};
      outcomes := map[];
      accepted := [];
    }

    /** The `message` listener. A frame that does not parse or has a falsy
        `_id` is dropped. A frame with a `type` records a pending reply under
        its id and calls every handler of that type (none when `args` cannot
        be spread: the spread throws after the reply was recorded). Any other
        frame resolves and removes the pending call with its id, if any.
        Receiving never sends: replies wait for `Finish`. */
    method Receive(f: Inbound)
      requires Valid()
      modifies this`inputCallbacks, this`accepted, this`invocations, this`outputCallbacks, this`outcomes
      ensures Valid()
      ensures f.Malformed? || f.id == 0 ==>
        && inputCallbacks == old(inputCallbacks) && invocations == old(invocations)
        && outputCallbacks == old(outputCallbacks) && outcomes == old(outcomes)
      ensures f.Envelope? && f.id != 0 && f.kind != "" ==>
        && inputCallbacks == old(inputCallbacks) + {f.id}
        && outputCallbacks == old(outputCallbacks) && outcomes == old(outcomes)
        && invocations == old(invocations) + (if f.args.Some? then Invocations(f.id, HandlersFor(f.kind), f.args.value) else [])
      ensures f.Envelope? && f.id != 0 && f.kind == "" ==>
        && inputCallbacks == old(inputCallbacks) && invocations == old(invocations)
        && outputCallbacks == old(outputCallbacks) - {f.id}
        && outcomes == (if f.id in old(outputCallbacks) && f.id !in old(outcomes)
                        then old(outcomes)[f.id := Resolved(f.responseData)] else old(outcomes))
    {
      if f.Malformed? || f.id == 0 {
        return;
      }
      var id := f.id;
      if f.kind != "" {
        AcceptKeepsReplies(outbox, inputCallbacks, accepted, id);
        inputCallbacks := inputCallbacks + {id};
        accepted := accepted + [id];
        if f.args.Some? {
          invocations := invocations + Invocations(id, HandlersFor(f.kind), f.args.value);
        }
      } else if id in outputCallbacks {
        outputCallbacks := outputCallbacks - {id};
        if id !in outcomes {
          outcomes := outcomes[id := Resolved(f.responseData)];
        }
      }
    }

    /** Invocation `k` has finished: its listener's promise produced
        `result` (`None`: it rejected). The first wrapper of a call id to
        finish with a value removes the pending reply and sends it; the
        others find it gone. The reply goes through the transport captured
        at construction, so once that is closed the entry is removed but no
        frame goes out. */
    method Finish(k: nat, result: Option<Value>)
      requires Valid()
      requires k < |invocations| && k !in finished
      modifies this`finished, this`inputCallbacks, this`outbox
      ensures Valid()
      ensures finished == old(finished) + {k}
      ensures var call := invocations[k]; var v := ReplyValue(call.wrapper.listener, result);
        if v.Some? && call.callId in old(inputCallbacks) then
          && inputCallbacks == old(inputCallbacks) - {call.callId}
          && outbox == old(outbox) + (if transportOpen then [Reply(call.callId, v.value)] else [])
        else
          inputCallbacks == old(inputCallbacks) && outbox == old(outbox)
    {
      var call := invocations[k];
      finished := finished + {k};
      var v := ReplyValue(call.wrapper.listener, result);
      if v.Some? && call.callId in inputCallbacks {
        SettleKeepsReplies(outbox, inputCallbacks, accepted, call.callId, v.value);
        inputCallbacks := inputCallbacks - {call.callId};
        if transportOpen {
          ReplyKeepsIds(outbox, lastId, call.callId, v.value);
          outbox := outbox + [Reply(call.callId, v.value)];
        }
      }
    }

    /** `on(type, listener)`: wraps the listener, remembers the wrapper as
        the listener's latest and registers it. A listener that cannot key
        the WeakMap (a falsy one) makes `set` throw before anything is
        registered; `ok` is false then. */
    method On(kind: string, listener: Option<Listener>) returns (ok: bool)
      requires Valid()
      requires listener.Some? && listener.value.Waiter? ==> listener.value.k < waitersBuilt
      modifies this`wrappersBuilt, this`listeners, this`handlers
      ensures Valid()
      ensures ok == listener.Some?
      ensures ok ==> var w := Wrapper(old(wrappersBuilt), listener);
        && listeners == old(listeners)[listener.value := w]
        && handlers == Attach(old(handlers), kind, w)
        && wrappersBuilt == old(wrappersBuilt) + 1
      ensures !ok ==> listeners == old(listeners) && handlers == old(handlers) && wrappersBuilt == old(wrappersBuilt)
    {
      if listener.None? {
        return false;
      }
      var w := Wrapper(wrappersBuilt, listener);
      wrappersBuilt := wrappersBuilt + 1;
      listeners := listeners[listener.value := w];
      handlers := Attach(handlers, kind, w);
      ok := true;
    }

    /** `addListener`, the same as `on`. */
    method AddListener(kind: string, listener: Option<Listener>) returns (ok: bool)
      requires Valid()
      requires listener.Some? && listener.value.Waiter? ==> listener.value.k < waitersBuilt
      modifies this`wrappersBuilt, this`listeners, this`handlers
      ensures Valid()
      ensures ok == listener.Some?
      ensures ok ==> var w := Wrapper(old(wrappersBuilt), listener);
        && listeners == old(listeners)[listener.value := w]
        && handlers == Attach(old(handlers), kind, w)
      ensures !ok ==> listeners == old(listeners) && handlers == old(handlers)
    {
      ok := On(kind, listener);
    }

    /** `waitFor(type)`: registers a fresh listener that resolves the
        returned promise with the arguments of its first call (see
        `Wire.FirstArgs`) and returns nothing, so it replies `undefined`. */
    method WaitFor(kind: string) returns (l: Listener)
      requires Valid()
      modifies this`waitersBuilt, this`wrappersBuilt, this`listeners, this`handlers
      ensures Valid()
      ensures l == Waiter(old(waitersBuilt)) && l !in old(listeners)
      ensures handlers == Attach(old(handlers), kind, Wrapper(old(wrappersBuilt), Some(l)))
      ensures listeners == old(listeners)[l := Wrapper(old(wrappersBuilt), Some(l))]
    {
      l := Waiter(waitersBuilt);
      waitersBuilt := waitersBuilt + 1;
      var _ := On(kind, Some(l));
    }

    /** `removeListener(type, listener)`: a listener the WeakMap does not
        know changes nothing. Otherwise its latest wrapper is forgotten and
        unregistered from `type` (where it may not be, if it was registered
        under another type). */
    method RemoveListener(kind: string, listener: Option<Listener>)
      requires Valid()
      modifies this`listeners, this`handlers
      ensures Valid()
      ensures listener.None? || listener.value !in old(listeners) ==>
        listeners == old(listeners) && handlers == old(handlers)
      ensures listener.Some? && listener.value in old(listeners) ==>
        && listeners == old(listeners) - {listener.value}
        && handlers == Detach(old(handlers), kind, old(listeners)[listener.value])
    {
      if listener.Some? && listener.value in listeners {
        var w := listeners[listener.value];
        listeners := listeners - {listener.value};
        handlers := Detach(handlers, kind, w);
      }
    }

    /** `emit(type, ...args)`: takes the next id, records the pending call
        and sends `{_id, type, args}`. When the transport cannot send (it is
        closed, or was dropped by `close`), `send` throws and the promise
        rejects; the pending entry stays. */
    method Emit(kind: string, args: seq<Value>) returns (id: int)
      requires Valid()
      modifies this`lastId, this`outputCallbacks, this`outbox, this`outcomes
      ensures Valid()
      ensures id == old(lastId) + 1 && lastId == id
      ensures id !in old(outputCallbacks) && id !in old(outcomes)
      ensures forall f :: f in old(outbox) && f.Call? ==> f.id < id
      ensures outputCallbacks == old(outputCallbacks) + {id}
      ensures transportOpen ==> outbox == old(outbox) + [Call(id, kind, args)] && outcomes == old(outcomes)
      ensures !transportOpen ==> outbox == old(outbox) && outcomes == old(outcomes)[id := Rejected]
    {
      id := lastId + 1;
      NextCallKeepsIds(outbox, lastId, kind, args);
      CallKeepsReplies(outbox, inputCallbacks, accepted, id, kind, args);
      lastId := id;
      outputCallbacks := outputCallbacks + {id};
      if transportOpen {
        outbox := outbox + [Call(id, kind, args)];
      } else {
        outcomes := outcomes[id := Rejected];
      }
    }

    /** `close()` of src/Client.js: terminates the transport and drops it, so
        later sends throw. Once `_ws` is null, `close` itself throws (`ok` is
        false) and changes nothing. */
    method Close() returns (ok: bool)
      requires Valid()
      modifies this`transportOpen, this`dropped
      ensures Valid()
      ensures ok <==> !old(dropped)
      ensures !transportOpen && dropped
      ensures !ok ==> transportOpen == old(transportOpen)
    {
      ok := !dropped;
      if ok {
        transportOpen, dropped := false, true;
      }
    }
  }
}
