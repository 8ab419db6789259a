/** The earlier endpoint variant of src/Incoming.js: the same correlation of
    calls and replies as src/Emitter.js, but with no listener table, so a
    handler can never be removed, and `on` always registers its wrapper, even
    around a falsy handler (that wrapper then never replies). */
module Incoming {
  import opened Wire
  import opened Registry

  class Emitter {
    /** `_lastId`. */
    var lastId: nat
    /** Keys of `_outputCallbacks`. */
    var outputCallbacks: set<int>
    /** Keys of `_inputCallbacks`. */
    var inputCallbacks: set<int>
    /** The wrappers registered with `_eventEmitter`, per call type. */
    var handlers: map<string, seq<Wrapper>>
    /** Wrappers built so far. */
    var wrappersBuilt: nat
    /** Whether `_ws` can send. */
    var transportOpen: bool
    /** Frames the transport accepted, in order. */
    var outbox: seq<Outbound>
    /** Handler invocations started by inbound calls, in order. */
    var invocations: seq<Invocation>
    /** Indices of `invocations` whose handler has finished. */
    var finished: set<nat>
    /** How each promise returned by `emit` settled, by call id. */
    var outcomes: map<int, Settlement>
    /** Ids of the inbound call frames accepted so far. */
    ghost var accepted: seq<int>

    ghost predicate Valid()
      reads this
    {
      && (forall id :: id in outputCallbacks ==> 0 < id <= lastId)
      && (forall id :: id in outcomes ==> 0 < id <= lastId)
      && CallIdsWellFormed(outbox, lastId)
      && RepliesBounded(outbox, inputCallbacks, accepted)
      && (forall k :: k in finished ==> k < |invocations|)
      && NoEmptyLists(handlers)
    }

    /** `new Emitter(ws)`. */
    constructor (open: bool)
      ensures Valid()
      ensures lastId == 0 && outputCallbacks == {} && inputCallbacks == {} && handlers == map[]
      ensures outbox == [] && invocations == [] && finished == {} && outcomes == map[]
      ensures transportOpen == open
    {
      lastId := 0;
      outputCallbacks := {};
      inputCallbacks := {};
      handlers := map[];
      wrappersBuilt := 0;
      transportOpen := open;
      outbox := [];
      invocations := [];
      finished := {};
      outcomes := map[];
      accepted := [];
    }

    /** The `message` listener, with the same branches as in src/Emitter.js. */
    method Receive(f: Inbound)
      requires Valid()
      modifies this`inputCallbacks, this`accepted, this`invocations, this`outputCallbacks, this`outcomes
      ensures Valid()
      ensures f.Malformed? || f.id == 0 ==>
        && inputCallbacks == old(inputCallbacks) && invocations == old(invocations)
        && outputCallbacks == old(outputCallbacks) && outcomes == old(outcomes)
      ensures f.Envelope? && f.id != 0 && f.kind != "" ==>
        && inputCallbacks == old(inputCallbacks) + {f.id}
        && outputCallbacks == old(outputCallbacks) && outcomes == old(outcomes)
        && invocations == old(invocations) + (if f.args.Some? then Invocations(f.id, Get(handlers, f.kind), f.args.value) else [])
      ensures f.Envelope? && f.id != 0 && f.kind == "" ==>
        && inputCallbacks == old(inputCallbacks) && invocations == old(invocations)
        && outputCallbacks == old(outputCallbacks) - {f.id}
        && outcomes == (if f.id in old(outputCallbacks) && f.id !in old(outcomes)
                        then old(outcomes)[f.id := Resolved(f.responseData)] else old(outcomes))
    {
      if f.Malformed? || f.id == 0 {
        return;
      }
      var id := f.id;
      if f.kind != "" {
        AcceptKeepsReplies(outbox, inputCallbacks, accepted, id);
        inputCallbacks := inputCallbacks + {id};
        accepted := accepted + [id];
        if f.args.Some? {
          invocations := invocations + Invocations(id, Get(handlers, f.kind), f.args.value);
        }
      } else if id in outputCallbacks {
        outputCallbacks := outputCallbacks - {id};
        if id !in outcomes {
          outcomes := outcomes[id := Resolved(f.responseData)];
        }
      }
    }

    /** Invocation `k` has finished with `result` (`None`: its handler's
        promise rejected). Only a wrapper around a truthy handler replies,
        and only the first to finish for its call id. */
    method Finish(k: nat, result: Option<Value>)
      requires Valid()
      requires k < |invocations| && k !in finished
      modifies this`finished, this`inputCallbacks, this`outbox
      ensures Valid()
      ensures finished == old(finished) + {k}
      ensures var call := invocations[k]; var v := ReplyValue(call.wrapper.listener, result);
        if v.Some? && call.callId in old(inputCallbacks) then
          && inputCallbacks == old(inputCallbacks) - {call.callId}
          && outbox == old(outbox) + (if transportOpen then [Reply(call.callId, v.value)] else [])
        else
          inputCallbacks == old(inputCallbacks) && outbox == old(outbox)
    {
      var call := invocations[k];
      finished := finished + {k};
      var v := ReplyValue(call.wrapper.listener, result);
      if v.Some? && call.callId in inputCallbacks {
        SettleKeepsReplies(outbox, inputCallbacks, accepted, call.callId, v.value);
        inputCallbacks := inputCallbacks - {call.callId};
        if transportOpen {
          ReplyKeepsIds(outbox, lastId, call.callId, v.value);
          outbox := outbox + [Reply(call.callId, v.value)];
        }
      }
    }

    /** `on(type, waitForResponse)`: always registers a new wrapper; there is
        no way to take it off again. */
    method On(kind: string, handler: Option<Listener>)
      requires Valid()
      modifies this`wrappersBuilt, this`handlers
      ensures Valid()
      ensures handlers == Attach(old(handlers), kind, Wrapper(old(wrappersBuilt), handler))
      ensures wrappersBuilt == old(wrappersBuilt) + 1
    {
      handlers := Attach(handlers, kind, Wrapper(wrappersBuilt, handler));
      wrappersBuilt := wrappersBuilt + 1;
    }

    /** `emit(type, ...args)`, as in src/Emitter.js. */
    method Emit(kind: string, args: seq<Value>) returns (id: int)
      requires Valid()
      modifies this`lastId, this`outputCallbacks, this`outbox, this`outcomes
      ensures Valid()
      ensures id == old(lastId) + 1 && lastId == id
      ensures id !in old(outputCallbacks) && id !in old(outcomes)
      ensures forall f :: f in old(outbox) && f.Call? ==> f.id < id
      ensures outputCallbacks == old(outputCallbacks) + {id}
      ensures transportOpen ==> outbox == old(outbox) + [Call(id, kind, args)] && outcomes == old(outcomes)
      ensures !transportOpen ==> outbox == old(outbox) && outcomes == old(outcomes)[id := Rejected]
    {
      id := lastId + 1;
      NextCallKeepsIds(outbox, lastId, kind, args);
      CallKeepsReplies(outbox, inputCallbacks, accepted, id, kind, args);
      lastId := id;
      outputCallbacks := outputCallbacks + {id};
      if transportOpen {
        outbox := outbox + [Call(id, kind, args)];
      } else {
        outcomes := outcomes[id := Rejected];
      }
    }

    /** The socket closes underneath the endpoint; later sends throw. */
    method SocketClosed()
      requires Valid()
      modifies this`transportOpen
      ensures Valid()
      ensures !transportOpen
    {
      transportOpen := false;
    }
  }
}
