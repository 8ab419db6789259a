/** The older server of src/Server-copy.js. It keeps its reply handlers in a
    Node event emitter, so a handler registered twice is held (and counted)
    twice; it checks its options argument; and it lets a client ask for the
    server to close, by sending a close signal that the registered close
    handlers accept or refuse. As in `Broker`, what the server hands to the
    connections' endpoints is recorded as a log of `Push`es. */
module LegacyBroker {
  import opened Wire
  import opened Registry
  import opened Acceptor

  /** The message a client sends to ask for the server to close. */
  const CloseSignal: string := "__WS_CLOSE_SIGNAL__"

  /** The message a refused close request is answered with. */
  const RejectToClose: string := "REJECT TO CLOSE"

  /** The `options` argument of the constructor, as far as it matters
      here: not an object at all, `null` (whose `typeof` is also
      `'object'`), or an object with a `noServer` flag and possibly a
      `server` that is or is not listening. */
  datatype OptionsArg = NotAnObject | Null | Options(noServer: bool, server: Option<bool>)

  /** Why the constructor throws. */
  datatype StartError = MissingOptions | CannotDestructure

  /** The outcome of the checks at the top of the constructor: it throws,
      or it goes on, starting immediately or on `listening`. */
  datatype Checked = Refused(error: StartError) | Accepted(immediate: bool)

  function CheckOptions(o: OptionsArg): (r: Checked)
    ensures r.Accepted? <==> o.Options?
    ensures o.NotAnObject? ==> r == Refused(MissingOptions)
    ensures o.Null? ==> r == Refused(CannotDestructure)
    ensures r.Accepted? ==> (r.immediate <==> o.noServer || o.server == Some(true))
  {
    match o
    case NotAnObject => Refused(MissingOptions)
    case Null => Refused(CannotDestructure)
    case Options(noServer, server) => Accepted(noServer || (server.Some? && server.value))
  }

  /** How the promise of `Server.create(options)` has settled after
      `events`: a constructor that throws rejects it at once, whatever
      happens next. */
  function CreateOutcome(o: OptionsArg, events: seq<StartEvent>): (r: Option<bool>)
    ensures !o.Options? ==> r == Some(false)
    ensures o.Options? && o.noServer ==> (r == Some(true) <==> exists i :: 0 <= i < |events| && events[i] == NextTick
                                                                      && forall j :: 0 <= j < i ==> events[j] == Listening)
  {
    match CheckOptions(o)
    case Refused(_) => Some(false)
    case Accepted(immediate) => Created(immediate, events)
  }

  /** A connection's new operations after `start` are exactly the seeding
      of `registry`: an `addReply` for each registered (type, handler)
      pair. */
  ghost predicate SeededWith(pushes: seq<Push>, start: nat, c: Conn, registry: map<string, seq<Listener>>)
    requires start <= |pushes|
  {
    forall p :: p in pushes[start..] <==>
      p.conn == c && p.op.AddListener? && p.op.kind in registry && p.op.listener in registry[p.op.kind]
  }

  /** One call of a close handler, for the client that asked. */
  datatype CloseCall = CloseCall(handler: nat, conn: Conn)

  /** The calls `_closeEmitter.emit(CLOSE_SIGNAL, client)` makes: every
      close handler, in registration order, with the client of `c`. */
  function CallsFor(handlers: seq<nat>, c: Conn): (r: seq<CloseCall>)
    ensures |r| == |handlers|
    ensures forall i :: 0 <= i < |handlers| ==> r[i] == CloseCall(handlers[i], c)
  {
    seq(|handlers|, i requires 0 <= i < |handlers| => CloseCall(handlers[i], c))
  }

  /** A text message sent to a connection. */
  datatype Sent = Sent(conn: Conn, text: string)

  class Server {
    /** `wss.clients`, in acceptance order. */
    var sockets: seq<Conn>
    /** The ready state of each socket of `sockets`. */
    var state: map<Conn, ReadyState>
    /** The `isAlive` flag of each socket of `sockets`. */
    var alive: map<Conn, bool>
    /** Keys of `clients`. */
    var clients: set<Conn>
    /** The listener lists of `_emitter`. */
    var registry: map<string, seq<Listener>>
    /** The handlers given to `onReplyClose`, in order. */
    var closeHandlers: seq<nat>
    /** Clients for which a `requestClose` event was emitted, in order. */
    var closeRequests: seq<Conn>
    /** Close-handler calls started, in order. */
    var closeCalls: seq<CloseCall>
    /** Indices of `closeCalls` whose handler has answered. */
    var decided: set<nat>
    /** Text messages sent to connections, in order. */
    var sent: seq<Sent>
    /** Operations handed to connections' endpoints, in order. */
    var pushes: seq<Push>
    /** Pings sent, in order. */
    var pings: seq<Conn>
    /** `terminate` calls made by the heartbeat, in order. */
    var terminations: seq<Conn>
    /** Whether the heartbeat interval is still set. */
    var ticking: bool
    /** Whether `wss.close` has been called. */
    var closing: bool
    /** The sockets whose flag was raised since the last heartbeat tick:
        by their `connection` or by a pong. */
    ghost var raised: set<Conn>

    ghost predicate Valid()
      reads this
    {
      ConnsValid() && HeartbeatValid() && RegistryValid()
    }

    /** Sockets are tracked once, each with a ready state and a flag, and a
        client exists only for a tracked socket. */
    ghost predicate ConnsValid()
      reads this`sockets, this`state, this`alive, this`clients
    {
      && Distinct(sockets)
      && (forall c :: c in state <==> c in sockets)
      && (forall c :: c in alive <==> c in sockets)
      && (forall c :: c in clients ==> c in sockets)
    }

    /** No event name with an empty listener list; only close-handler calls
        that were started can have answered. */
    ghost predicate RegistryValid()
      reads this`registry, this`decided, this`closeCalls
    {
      && NoEmptyLists(registry)
      && (forall k :: k in decided ==> k < |closeCalls|)
    }

    /** A flag is up only if it was raised since the last tick, and never
        on a socket without a client: the `pong` listener is installed only
        after the client was built. */
    ghost predicate HeartbeatValid()
      reads this`alive, this`raised, this`sockets, this`clients
    {
      && (forall c :: IsAlive(alive, c) ==> c in raised)
      && (forall c :: c in sockets && c !in clients ==> !IsAlive(alive, c))
    }

    /** `new Server(options, callback)` once `CheckOptions` accepted the
        options. */
    constructor ()
      ensures Valid()
      ensures sockets == [] && state == map[] && alive == map[] && clients == {} && registry == map[]
      ensures closeHandlers == [] && closeRequests == [] && closeCalls == [] && decided == {} && sent == []
      ensures pushes == [] && pings == [] && terminations == [] && ticking && !closing
    {
      sockets := [];
      state := map[];
      alive := map[];
      clients := {};
      registry := map[];
      closeHandlers := [];
      closeRequests := [];
      closeCalls := [];
      decided := {};
      sent := [];
      pushes := [];
      pings := [];
      terminations := [];
      ticking := true;
      closing := false;
      raised := {};
    }

    /** The `connection` listener for a newly accepted socket `c`: the
        socket gets a client and is flagged alive, its `pong`, `close` and
        `message` listeners are installed, and the client is seeded with
        every listener of every event name of `_emitter`. */
    method Connect(c: Conn)
      requires Valid()
      requires c !in sockets
      modifies this`sockets, this`state, this`alive, this`clients, this`pushes, this`raised
      ensures Valid()
      ensures sockets == old(sockets) + [c]
      ensures state == old(state)[c := Open] && alive == old(alive)[c := true]
      ensures clients == old(clients) + {c}
      ensures |old(pushes)| <= |pushes| && pushes[..|old(pushes)|] == old(pushes)
      ensures SeededWith(pushes, |old(pushes)|, c, registry)
    {
      var seeded := SeedPushes(c, registry);
      var before := pushes;
      assert (before + seeded)[|before|..] == seeded;
      raised, sockets, state, alive := raised + {c}, sockets + [c], state[c := Open], alive[c := true];
      clients, pushes := clients + {c}, before + seeded;
    }

    /** The `connection` listener as written: `new Client(ws)` is called
        without a callback, so src/Client.js:26 hands `undefined` to
        `ws.on`, which throws before anything else of the listener runs.
        The socket stays in `wss.clients` with no client, no flag (so
        `isAlive` is falsy) and no `pong`, `close` or `message` listener:
        it never hears a pong, ignores the close signal, is never seeded,
        and the next tick terminates it. */
    method ConnectAsWritten(c: Conn)
      requires Valid()
      requires c !in sockets
      modifies this`sockets, this`state, this`alive
      ensures Valid()
      ensures sockets == old(sockets) + [c]
      ensures state == old(state)[c := Open] && alive == old(alive)[c := false]
      ensures c !in clients && c !in OpenTracked(sockets, state, clients)
    {
      sockets, state, alive := sockets + [c], state[c := Open], alive[c := false];
    }

    /** The `close` listener of socket `c`. */
    method Disconnect(c: Conn)
      requires Valid()
      modifies this`sockets, this`state, this`alive, this`clients
      ensures Valid()
      ensures sockets == Without(old(sockets), c)
      ensures state == old(state) - {c} && alive == old(alive) - {c}
      ensures clients == old(clients) - {c}
    {
      sockets := Without(sockets, c);
      state := state - {c};
      alive := alive - {c};
      clients := clients - {c};
    }

    /** The `pong` listener, which only a socket with a client has. */
    method Pong(c: Conn)
      requires Valid()
      modifies this`alive, this`raised
      ensures Valid()
      ensures alive == if c in old(alive) && c in clients then old(alive)[c := true] else old(alive)
      ensures raised == old(raised) + {c}
    {
      raised := raised + {c};
      if c in alive && c in clients {
        alive := alive[c := true];
      }
    }

    /** The `message` listener of socket `c` (installed only on a socket
        with a client): the close signal emits `requestClose` with the
        client and calls every close handler with it, in order; any other
        message is left to the client. */
    method Message(c: Conn, text: string)
      requires Valid()
      modifies this`closeRequests, this`closeCalls
      ensures Valid()
      ensures text == CloseSignal && c in clients ==>
        && closeRequests == old(closeRequests) + [c]
        && |closeCalls| == |old(closeCalls)| + |closeHandlers|
        && closeCalls[..|old(closeCalls)|] == old(closeCalls)
        && forall i :: 0 <= i < |closeHandlers| ==> closeCalls[|old(closeCalls)| + i] == CloseCall(closeHandlers[i], c)
      ensures text != CloseSignal || c !in clients ==> closeRequests == old(closeRequests) && closeCalls == old(closeCalls)
    {
      if text == CloseSignal && c in clients {
        closeRequests := closeRequests + [c];
        closeCalls := closeCalls + CallsFor(closeHandlers, c);
      }
    }

    /** `onReplyClose(listener)`. */
    method OnReplyClose(handler: nat)
      requires Valid()
      modifies this`closeHandlers
      ensures Valid()
      ensures closeHandlers == old(closeHandlers) + [handler]
    {
      closeHandlers := closeHandlers + [handler];
    }

    /** Close-handler call `k` has answered `shouldClose`: a truthy answer
        closes the server; a falsy one sends the refusal to the client that
        asked, and to no one else (when its socket is no longer open, the
        send throws and nothing goes out). */
    method CloseDecided(k: nat, shouldClose: bool)
      requires Valid()
      requires k < |closeCalls| && k !in decided
      modifies this`decided, this`sent, this`ticking, this`closing
      ensures Valid()
      ensures decided == old(decided) + {k}
      ensures shouldClose ==> !ticking && closing && sent == old(sent)
      ensures !shouldClose ==>
        && ticking == old(ticking) && closing == old(closing)
        && var c := closeCalls[k].conn;
           sent == old(sent) + (if c in state && state[c] == Open then [Sent(c, RejectToClose)] else [])
    {
      decided := decided + {k};
      if shouldClose {
        Close();
      } else {
        var c := closeCalls[k].conn;
        if c in state && state[c] == Open {
          sent := sent + [Sent(c, RejectToClose)];
        }
      }
    }

    /** One heartbeat tick, as in src/Server.js. A socket that neither
        connected nor answered a ping since the previous tick, and a socket
        without a client, is terminated by it. */
    method Tick()
      requires Valid()
      requires ticking
      modifies this`alive, this`state, this`pings, this`terminations, this`raised
      ensures Valid()
      ensures terminations == old(terminations) + Silent(sockets, old(alive))
      ensures pings == old(pings) + Responsive(sockets, old(alive))
      ensures alive == Lowered(old(alive))
      ensures state == Terminated(old(state), Silent(sockets, old(alive)))
      ensures forall c :: c in sockets && (c !in old(raised) || c !in clients) ==> c in terminations[|old(terminations)|..]
      ensures raised == {}
    {
      var flags, states, silent, pinged := Sweep(sockets, alive, state);
      forall c | c in sockets && (c !in raised || c !in clients)
        ensures c in silent
      {
      }
      var before := terminations;
      assert (before + silent)[|before|..] == silent;
      alive, state, terminations, pings, raised := flags, states, before + silent, pings + pinged, {};
    }

    /** `_forEach(iterator)` through `_createClientsIterator`, with an
        iterator that hands `op` to each visited client. */
    method ForEach(op: ClientOp)
      modifies this`pushes
      ensures pushes == old(pushes) + Fanout(OpenTracked(sockets, state, clients), op)
    {
      var sent := Visit(sockets, state, clients, op);
      pushes := pushes + sent;
    }

    /** `onReply(type, listener)`: one more registration, duplicates
        included, handed to every open tracked client. */
    method OnReply(kind: string, l: Listener)
      requires Valid()
      modifies this`registry, this`pushes
      ensures Valid()
      ensures registry == Attach(old(registry), kind, l)
      ensures pushes == old(pushes) + Fanout(OpenTracked(sockets, state, clients), AddListener(kind, l))
    {
      registry := Attach(registry, kind, l);
      ForEach(AddListener(kind, l));
    }

    /** `reply`, the same as `onReply`. */
    method Reply(kind: string, l: Listener)
      requires Valid()
      modifies this`registry, this`pushes
      ensures Valid()
      ensures registry == Attach(old(registry), kind, l)
      ensures pushes == old(pushes) + Fanout(OpenTracked(sockets, state, clients), AddListener(kind, l))
    {
      OnReply(kind, l);
    }

    /** `addReply`, the same as `onReply`. */
    method AddReply(kind: string, l: Listener)
      requires Valid()
      modifies this`registry, this`pushes
      ensures Valid()
      ensures registry == Attach(old(registry), kind, l)
      ensures pushes == old(pushes) + Fanout(OpenTracked(sockets, state, clients), AddListener(kind, l))
    {
      OnReply(kind, l);
    }

    /** `replyCount(type)`: `listenerCount`, duplicates included. */
    function ReplyCount(kind: string): (n: nat)
      reads this
      requires Valid()
      ensures n == 0 <==> kind !in registry
    {
      Count(registry, kind)
    }

    /** `removeReply(type, listener)`: one registration fewer, and the
        removal handed to every open tracked client. */
    method RemoveReply(kind: string, l: Listener)
      requires Valid()
      modifies this`registry, this`pushes
      ensures Valid()
      ensures registry == Detach(old(registry), kind, l)
      ensures pushes == old(pushes) + Fanout(OpenTracked(sockets, state, clients), RemoveListener(kind, l))
    {
      var reg := Detach(registry, kind, l);
      assert NoEmptyLists(reg);
      registry := reg;
      ForEach(RemoveListener(kind, l));
    }

    /** `request(type, ...args)`: one call per open tracked client, and the
        promise `Promise.all` makes of their results, as in src/Server.js. */
    method Request(kind: string, args: seq<Value>, settled: map<Conn, Settlement>)
      returns (targets: seq<Conn>, aggregate: Aggregate)
      requires Valid()
      modifies this`pushes
      ensures targets == OpenTracked(sockets, state, clients) && Distinct(targets)
      ensures pushes == old(pushes) + Fanout(targets, Acceptor.Request(kind, args))
      ensures aggregate == All(Results(targets, settled))
      ensures aggregate.Failed? <==> exists c :: c in targets && c in settled && settled[c] == Rejected
      ensures aggregate.Fulfilled? <==> forall c :: c in targets ==> c in settled && settled[c].Resolved?
      ensures aggregate.Fulfilled? ==> |aggregate.values| == |targets|
    {
      targets := OpenTracked(sockets, state, clients);
      OpenTrackedDistinct(sockets, state, clients);
      AllOverTargets(targets, settled);
      aggregate := All(Results(targets, settled));
      ForEach(Acceptor.Request(kind, args));
    }

    /** `close()`. */
    method Close()
      requires Valid()
      modifies this`ticking, this`closing
      ensures Valid()
      ensures !ticking && closing
    {
      ticking := false;
      closing := true;
    }
  }

  /** `new Server(options, callback)`. A non-object `options` throws the
      missing-option error and `null` throws when it is destructured, both
      before anything is built. Any other object builds a server with no
      socket, no client and no handler, its heartbeat interval set; the
      callback is then deferred to the next tick when `noServer` is set or
      the given server is already listening, and waits for `listening`
      otherwise. */
  method New(o: OptionsArg) returns (s: Server?, outcome: Checked)
    ensures s == null <==> !o.Options?
    ensures o.NotAnObject? ==> outcome == Refused(MissingOptions)
    ensures o.Null? ==> outcome == Refused(CannotDestructure)
    ensures o.Options? ==> outcome == Accepted(o.noServer || o.server == Some(true))
    ensures s != null ==> && fresh(s) && s.Valid() && s.sockets == [] && s.clients == {}
                          && s.registry == map[] && s.closeHandlers == [] && s.ticking && !s.closing
  {
    outcome := CheckOptions(o);
    if outcome.Refused? {
      s := null;
    } else {
      s := new Server();
    }
  }

  /** The two nested `forEach` loops that seed a new client: over the event
      names, then over each name's listeners in order. */
  method SeedPushes(c: Conn, registry: map<string, seq<Listener>>) returns (seeded: seq<Push>)
    ensures forall p :: p in seeded <==>
      p.conn == c && p.op.AddListener? && p.op.kind in registry && p.op.listener in registry[p.op.kind]
  {
    seeded := [];
    var kinds := registry.Keys;
    while kinds != {}
      invariant kinds <= registry.Keys
      invariant forall p :: p in seeded <==>
        p.conn == c && p.op.AddListener? && p.op.kind in registry.Keys - kinds && p.op.listener in registry[p.op.kind]
      decreases kinds
    {
      var kind :| kind in kinds;
      var ls := registry[kind];
      var i := 0;
      while i < |ls|
        invariant 0 <= i <= |ls|
        invariant forall p :: p in seeded <==>
          || (p.conn == c && p.op.AddListener? && p.op.kind in registry.Keys - kinds && p.op.listener in registry[p.op.kind])
          || (p.conn == c && p.op.AddListener? && p.op.kind == kind && p.op.listener in ls[..i])
      {
        assert ls[..i + 1] == ls[..i] + [ls[i]];
        seeded := seeded + [Push(c, AddListener(kind, ls[i]))];
        i := i + 1;
      }
      assert ls[..i] == ls;
      kinds := kinds - {kind};
    }
  }
}
