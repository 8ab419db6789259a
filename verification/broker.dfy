/** The server of src/Server.js: a registry of reply handlers per call type,
    kept as a map from type to a set of handlers with no empty set left
    behind, pushed to the endpoint of every open tracked connection and
    seeded into every new one; and a heartbeat that terminates connections
    that stop answering pings. The endpoints themselves are not modelled
    here: what the server hands them is recorded as a log of `Push`es. */
module Broker {
  import opened Wire
  import opened Acceptor

  /** The handlers registered for `kind`. */
  function Lookup(types: map<string, set<Listener>>, kind: string): set<Listener>
  {
    if kind in types then types[kind] else {}
  }

  ghost predicate NoEmptySets(types: map<string, set<Listener>>)
  {
    forall kind :: kind in types ==> types[kind] != {}
  }

  /** The registry update of `onReply(type, listener)`: the set for `type`,
      created when missing, gains `listener`. */
  function Register(types: map<string, set<Listener>>, kind: string, l: Listener): (r: map<string, set<Listener>>)
    ensures Lookup(r, kind) == Lookup(types, kind) + {l}
    ensures forall k :: k != kind ==> Lookup(r, k) == Lookup(types, k)
    ensures r.Keys == types.Keys + {kind}
    ensures NoEmptySets(types) ==> NoEmptySets(r)
  {
    types[kind := Lookup(types, kind) + {l}]
  }

  /** The registry update of `removeReply(type, listener)`: the set for
      `type` loses `listener`, and the type goes once its set is empty. */
  function Unregister(types: map<string, set<Listener>>, kind: string, l: Listener): (r: map<string, set<Listener>>)
    ensures Lookup(r, kind) == Lookup(types, kind) - {l}
    ensures forall k :: k != kind ==> Lookup(r, k) == Lookup(types, k)
    ensures r.Keys <= types.Keys
    ensures NoEmptySets(types) ==> NoEmptySets(r)
    ensures NoEmptySets(types) && l !in Lookup(types, kind) ==> r == types
  {
    if kind !in types then types
    else
      var rest := types[kind] - {l};
      if rest == {} then types - {kind}
      else
        assert l !in types[kind] ==> rest == types[kind];
        assert types[kind := types[kind]] == types;
        types[kind := rest]
  }

  /** `replyCount(type)`. */
  function Count(types: map<string, set<Listener>>, kind: string): (n: nat)
    ensures NoEmptySets(types) ==> (n == 0 <==> kind !in types)
  {
    |Lookup(types, kind)|
  }

  /** Registering a handler twice is the same as registering it once. */
  lemma RegisterIdempotent(types: map<string, set<Listener>>, kind: string, l: Listener)
    ensures Register(Register(types, kind, l), kind, l) == Register(types, kind, l)
  {
    var once := Register(types, kind, l);
    assert Lookup(once, kind) + {l} == Lookup(once, kind);
  }

  /** `replyCount` grows by one for a new handler and not at all for a
      handler already registered. */
  lemma RegisterCount(types: map<string, set<Listener>>, kind: string, l: Listener)
    ensures Count(Register(types, kind, l), kind) == Count(types, kind) + (if l in Lookup(types, kind) then 0 else 1)
  {
    var s := Lookup(types, kind);
    if l in s {
      assert s + {l} == s;
    } else {
      assert |s + {l}| == |s| + 1;
    }
  }

  /** Removing a handler just added gives back the registry before it. */
  lemma UnregisterUndoesRegister(types: map<string, set<Listener>>, kind: string, l: Listener)
    requires NoEmptySets(types)
    requires l !in Lookup(types, kind)
    ensures Unregister(Register(types, kind, l), kind, l) == types
  {
    var s := Lookup(types, kind);
    assert s + {l} - {l} == s;
    if kind in types {
      assert types[kind := s + {l}][kind := s] == types;
    } else {
      assert types[kind := s + {l}] - {kind} == types;
    }
  }

  /** A connection's new operations after `start` are exactly the seeding
      of `types`: one `addReply` per registered (type, handler) pair. */
  ghost predicate SeededWith(pushes: seq<Push>, start: nat, c: Conn, types: map<string, set<Listener>>)
    requires start <= |pushes|
  {
    forall p :: p in pushes[start..] <==>
      p.conn == c && p.op.AddListener? && p.op.kind in types && p.op.listener in types[p.op.kind]
  }

  class Server {
    /** `wss.clients`: the accepted sockets not closed yet, in acceptance
        order. */
    var sockets: seq<Conn>
    /** The ready state of each socket of `sockets`. */
    var state: map<Conn, ReadyState>
    /** The `isAlive` flag of each socket of `sockets`. */
    var alive: map<Conn, bool>
    /** Keys of `_clients`: the sockets that have a client object. */
    var clients: set<Conn>
    /** `_types`. */
    var types: map<string, set<Listener>>
    /** Operations handed to connections' endpoints, in order. */
    var pushes: seq<Push>
    /** Pings sent, in order. */
    var pings: seq<Conn>
    /** `terminate` calls made by the heartbeat, in order. */
    var terminations: seq<Conn>
    /** Whether the heartbeat interval is still set. */
    var ticking: bool
    /** Whether `wss.close` has been called. */
    var closing: bool
    /** `waitFor` calls so far; the next one builds `Waiter(waitersBuilt)`. */
    var waitersBuilt: nat
    /** The sockets whose flag was raised since the last heartbeat tick:
        by their `connection` or by a pong. */
    ghost var raised: set<Conn>

    ghost predicate Valid()
      reads this
    {
      ConnsValid() && HeartbeatValid() && RegistryValid()
    }

    /** A flag is up only if it was raised since the last tick. */
    ghost predicate HeartbeatValid()
      reads this`alive, this`raised
    {
      forall c :: IsAlive(alive, c) ==> c in raised
    }

    /** Sockets are tracked once, each with a ready state and a flag, and a
        client exists only for a tracked socket. */
    ghost predicate ConnsValid()
      reads this
    {
      && Distinct(sockets)
      && (forall c :: c in state <==> c in sockets)
      && (forall c :: c in alive <==> c in sockets)
      && (forall c :: c in clients ==> c in sockets)
    }

    /** No type maps to an empty set, and every `waitFor` handler is one
        already built. */
    ghost predicate RegistryValid()
      reads this
    {
      && NoEmptySets(types)
      && (forall kind, l :: kind in types && l in types[kind] && l.Waiter? ==> l.k < waitersBuilt)
    }

    /** `new Server(options, callback)`: no socket, no handler, and the
        heartbeat interval set. */
    constructor ()
      ensures Valid()
      ensures sockets == [] && state == map[] && alive == map[] && clients == {} && types == map[]
      ensures pushes == [] && pings == [] && terminations == [] && ticking && !closing
    {
      sockets := [];
      state := map[];
      alive := map[];
      clients := {};
      types := map[];
      pushes := [];
      pings := [];
      terminations := [];
      ticking := true;
      closing := false;
      waitersBuilt := 0;
      raised := {};
    }

    /** The `connection` listener for a newly accepted socket `c` (which
        the acceptor has just added to `wss.clients`): the socket is
        flagged alive and gets a client, which is seeded with every
        registered (type, handler) pair. */
    method Connect(c: Conn)
      requires Valid()
      requires c !in sockets
      modifies this`sockets, this`state, this`alive, this`clients, this`pushes, this`raised
      ensures Valid()
      ensures sockets == old(sockets) + [c]
      ensures state == old(state)[c := Open] && alive == old(alive)[c := true]
      ensures clients == old(clients) + {c}
      ensures |old(pushes)| <= |pushes| && pushes[..|old(pushes)|] == old(pushes)
      ensures SeededWith(pushes, |old(pushes)|, c, types)
    {
      var seeded := SeedPushes(c, types);
      var before := pushes;
      assert (before + seeded)[|before|..] == seeded;
      raised, sockets, state, alive := raised + {c}, sockets + [c], state[c := Open], alive[c := true];
      clients, pushes := clients + {c}, before + seeded;
    }

    /** The `connection` listener as written: `new Client(ws)` is called
        without a callback, so src/Client.js:26 hands `undefined` to
        `ws.on`, which throws. By then the socket is flagged alive and
        hears pongs, but the client is never tracked: seeding and every
        later `_forEach` pass it by. */
    method ConnectAsWritten(c: Conn)
      requires Valid()
      requires c !in sockets
      modifies this`sockets, this`state, this`alive, this`raised
      ensures Valid()
      ensures sockets == old(sockets) + [c]
      ensures state == old(state)[c := Open] && alive == old(alive)[c := true]
      ensures c !in clients && c !in OpenTracked(sockets, state, clients)
    {
      raised := raised + {c};
      sockets := sockets + [c];
      state := state[c := Open];
      alive := alive[c := true];
    }

    /** The `close` listener of socket `c`: its client is dropped, and the
        acceptor stops tracking it. */
    method Disconnect(c: Conn)
      requires Valid()
      modifies this`sockets, this`state, this`alive, this`clients
      ensures Valid()
      ensures sockets == Without(old(sockets), c)
      ensures state == old(state) - {c} && alive == old(alive) - {c}
      ensures clients == old(clients) - {c}
    {
      sockets := Without(sockets, c);
      state := state - {c};
      alive := alive - {c};
      clients := clients - {c};
    }

    /** The `pong` listener: raises the flag of the socket that answered. */
    method Pong(c: Conn)
      requires Valid()
      modifies this`alive, this`raised
      ensures Valid()
      ensures alive == if c in old(alive) then old(alive)[c := true] else old(alive)
      ensures raised == old(raised) + {c}
    {
      raised := raised + {c};
      if c in alive {
        alive := alive[c := true];
      }
    }

    /** One heartbeat tick: every socket whose flag is down is terminated;
        every other one has its flag lowered and is pinged. So a socket that
        neither connected nor answered a ping since the previous tick is
        terminated by this one. */
    method Tick()
      requires Valid()
      requires ticking
      modifies this`alive, this`state, this`pings, this`terminations, this`raised
      ensures Valid()
      ensures terminations == old(terminations) + Silent(sockets, old(alive))
      ensures pings == old(pings) + Responsive(sockets, old(alive))
      ensures alive == Lowered(old(alive))
      ensures state == Terminated(old(state), Silent(sockets, old(alive)))
      ensures forall c :: c in sockets && c !in old(raised) ==> c in terminations[|old(terminations)|..]
      ensures raised == {}
    {
      var flags, states, silent, pinged := Sweep(sockets, alive, state);
      forall c | c in sockets && c !in raised
        ensures c in silent
      {
      }
      var before := terminations;
      assert (before + silent)[|before|..] == silent;
      alive, state, terminations, pings, raised := flags, states, before + silent, pings + pinged, {};
    }

    /** `_forEach` with an iterator that hands `op` to each visited client:
        exactly the open tracked sockets get it, in order. */
    method ForEach(op: ClientOp)
      modifies this`pushes
      ensures pushes == old(pushes) + Fanout(OpenTracked(sockets, state, clients), op)
    {
      var sent := Visit(sockets, state, clients, op);
      pushes := pushes + sent;
    }

    /** `onReply(type, listener)`: registers the handler and hands it to
        every open tracked client, even when it was registered already. */
    method OnReply(kind: string, l: Listener)
      requires Valid()
      requires l.Waiter? ==> l.k < waitersBuilt
      modifies this`types, this`pushes
      ensures Valid()
      ensures types == Register(old(types), kind, l)
      ensures pushes == old(pushes) + Fanout(OpenTracked(sockets, state, clients), AddListener(kind, l))
    {
      types := Register(types, kind, l);
      ForEach(AddListener(kind, l));
    }

    /** `reply`, the same as `onReply`. */
    method Reply(kind: string, l: Listener)
      requires Valid()
      requires l.Waiter? ==> l.k < waitersBuilt
      modifies this`types, this`pushes
      ensures Valid()
      ensures types == Register(old(types), kind, l)
      ensures pushes == old(pushes) + Fanout(OpenTracked(sockets, state, clients), AddListener(kind, l))
    {
      OnReply(kind, l);
    }

    /** `addReply`, the same as `onReply`. */
    method AddReply(kind: string, l: Listener)
      requires Valid()
      requires l.Waiter? ==> l.k < waitersBuilt
      modifies this`types, this`pushes
      ensures Valid()
      ensures types == Register(old(types), kind, l)
      ensures pushes == old(pushes) + Fanout(OpenTracked(sockets, state, clients), AddListener(kind, l))
    {
      OnReply(kind, l);
    }

    /** `replyCount(type)`. */
    function ReplyCount(kind: string): (n: nat)
      reads this
      requires Valid()
      ensures n == 0 <==> kind !in types
    {
      Count(types, kind)
    }

    /** `waitFor(type)`: registers a handler built for this call, which no
        registry entry held before. */
    method WaitFor(kind: string) returns (l: Listener)
      requires Valid()
      modifies this`waitersBuilt, this`types, this`pushes
      ensures Valid()
      ensures l == Waiter(old(waitersBuilt))
      ensures forall k :: l !in Lookup(old(types), k)
      ensures types == Register(old(types), kind, l)
      ensures pushes == old(pushes) + Fanout(OpenTracked(sockets, state, clients), AddListener(kind, l))
    {
      l := Waiter(waitersBuilt);
      waitersBuilt := waitersBuilt + 1;
      OnReply(kind, l);
    }

    /** `request(type, ...args)`: one call per open tracked client, and the
        promise `Promise.all` makes of their results. `settled` is how each
        client's call has settled so far; `aggregate` is the state of that
        promise then. */
    method Request(kind: string, args: seq<Value>, settled: map<Conn, Settlement>)
      returns (targets: seq<Conn>, aggregate: Aggregate)
      requires Valid()
      modifies this`pushes
      ensures targets == OpenTracked(sockets, state, clients) && Distinct(targets)
      ensures pushes == old(pushes) + Fanout(targets, Acceptor.Request(kind, args))
      ensures aggregate == All(Results(targets, settled))
      ensures aggregate.Failed? <==> exists c :: c in targets && c in settled && settled[c] == Rejected
      ensures aggregate.Fulfilled? <==> forall c :: c in targets ==> c in settled && settled[c].Resolved?
      ensures aggregate.Fulfilled? ==> |aggregate.values| == |targets|
    {
      targets := OpenTracked(sockets, state, clients);
      OpenTrackedDistinct(sockets, state, clients);
      AllOverTargets(targets, settled);
      aggregate := All(Results(targets, settled));
      ForEach(Acceptor.Request(kind, args));
    }

    /** `removeReply(type, listener)`: unregisters the handler and tells
        every open tracked client to drop it, registered or not. */
    method RemoveReply(kind: string, l: Listener)
      requires Valid()
      modifies this`types, this`pushes
      ensures Valid()
      ensures types == Unregister(old(types), kind, l)
      ensures pushes == old(pushes) + Fanout(OpenTracked(sockets, state, clients), RemoveListener(kind, l))
    {
      types := Unregister(types, kind, l);
      ForEach(RemoveListener(kind, l));
    }

    /** `close()`: clears the heartbeat interval and closes the acceptor. */
    method Close()
      requires Valid()
      modifies this`ticking, this`closing
      ensures Valid()
      ensures !ticking && closing
    {
      ticking := false;
      closing := true;
    }
  }

  /** The two nested `forEach` loops that seed a new client: over the
      types, then over each type's handlers. */
  method SeedPushes(c: Conn, types: map<string, set<Listener>>) returns (seeded: seq<Push>)
    ensures forall p :: p in seeded <==>
      p.conn == c && p.op.AddListener? && p.op.kind in types && p.op.listener in types[p.op.kind]
  {
    seeded := [];
    var kinds := types.Keys;
    while kinds != {}
      invariant kinds <= types.Keys
      invariant forall p :: p in seeded <==>
        p.conn == c && p.op.AddListener? && p.op.kind in types.Keys - kinds && p.op.listener in types[p.op.kind]
      decreases kinds
    {
      var kind :| kind in kinds;
      var ls := types[kind];
      while ls != {}
        invariant ls <= types[kind]
        invariant forall p :: p in seeded <==>
          || (p.conn == c && p.op.AddListener? && p.op.kind in types.Keys - kinds && p.op.listener in types[p.op.kind])
          || (p.conn == c && p.op.AddListener? && p.op.kind == kind && p.op.listener in types[kind] - ls)
        decreases ls
      {
        var l :| l in ls;
        seeded := seeded + [Push(c, AddListener(kind, l))];
        ls := ls - {l};
      }
      kinds := kinds - {kind};
    }
  }
}
