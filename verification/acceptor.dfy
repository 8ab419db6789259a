/** What both server variants share: the sockets a `WebSocket.Server`
    tracks, the selection `_forEach` makes among them, the heartbeat tick,
    the aggregation `Promise.all` performs over a request's per-client
    results, and the way `create` settles. */
module Acceptor {
  import opened Wire

  /** A socket accepted by the server, by identity. */
  type Conn = nat

  /** The ready states a tracked socket can be in (the acceptor forgets a
      socket once it is closed). */
  datatype ReadyState = Open | Closing

  /** An operation a server hands to the endpoint of one connection. */
  datatype ClientOp =
    | AddListener(kind: string, listener: Listener)
    | RemoveListener(kind: string, listener: Listener)
    | Request(kind: string, args: seq<Value>)

  /** One operation handed to the endpoint of `conn`. */
  datatype Push = Push(conn: Conn, op: ClientOp)

  ghost predicate Distinct(s: seq<Conn>)
  {
    forall i, j :: 0 <= i < j < |s| ==> s[i] != s[j]
  }

  /** The sockets `_forEach` visits: those of `wss.clients`, in order, that
      are OPEN and have a tracked client. */
  function OpenTracked(sockets: seq<Conn>, state: map<Conn, ReadyState>, clients: set<Conn>): (r: seq<Conn>)
    ensures forall c :: c in r <==> c in sockets && c in state && state[c] == Open && c in clients
    ensures |r| <= |sockets|
  {
    if sockets == [] then []
    else
      var c := sockets[|sockets| - 1];
      var rest := OpenTracked(sockets[..|sockets| - 1], state, clients);
      assert forall x :: x in sockets <==> x in sockets[..|sockets| - 1] || x == c;
      if c in state && state[c] == Open && c in clients then rest + [c] else rest
  }

  /** So `_forEach` visits each socket at most once. */
  lemma {:induction false} OpenTrackedDistinct(sockets: seq<Conn>, state: map<Conn, ReadyState>, clients: set<Conn>)
    requires Distinct(sockets)
    ensures Distinct(OpenTracked(sockets, state, clients))
  {
    if sockets != [] {
      var init := sockets[..|sockets| - 1];
      assert Distinct(init);
      OpenTrackedDistinct(init, state, clients);
      assert sockets[|sockets| - 1] !in init;
    }
  }

  /** `sockets` once `c` has been closed and untracked. */
  function Without(sockets: seq<Conn>, c: Conn): (r: seq<Conn>)
    ensures forall x :: x in r <==> x in sockets && x != c
    ensures Distinct(sockets) ==> Distinct(r)
  {
    if sockets == [] then []
    else
      var last := sockets[|sockets| - 1];
      var init := sockets[..|sockets| - 1];
      var rest := Without(init, c);
      assert forall x :: x in sockets <==> x in init || x == last;
      assert Distinct(sockets) ==> Distinct(init) && last !in init;
      if last == c then rest else rest + [last]
  }

  /** The same operation handed to each of `targets`, in order. */
  function Fanout(targets: seq<Conn>, op: ClientOp): (r: seq<Push>)
    ensures |r| == |targets|
    ensures forall i :: 0 <= i < |targets| ==> r[i] == Push(targets[i], op)
  {
    seq(|targets|, i requires 0 <= i < |targets| => Push(targets[i], op))
  }

  /** The walk of `_forEach` over `wss.clients`: `op` goes to each socket
      that is OPEN and has a tracked client, in the order of `sockets`. */
  method Visit(sockets: seq<Conn>, state: map<Conn, ReadyState>, clients: set<Conn>, op: ClientOp)
    returns (sent: seq<Push>)
    ensures sent == Fanout(OpenTracked(sockets, state, clients), op)
  {
    sent := [];
    var i := 0;
    while i < |sockets|
      invariant 0 <= i <= |sockets|
      invariant sent == Fanout(OpenTracked(sockets[..i], state, clients), op)
    {
      var c := sockets[i];
      assert sockets[..i + 1][..i] == sockets[..i];
      if c in state && state[c] == Open && c in clients {
        sent := sent + [Push(c, op)];
      }
      i := i + 1;
    }
    assert sockets[..i] == sockets;
  }

  /** The `isAlive` flag of a socket. */
  function IsAlive(alive: map<Conn, bool>, c: Conn): bool
  {
    c in alive && alive[c]
  }

  /** The sockets a heartbeat tick terminates: those, in order, whose flag
      is down. */
  function Silent(sockets: seq<Conn>, alive: map<Conn, bool>): (r: seq<Conn>)
    ensures forall c :: c in r <==> c in sockets && !IsAlive(alive, c)
  {
    if sockets == [] then []
    else
      var c := sockets[|sockets| - 1];
      var rest := Silent(sockets[..|sockets| - 1], alive);
      assert forall x :: x in sockets <==> x in sockets[..|sockets| - 1] || x == c;
      if IsAlive(alive, c) then rest else rest + [c]
  }

  /** The sockets a heartbeat tick pings: those, in order, whose flag is
      up. */
  function Responsive(sockets: seq<Conn>, alive: map<Conn, bool>): (r: seq<Conn>)
    ensures forall c :: c in r <==> c in sockets && IsAlive(alive, c)
  {
    if sockets == [] then []
    else
      var c := sockets[|sockets| - 1];
      var rest := Responsive(sockets[..|sockets| - 1], alive);
      assert forall x :: x in sockets <==> x in sockets[..|sockets| - 1] || x == c;
      if IsAlive(alive, c) then rest + [c] else rest
  }

  /** Every socket is either terminated or pinged by a tick, never both. */
  lemma {:induction false} TickSplits(sockets: seq<Conn>, alive: map<Conn, bool>)
    ensures |Silent(sockets, alive)| + |Responsive(sockets, alive)| == |sockets|
  {
    if sockets != [] {
      TickSplits(sockets[..|sockets| - 1], alive);
    }
  }

  /** The flags after a tick: every flag down. */
  function Lowered(alive: map<Conn, bool>): (r: map<Conn, bool>)
    ensures r.Keys == alive.Keys
    ensures forall c :: !IsAlive(r, c)
  {
    map c | c in alive :: false
  }

  /** The flags part-way through a tick, once the sockets in `done` have
      been visited. */
  function LoweredFor(alive: map<Conn, bool>, done: seq<Conn>): (r: map<Conn, bool>)
    ensures r.Keys == alive.Keys
  {
    map c | c in alive :: c !in done && alive[c]
  }

  lemma LoweredForStep(alive: map<Conn, bool>, done: seq<Conn>, c: Conn)
    requires c in alive
    ensures LoweredFor(alive, done + [c]) == LoweredFor(alive, done)[c := false]
  {
    assert forall x :: x in done + [c] <==> x in done || x == c;
  }

  lemma LoweredForSilent(alive: map<Conn, bool>, done: seq<Conn>, c: Conn)
    requires c in alive && !alive[c]
    ensures LoweredFor(alive, done + [c]) == LoweredFor(alive, done)
  {
    assert forall x :: x in done + [c] <==> x in done || x == c;
  }

  lemma LoweredForAll(alive: map<Conn, bool>, sockets: seq<Conn>)
    requires forall c :: c in alive ==> c in sockets
    ensures LoweredFor(alive, sockets) == Lowered(alive)
  {
  }

  /** Visiting the next socket of a list without repeats. */
  lemma NextSocket(sockets: seq<Conn>, i: nat)
    requires Distinct(sockets) && i < |sockets|
    ensures sockets[..i + 1] == sockets[..i] + [sockets[i]]
    ensures sockets[..i + 1][..i] == sockets[..i]
    ensures sockets[i] !in sockets[..i]
  {
  }

  /** What visiting the next socket adds to a tick's terminations and
      pings. */
  lemma TickStep(sockets: seq<Conn>, i: nat, alive: map<Conn, bool>)
    requires i < |sockets|
    ensures Silent(sockets[..i + 1], alive) == Silent(sockets[..i], alive) + (if IsAlive(alive, sockets[i]) then [] else [sockets[i]])
    ensures Responsive(sockets[..i + 1], alive) == Responsive(sockets[..i], alive) + (if IsAlive(alive, sockets[i]) then [sockets[i]] else [])
  {
    assert sockets[..i + 1][..i] == sockets[..i];
  }

  lemma TerminatedStep(state: map<Conn, ReadyState>, silent: seq<Conn>, c: Conn)
    requires c in state
    ensures Terminated(state, silent + [c]) == Terminated(state, silent)[c := Closing]
  {
    assert forall x :: x in silent + [c] <==> x in silent || x == c;
  }

  /** The loop of one heartbeat tick over `wss.clients`: a socket whose
      flag is down is terminated (and so turns CLOSING); any other has its
      flag lowered and is pinged. */
  method Sweep(sockets: seq<Conn>, alive: map<Conn, bool>, state: map<Conn, ReadyState>)
    returns (flags: map<Conn, bool>, states: map<Conn, ReadyState>, terminated: seq<Conn>, pinged: seq<Conn>)
    requires Distinct(sockets)
    requires forall c :: c in alive ==> c in sockets
    requires forall c :: c in sockets ==> c in alive && c in state
    ensures terminated == Silent(sockets, alive) && pinged == Responsive(sockets, alive)
    ensures flags == Lowered(alive) && flags.Keys == alive.Keys
    ensures states == Terminated(state, Silent(sockets, alive)) && states.Keys == state.Keys
  {
    flags, states, terminated, pinged := alive, state, [], [];
    var i := 0;
    while i < |sockets|
      invariant 0 <= i <= |sockets|
      invariant terminated == Silent(sockets[..i], alive)
      invariant pinged == Responsive(sockets[..i], alive)
      invariant flags == LoweredFor(alive, sockets[..i])
      invariant states == Terminated(state, Silent(sockets[..i], alive))
    {
      var c := sockets[i];
      NextSocket(sockets, i);
      TickStep(sockets, i, alive);
      if !IsAlive(flags, c) {
        LoweredForSilent(alive, sockets[..i], c);
        TerminatedStep(state, Silent(sockets[..i], alive), c);
        terminated := terminated + [c];
        states := states[c := Closing];
      } else {
        LoweredForStep(alive, sockets[..i], c);
        flags := flags[c := false];
        pinged := pinged + [c];
      }
      i := i + 1;
    }
    assert sockets[..i] == sockets;
    LoweredForAll(alive, sockets);
  }

  /** The ready states after a tick terminated `silent`: `terminate` moves
      an open socket to CLOSING at once; the `close` event that untracks
      it comes later. */
  function Terminated(state: map<Conn, ReadyState>, silent: seq<Conn>): (r: map<Conn, ReadyState>)
    ensures r.Keys == state.Keys
    ensures forall c :: c in state ==> r[c] == (if c in silent then Closing else state[c])
  {
    map c | c in state :: if c in silent then Closing else state[c]
  }

  /** The state of the promise `Promise.all` builds over one result per
      visited client: `None` is a call still pending. */
  datatype Aggregate = Waiting | Fulfilled(values: seq<Value>) | Failed

  function All(rs: seq<Option<Settlement>>): (r: Aggregate)
    ensures r.Failed? <==> exists i :: 0 <= i < |rs| && rs[i] == Some(Rejected)
    ensures r.Fulfilled? <==> forall i :: 0 <= i < |rs| ==> rs[i].Some? && rs[i].value.Resolved?
    ensures r.Fulfilled? ==> |r.values| == |rs| && forall i :: 0 <= i < |rs| ==> rs[i] == Some(Resolved(r.values[i]))
  {
    if rs == [] then Fulfilled([])
    else
      var rest := All(rs[1..]);
      assert forall i :: 1 <= i < |rs| ==> rs[i] == rs[1..][i - 1];
      if rs[0] == Some(Rejected) || rest.Failed? then Failed
      else if rs[0].None? || rest.Waiting? then Waiting
      else Fulfilled([rs[0].value.value] + rest.values)
  }

  /** How the call a request handed to each of `targets` has settled, in
      the order of `targets` (`None`: still pending). The settlements come
      from the connections' endpoints. */
  function Results(targets: seq<Conn>, settled: map<Conn, Settlement>): (rs: seq<Option<Settlement>>)
    ensures |rs| == |targets|
    ensures forall i :: 0 <= i < |targets| ==> rs[i] == (if targets[i] in settled then Some(settled[targets[i]]) else None)
  {
    seq(|targets|, i requires 0 <= i < |targets| => if targets[i] in settled then Some(settled[targets[i]]) else None)
  }

  /** `Promise.all` over the calls of one request: it fails exactly when
      the call of some target was rejected, fulfils exactly when every
      target's call resolved, and then holds their values in the order of
      the targets. With no target it fulfils with no value. */
  lemma AllOverTargets(targets: seq<Conn>, settled: map<Conn, Settlement>)
    ensures var r := All(Results(targets, settled));
      && (r.Failed? <==> exists c :: c in targets && c in settled && settled[c] == Rejected)
      && (r.Fulfilled? <==> forall c :: c in targets ==> c in settled && settled[c].Resolved?)
      && (r.Fulfilled? ==> |r.values| == |targets|
                           && forall i :: 0 <= i < |targets| ==> settled[targets[i]] == Resolved(r.values[i]))
  {
    var rs := Results(targets, settled);
    forall c | c in targets && c in settled && settled[c] == Rejected
      ensures exists i :: 0 <= i < |rs| && rs[i] == Some(Rejected)
    {
      var i :| 0 <= i < |targets| && targets[i] == c;
      assert rs[i] == Some(Rejected);
    }
    forall c | c in targets
      ensures (forall i :: 0 <= i < |rs| ==> rs[i].Some? && rs[i].value.Resolved?) ==> c in settled && settled[c].Resolved?
    {
      var i :| 0 <= i < |targets| && targets[i] == c;
      assert rs[i] == (if c in settled then Some(settled[c]) else None);
    }
  }

  /** What can happen around a server being created: the deferred callback
      of `process.nextTick`, the acceptor's `listening` or its `error`. */
  datatype StartEvent = NextTick | Listening | AcceptorError

  /** Whether `e` calls `create`'s callback: with an immediate start the
      callback is deferred to the next tick and `listening` is not
      listened to; otherwise it waits for `listening`. `error` always
      calls it, with the error. */
  predicate Decides(immediate: bool, e: StartEvent)
  {
    e == AcceptorError || (if immediate then e == NextTick else e == Listening)
  }

  /** How the promise `create` returns has settled after `events`: `None`
      while pending, `Some(true)` resolved, `Some(false)` rejected. The first
      event that calls the callback settles it; later calls are ignored. */
  function Created(immediate: bool, events: seq<StartEvent>): (r: Option<bool>)
    ensures r.None? <==> forall i :: 0 <= i < |events| ==> !Decides(immediate, events[i])
    ensures r.Some? ==> exists i :: 0 <= i < |events| && Decides(immediate, events[i])
                                    && r.value == (events[i] != AcceptorError)
                                    && forall j :: 0 <= j < i ==> !Decides(immediate, events[j])
  {
    if events == [] then None
    else if Decides(immediate, events[0]) then Some(events[0] != AcceptorError)
    else
      var rest := Created(immediate, events[1..]);
      assert forall i :: 1 <= i < |events| ==> events[i] == events[1..][i - 1];
      rest
  }

  /** A settled `create` stays settled the same way. */
  lemma {:induction false} CreatedSettlesOnce(immediate: bool, events: seq<StartEvent>, more: seq<StartEvent>)
    requires Created(immediate, events).Some?
    ensures Created(immediate, events + more) == Created(immediate, events)
  {
    if !Decides(immediate, events[0]) {
      assert (events + more)[1..] == events[1..] + more;
      CreatedSettlesOnce(immediate, events[1..], more);
    }
  }

  /** The places where a server calls a method of a connection's client
      object. */
  datatype CallSite = Seeding | Registering | Unregistering | Requesting | RejectingClose

  /** Members a connection's client object has: those of src/Emitter.js,
      `close` of src/Client.js and the `_ws` field it keeps. */
  const ClientMembers: set<string> := {"on", "addListener", "waitFor", "removeListener", "emit", "close", "_ws"}

  /** The member each call site uses, as written. */
  function WrittenMember(site: CallSite): string
  {
    match site
    case Seeding => "addReply"
    case Registering => "onReply"
    case Unregistering => "removeReply"
    case Requesting => "request"
    case RejectingClose => "ws"
  }

  /** As written, every call site names a member the client object does
      not have, so each call throws a TypeError. */
  lemma WrittenMembersMissing(site: CallSite)
    ensures WrittenMember(site) !in ClientMembers
  {
  }

  /** The member each call site evidently means; the operations in `Push`
      and the servers' models use these. */
  function IntendedMember(site: CallSite): string
  {
    match site
    case Seeding => "addListener"
    case Registering => "on"
    case Unregistering => "removeListener"
    case Requesting => "emit"
    case RejectingClose => "_ws"
  }

  lemma IntendedMembersPresent(site: CallSite)
    ensures IntendedMember(site) in ClientMembers
  {
  }
}
