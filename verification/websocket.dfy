/** The package-level hub of `pkg/websocket.go`: keepalive constants,
    initialisation, lookup, and the registration of an accepted connection. */
module Websocket {
  import opened Wrappers
  import opened Models
  import opened Hub

  /** `time.Duration` counts nanoseconds. */
  const Second: nat := 1_000_000_000

  /** Largest inbound frame the reader accepts, in bytes. */
  const SocketMaxMessageSize: nat := 1024
  /** How long the reader waits for the peer's pong before giving up. */
  const SocketPingAckTimeout: nat := 30 * Second
  /** Deadline for each write. */
  const SocketWriteTimeout: nat := 10 * Second
  /** How often the writer pings: nine tenths of the pong deadline. */
  const SocketPingPeriod: nat := (SocketPingAckTimeout * 9) / 10

  /** A ping goes out strictly before the peer's answer to the previous one is due. */
  lemma KeepaliveMargin()
    ensures SocketPingPeriod == 27 * Second
    ensures SocketPingPeriod < SocketPingAckTimeout
    ensures SocketPingAckTimeout - SocketPingPeriod == 3 * Second
    ensures SocketWriteTimeout == 10 * Second
  {
  }

  /** The value of the package variable `core` once `InitCore` has run: an
      initialised hub with an empty registry and no clients yet. Starting the
      actor loop is left to `Hub.Run`. */
  function InitCore(): (r: Option<Core>)
    ensures r.Some? && r.value.initialized
    ensures Registry(r.value) == map[] && Active(r.value) == {}
  {
    Some(Core(true, map[]))
  }

  /** Reads the package variable. Before `InitCore` it is a nil pointer,
      whose dereference panics, hence the precondition. */
  function GetCore(global: Option<Core>): (r: Result<Core, Error>)
    requires global.Some?
    ensures r.Err? <==> !global.value.initialized
    ensures r.Err? ==> r.error == CoreUnavailable
    ensures r.Ok? ==> r.value == global.value
  {
    if !global.value.initialized then Err(CoreUnavailable) else Ok(global.value)
  }

  /** Builds a client for an accepted connection and hands back the Create
      request that will register it; the client itself is not registered
      here. `newId` is the identity of the newly allocated client. */
  function RegisterConnection(global: Option<Core>, newId: ClientId, token: string): (r: Result<(Core, Request), Error>)
    requires global.Some? && newId !in global.value.clients
    ensures r.Err? <==> !global.value.initialized
    ensures r.Err? ==> r.error == CoreNotInitialized
    ensures r.Ok? ==>
              var (next, req) := r.value;
              && req == Create(newId)
              && next.initialized
              && next.clients.Keys == global.value.clients.Keys + {newId}
              && (forall d :: d in global.value.clients ==> next.clients[d] == global.value.clients[d])
              && next.clients[newId].user.token == token
              && next.clients[newId].user.userId == ""
              && next.clients[newId].queue.sent == [] && !next.clients[newId].queue.closed
              && next.clients[newId].relays == 0
              && !Registered(next, newId)
  {
    var core := global.value;
    if !core.initialized then Err(CoreNotInitialized)
    else
      var client := Client(User("", token), Queue([], false), None, 0);
      Ok((core.(clients := core.clients[newId := client]), Create(newId)))
  }

  /** The package variable after `InitCore` is ready for use: `GetCore`
      hands back that very hub, the actor loop's invariant holds on it, a
      connection registered on it is accepted, and once its Create request is
      processed that client is the only active one. */
  lemma InitThenGet(newId: ClientId, token: string)
    ensures GetCore(InitCore()) == Ok(InitCore().value)
    ensures RegisteredOpen(InitCore().value)
    ensures RegisterConnection(InitCore(), newId, token).Ok?
    ensures var (next, req) := RegisterConnection(InitCore(), newId, token).value;
            RegisteredOpen(next) && Active(Step(next, req)) == {newId}
  {
    var init := InitCore();
    ConnectThenCreate(init, newId, token);
    var (next, req) := RegisterConnection(init, newId, token).value;
    var last := Step(next, req);
    assert Registry(last) == map[newId := true];
    forall d | IsActive(last, d)
      ensures d == newId
    {
      assert d in Registry(last);
    }
  }

  /** Registering a connection and processing its Create request leaves the
      new client active, and the first thing in its queue is its own connect
      event, which carries the empty user id since nothing ever sets one. */
  lemma ConnectThenCreate(global: Option<Core>, newId: ClientId, token: string)
    requires global.Some? && newId !in global.value.clients && global.value.initialized
    requires RegisteredOpen(global.value)
    ensures var (next, req) := RegisterConnection(global, newId, token).value;
            && RegisteredOpen(next)
            && IsActive(Step(next, req), newId)
            && Step(next, req).clients[newId].queue.sent
               == [SocketEvent(Tag(Connect), Some(ConnectionPayload(Some(""))))]
            && Registry(Step(next, req)) == Registry(global.value)[newId := true]
  {
    var (next, req) := RegisterConnection(global, newId, token).value;
    assert forall d :: Registered(next, d) ==> Registered(global.value, d);
    assert Registry(next) == Registry(global.value);
    RegisteredOpenIsActiveOpen(next);
    var r := HandleCreateUser(next, newId);
    assert Delivered(Register(next, newId), r, Active(next) + {newId}, LifecycleEvent(Connect, next.clients[newId].user));
  }
}
