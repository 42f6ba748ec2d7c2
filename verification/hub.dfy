/** The hub of `pkg/core.go`: the enqueue primitives, client teardown, the
    Create/Destroy handlers run by the actor loop, envelope dispatch and the
    per-subscription relay. Channels are sequences (`Queue.sent`); the actor
    loop is a list of requests folded in order. */
module Hub {
  import opened Wrappers
  import opened Models

  /** Every client the registry flags active still has an open queue. A Go
      send into a closed channel panics, so broadcasting needs this. */
  predicate ActiveOpen(core: Core) {
    forall c :: c in core.clients && IsActive(core, c) ==> !core.clients[c].queue.closed
  }

  /** Every registered client has an open queue: the invariant the actor loop keeps. */
  predicate RegisteredOpen(core: Core) {
    forall c :: c in core.clients && Registered(core, c) ==> !core.clients[c].queue.closed
  }

  lemma RegisteredOpenIsActiveOpen(core: Core)
    requires RegisteredOpen(core)
    ensures ActiveOpen(core)
  {
  }

  /** `after` is `before` with `ev` appended to the queue of exactly the
      clients in `who`, and nothing else changed. */
  predicate Delivered(before: Core, after: Core, who: set<ClientId>, ev: SocketEvent) {
    && after.initialized == before.initialized
    && after.clients.Keys == before.clients.Keys
    && forall c :: c in before.clients ==>
         && after.clients[c].user == before.clients[c].user
         && after.clients[c].entry == before.clients[c].entry
         && after.clients[c].relays == before.clients[c].relays
         && after.clients[c].queue.closed == before.clients[c].queue.closed
         && after.clients[c].queue.sent == before.clients[c].queue.sent + (if c in who then [ev] else [])
  }

  /** A delivery changes only queue contents: the registry and the open
      queues stay as they were. */
  lemma DeliveredKeepsRegistry(before: Core, after: Core, who: set<ClientId>, ev: SocketEvent)
    requires Delivered(before, after, who, ev)
    ensures Registry(after) == Registry(before)
    ensures Active(after) == Active(before)
    ensures ActiveOpen(before) ==> ActiveOpen(after)
    ensures RegisteredOpen(before) ==> RegisteredOpen(after)
  {
    assert forall c :: Registered(after, c) <==> Registered(before, c);
    assert forall c :: IsActive(after, c) <==> IsActive(before, c);
  }

  function Push(cl: Client, ev: SocketEvent): Client {
    cl.(queue := cl.queue.(sent := cl.queue.sent + [ev]))
  }

  /** Sends `ev` to every client whose registry flag is set. The source's
      unused `current` argument is dropped. */
  function BroadcastAll(core: Core, ev: SocketEvent): (r: Result<Core, Error>)
    requires ev.payload.Some? ==> ActiveOpen(core)
    ensures r.Err? <==> ev.payload.None?
    ensures r.Err? ==> r.error == NilPayload
    ensures r.Ok? ==> Delivered(core, r.value, Active(core), ev)
  {
    if ev.payload.None? then Err(NilPayload)
    else
      Ok(core.(clients := map c | c in core.clients ::
        if IsActive(core, c) then Push(core.clients[c], ev) else core.clients[c]))
  }

  /** Sends `ev` to one client, registered or not. */
  function EmitToClient(core: Core, c: ClientId, ev: SocketEvent): (r: Result<Core, Error>)
    requires c in core.clients
    requires ev.payload.Some? ==> !core.clients[c].queue.closed
    ensures r.Err? <==> ev.payload.None?
    ensures r.Err? ==> r.error == NilPayload
    ensures r.Ok? ==> Delivered(core, r.value, {c}, ev)
  {
    if ev.payload.None? then Err(NilPayload)
    else Ok(core.(clients := core.clients[c := Push(core.clients[c], ev)]))
  }

  function Unregister(core: Core, c: ClientId): Core
    requires c in core.clients
  {
    core.(clients := core.clients[c := core.clients[c].(entry := None)])
  }

  /** Closes the client's queue, then its connection (whose outcome
      `closeFails` is supplied from outside); the registry entry is removed
      only when the connection closed cleanly. Closing a closed Go channel
      panics, hence the precondition. */
  function DestroyClient(core: Core, c: ClientId, closeFails: bool): (r: (Core, Option<Error>))
    requires c in core.clients
    requires !core.clients[c].queue.closed
    ensures r.0.initialized == core.initialized && r.0.clients.Keys == core.clients.Keys
    ensures r.0.clients[c].queue.closed && r.0.clients[c].queue.sent == core.clients[c].queue.sent
    ensures r.1.Some? <==> closeFails
    ensures closeFails ==> r.1 == Some(ConnectionCloseFailed) && r.0.clients[c].entry == core.clients[c].entry
    ensures !closeFails ==> !Registered(r.0, c)
    ensures r.0.clients[c].user == core.clients[c].user && r.0.clients[c].relays == core.clients[c].relays
    ensures forall d :: d in core.clients && d != c ==> r.0.clients[d] == core.clients[d]
  {
    var cl := core.clients[c];
    var closed := core.(clients := core.clients[c := cl.(queue := cl.queue.(closed := true))]);
    if closeFails then (closed, Some(ConnectionCloseFailed))
    else (Unregister(closed, c), None)
  }

  /** The presence event for `user`, as built by the Create and Destroy handlers. */
  function LifecycleEvent(kind: EventKind, user: User): SocketEvent {
    SocketEvent(Tag(kind), Some(ConnectionPayload(Some(user.userId))))
  }

  /** The registry after `Clients[client] = true`. */
  function Register(core: Core, c: ClientId): Core
    requires c in core.clients
  {
    core.(clients := core.clients[c := core.clients[c].(entry := Some(true))])
  }

  /** The client's state once teardown has completed: unregistered, queue closed. */
  function Retire(core: Core, c: ClientId): Core
    requires c in core.clients
  {
    var cl := core.clients[c];
    core.(clients := core.clients[c := cl.(entry := None, queue := cl.queue.(closed := true))])
  }

  /** The Create request: mark the client active, then broadcast its connect
      event, which therefore reaches the new client too. */
  function HandleCreateUser(core: Core, c: ClientId): (r: Core)
    requires c in core.clients
    requires ActiveOpen(core) && !core.clients[c].queue.closed
    ensures Registry(r) == Registry(core)[c := true]
    ensures Active(r) == Active(core) + {c}
    ensures Delivered(Register(core, c), r, Active(core) + {c}, LifecycleEvent(Connect, core.clients[c].user))
  {
    var registered := Register(core, c);
    assert Registry(registered) == Registry(core)[c := true];
    assert Active(registered) == Active(core) + {c};
    var ev := LifecycleEvent(Connect, core.clients[c].user);
    TagsDistinct(Connect, Connect);
    var r := ApplyEvent(registered, c, ev);
    DeliveredKeepsRegistry(registered, r, Active(registered), ev);
    r
  }

  /** The Destroy request. For a client absent from the registry nothing
      happens. Otherwise the disconnect event is broadcast while the client
      is still present, its queue is closed, and its entry is removed whether
      or not closing the connection failed. */
  function HandleDestroyUser(core: Core, c: ClientId, closeFails: bool): (r: Core)
    requires c in core.clients
    requires ActiveOpen(core)
    requires Registered(core, c) ==> !core.clients[c].queue.closed
    ensures !Registered(core, c) ==> r == core
    ensures !Registered(r, c)
    ensures Registered(core, c) ==> Registry(r) == Registry(core) - {c}
    ensures Registered(core, c) ==> Active(r) == Active(core) - {c}
    ensures Registered(core, c) ==>
              Delivered(Retire(core, c), r, Active(core), LifecycleEvent(Disconnect, core.clients[c].user))
  {
    if !Registered(core, c) then core
    else
      var ev := LifecycleEvent(Disconnect, core.clients[c].user);
      TagsDistinct(Disconnect, Disconnect);
      var told := ApplyEvent(core, c, ev);
      var r := Teardown(told, c, closeFails);
      RetireThenDeliver(core, told, r, c, ev);
      r
  }

  /** `DestroyClient` followed by the unconditional removal of the entry:
      the client ends unregistered with its queue closed, whether or not
      closing the connection failed. */
  function Teardown(core: Core, c: ClientId, closeFails: bool): (r: Core)
    requires c in core.clients && !core.clients[c].queue.closed
    ensures r == Retire(core, c)
  {
    var r := Unregister(DestroyClient(core, c, closeFails).0, c);
    assert r.clients == Retire(core, c).clients;
    r
  }

  /** Tearing down `c` after a delivery is the delivery after the teardown. */
  lemma RetireThenDeliver(core: Core, told: Core, r: Core, c: ClientId, ev: SocketEvent)
    requires c in core.clients && Delivered(core, told, Active(core), ev)
    requires r == Retire(told, c)
    ensures Delivered(Retire(core, c), r, Active(core), ev)
    ensures Registry(r) == Registry(core) - {c}
    ensures Active(r) == Active(core) - {c}
  {
    RetireDelivers(core, told, r, c, ev);
    RetireRegistry(core, told, r, c, ev);
  }

  lemma RetireDelivers(core: Core, told: Core, r: Core, c: ClientId, ev: SocketEvent)
    requires c in core.clients && Delivered(core, told, Active(core), ev)
    requires r == Retire(told, c)
    ensures Delivered(Retire(core, c), r, Active(core), ev)
  {
    var retired := Retire(core, c);
    forall d | d in retired.clients
      ensures r.clients[d].queue.sent == retired.clients[d].queue.sent + (if d in Active(core) then [ev] else [])
      ensures r.clients[d].queue.closed == retired.clients[d].queue.closed
      ensures r.clients[d].entry == retired.clients[d].entry
      ensures r.clients[d].user == retired.clients[d].user && r.clients[d].relays == retired.clients[d].relays
    {
      if d == c {
        assert told.clients[c].queue.sent == core.clients[c].queue.sent + (if c in Active(core) then [ev] else []);
      }
    }
  }

  lemma RetireRegistry(core: Core, told: Core, r: Core, c: ClientId, ev: SocketEvent)
    requires c in core.clients && Delivered(core, told, Active(core), ev)
    requires r == Retire(told, c)
    ensures Registry(r) == Registry(core) - {c}
    ensures Active(r) == Active(core) - {c}
  {
    DeliveredKeepsRegistry(core, told, Active(core), ev);
    RetiredEntries(told, c);
    RetiredActive(told, c);
  }

  lemma RetiredEntries(core: Core, c: ClientId)
    requires c in core.clients
    ensures Registry(Retire(core, c)) == Registry(core) - {c}
  {
    var r := Retire(core, c);
    assert forall d :: Registered(r, d) <==> Registered(core, d) && d != c;
  }

  lemma RetiredActive(core: Core, c: ClientId)
    requires c in core.clients
    ensures Active(Retire(core, c)) == Active(core) - {c}
  {
    var r := Retire(core, c);
    assert forall d :: IsActive(r, d) <==> IsActive(core, d) && d != c;
  }

  /** The confirmation sent to a subscriber. */
  function Confirmation(table: string): SocketEvent {
    SocketEvent(Tag(SubscribeRespond), Some(MessagePayload("You successfully subscribed to table " + table)))
  }

  /** The state once a subscription's listener and relay goroutines are running. */
  function StartRelay(core: Core, c: ClientId): Core
    requires c in core.clients
  {
    core.(clients := core.clients[c := core.clients[c].(relays := core.clients[c].relays + 1)])
  }

  /** Decoding a payload into the subscription shape by a JSON round trip:
      fields the shape lacks are ignored and missing ones stay empty, so any
      payload but a mismatched one decodes, and only a `table_name` field
      supplies a table. A nil payload decodes as the empty subscription. */
  function AsSubscription(p: Option<Payload>): (r: Result<Subscription, Error>)
    ensures r.Err? <==> p == Some(MismatchedPayload)
    ensures r.Err? ==> r.error == PayloadUndecodable
    ensures p.Some? && p.value.SubscriptionPayload? ==> r == Ok(p.value.subscription)
    ensures r.Ok? && r.value.tableName.Some? ==>
              p.Some? && (p.value.SubscriptionPayload? || p.value.UnsubscribePayload?)
  {
    match p
    case None => Ok(Subscription(None, []))
    case Some(SubscriptionPayload(s)) => Ok(s)
    case Some(UnsubscribePayload(t)) => Ok(Subscription(t, []))
    case Some(MismatchedPayload) => Err(PayloadUndecodable)
    case Some(_) => Ok(Subscription(None, []))
  }

  /** The table a subscribe envelope asks for, when its payload names one. */
  function RequestedTable(ev: SocketEvent): Option<string> {
    match AsSubscription(ev.payload)
    case Ok(s) => s.tableName
    case Err(_) => None
  }

  /** Dispatch on the envelope's type. Presence events are broadcast; a
      subscribe with a table starts a relay and confirms to the sender only;
      every other tag, `unsubscribe` and the empty tag included, is refused.
      An error leaves the state as it was. */
  function HandleEvent(core: Core, c: ClientId, ev: SocketEvent): (r: Result<Core, Error>)
    requires c in core.clients
    requires KindOf(ev.eventType) in {Some(Connect), Some(Disconnect)} ==> ActiveOpen(core)
    requires KindOf(ev.eventType) == Some(Subscribe) ==> !core.clients[c].queue.closed
    ensures KindOf(ev.eventType) !in {Some(Connect), Some(Disconnect), Some(Subscribe)} ==>
              r == Err(InvalidPayload)
    ensures KindOf(ev.eventType) in {Some(Connect), Some(Disconnect)} ==>
              && (r.Err? <==> ev.payload.None?)
              && (r.Err? ==> r.error == NilPayload)
              && (r.Ok? ==> Delivered(core, r.value, Active(core), ev))
    ensures KindOf(ev.eventType) == Some(Subscribe) ==>
              && (r.Ok? <==> RequestedTable(ev).Some?)
              && (ev.payload == Some(MismatchedPayload) ==> r == Err(PayloadUndecodable))
              && (ev.payload != Some(MismatchedPayload) && RequestedTable(ev).None? ==>
                    r == Err(TableNameRequired))
              && (r.Ok? ==>
                    Delivered(StartRelay(core, c), r.value, {c}, Confirmation(RequestedTable(ev).value)))
  {
    match KindOf(ev.eventType)
    case Some(Connect) => BroadcastAll(core, ev)
    case Some(Disconnect) => BroadcastAll(core, ev)
    case Some(Subscribe) =>
      (match AsSubscription(ev.payload)
       case Err(e) => Err(e)
       case Ok(sub) =>
         if sub.tableName.None? then Err(TableNameRequired)
         else
           match EmitToClient(StartRelay(core, c), c, Confirmation(sub.tableName.value))
           case Err(e) => Err(e)
           case Ok(next) => Ok(next))
    case _ => Err(InvalidPayload)
  }

  lemma StartRelayKeepsRegistry(core: Core, c: ClientId)
    requires c in core.clients
    ensures Registry(StartRelay(core, c)) == Registry(core)
    ensures forall d :: d in core.clients ==>
              StartRelay(core, c).clients[d].queue == core.clients[d].queue
              && StartRelay(core, c).clients[d].user == core.clients[d].user
  {
    assert forall d :: Registered(StartRelay(core, c), d) <==> Registered(core, d);
  }

  /** What a caller that only logs the handler's error is left with. */
  function ApplyEvent(core: Core, c: ClientId, ev: SocketEvent): (r: Core)
    requires c in core.clients
    requires KindOf(ev.eventType) in {Some(Connect), Some(Disconnect)} ==> ActiveOpen(core)
    requires KindOf(ev.eventType) == Some(Subscribe) ==> !core.clients[c].queue.closed
    ensures r.clients.Keys == core.clients.Keys && r.initialized == core.initialized
    ensures Registry(r) == Registry(core)
    ensures forall d :: d in core.clients ==>
              && r.clients[d].queue.closed == core.clients[d].queue.closed
              && r.clients[d].user == core.clients[d].user
    ensures KindOf(ev.eventType) in {Some(Connect), Some(Disconnect)} ==>
              Delivered(core, r, if ev.payload.Some? then Active(core) else {}, ev)
  {
    match HandleEvent(core, c, ev)
    case Ok(next) =>
      if KindOf(ev.eventType) == Some(Subscribe) then
        SubscribeKeeps(core, c, RequestedTable(ev).value, next);
        next
      else
        DeliveredKeepsShape(core, next, Active(core), ev);
        next
    case Err(_) => core
  }

  /** A delivery leaves every key, the registry, every queue's closed flag
      and every user as they were. */
  lemma DeliveredKeepsShape(before: Core, after: Core, who: set<ClientId>, ev: SocketEvent)
    requires Delivered(before, after, who, ev)
    ensures after.clients.Keys == before.clients.Keys && after.initialized == before.initialized
    ensures Registry(after) == Registry(before)
    ensures forall d :: d in before.clients ==>
              && after.clients[d].queue.closed == before.clients[d].queue.closed
              && after.clients[d].user == before.clients[d].user
  {
    DeliveredKeepsRegistry(before, after, who, ev);
  }

  /** Starting a relay and confirming to the subscriber keeps the same shape. */
  lemma SubscribeKeeps(core: Core, c: ClientId, table: string, next: Core)
    requires c in core.clients
    requires Delivered(StartRelay(core, c), next, {c}, Confirmation(table))
    ensures next.clients.Keys == core.clients.Keys && next.initialized == core.initialized
    ensures Registry(next) == Registry(core)
    ensures forall d :: d in core.clients ==>
              && next.clients[d].queue.closed == core.clients[d].queue.closed
              && next.clients[d].user == core.clients[d].user
  {
    DeliveredKeepsShape(StartRelay(core, c), next, {c}, Confirmation(table));
    StartRelayKeepsRegistry(core, c);
  }

  /** A second Destroy request for the same client changes nothing: no
      broadcast, no second close of its queue. */
  lemma DestroyIdempotent(core: Core, c: ClientId, closeFails: bool, again: bool)
    requires c in core.clients && ActiveOpen(core)
    requires Registered(core, c) ==> !core.clients[c].queue.closed
    ensures ActiveOpen(HandleDestroyUser(core, c, closeFails))
    ensures HandleDestroyUser(HandleDestroyUser(core, c, closeFails), c, again)
            == HandleDestroyUser(core, c, closeFails)
  {
    var once := HandleDestroyUser(core, c, closeFails);
    if Registered(core, c) {
      var ev := LifecycleEvent(Disconnect, core.clients[c].user);
      assert Delivered(Retire(core, c), once, Active(core), ev);
      forall d | d in once.clients && IsActive(once, d)
        ensures !once.clients[d].queue.closed
      {
        assert d in Active(once);
      }
    }
  }

  /** The hub state after a Destroy request does not depend on whether the
      connection closed cleanly. */
  lemma DestroyIgnoresCloseFailure(core: Core, c: ClientId)
    requires c in core.clients && ActiveOpen(core)
    requires Registered(core, c) ==> !core.clients[c].queue.closed
    ensures HandleDestroyUser(core, c, true) == HandleDestroyUser(core, c, false)
  {
  }

  /** A request to the actor loop. `closeFails` is the outcome closing the
      connection will have, an I/O result supplied from outside. */
  datatype Request = Create(client: ClientId) | Destroy(client: ClientId, closeFails: bool)

  /** One iteration of the actor loop. */
  function Step(core: Core, req: Request): (r: Core)
    requires RegisteredOpen(core) && req.client in core.clients
    requires req.Create? ==> !core.clients[req.client].queue.closed
    ensures RegisteredOpen(r)
    ensures r.clients.Keys == core.clients.Keys
    ensures Registered(r, req.client) <==> req.Create?
    ensures req.Destroy? && Registered(core, req.client) ==> r.clients[req.client].queue.closed
    ensures req.Destroy? && !Registered(core, req.client) ==> r == core
    ensures forall d :: d in core.clients && d != req.client ==> r.clients[d].entry == core.clients[d].entry
    ensures forall d :: d in core.clients && (req.Create? || d != req.client) ==>
              r.clients[d].queue.closed == core.clients[d].queue.closed
  {
    RegisteredOpenIsActiveOpen(core);
    match req
    case Create(c) => CreateStep(core, c); HandleCreateUser(core, c)
    case Destroy(c, f) => DestroyStep(core, c, f); HandleDestroyUser(core, c, f)
  }

  lemma CreateStep(core: Core, c: ClientId)
    requires RegisteredOpen(core) && c in core.clients && !core.clients[c].queue.closed
    ensures ActiveOpen(core)
    ensures var r := HandleCreateUser(core, c);
            && RegisteredOpen(r) && r.clients.Keys == core.clients.Keys && Registered(r, c)
            && (forall d :: d in core.clients && d != c ==> r.clients[d].entry == core.clients[d].entry)
            && (forall d :: d in core.clients ==> r.clients[d].queue.closed == core.clients[d].queue.closed)
  {
    var r := HandleCreateUser(core, c);
    var registered := Register(core, c);
    assert Delivered(registered, r, Active(core) + {c}, LifecycleEvent(Connect, core.clients[c].user));
    forall d | d in core.clients
      ensures r.clients[d].queue.closed == core.clients[d].queue.closed
      ensures d != c ==> r.clients[d].entry == core.clients[d].entry
    {
      assert registered.clients[d].queue == core.clients[d].queue;
    }
    assert RegisteredOpen(r) by {
      forall d | d in r.clients && Registered(r, d)
        ensures !r.clients[d].queue.closed
      {
        if d != c {
          assert Registered(core, d);
        }
      }
    }
  }

  lemma DestroyStep(core: Core, c: ClientId, f: bool)
    requires RegisteredOpen(core) && c in core.clients
    ensures ActiveOpen(core)
    ensures var r := HandleDestroyUser(core, c, f);
            && RegisteredOpen(r) && r.clients.Keys == core.clients.Keys && !Registered(r, c)
            && (Registered(core, c) ==> r.clients[c].queue.closed)
            && (forall d :: d in core.clients && d != c ==> r.clients[d].entry == core.clients[d].entry)
            && (forall d :: d in core.clients && d != c ==> r.clients[d].queue.closed == core.clients[d].queue.closed)
  {
    RegisteredOpenIsActiveOpen(core);
    var r := HandleDestroyUser(core, c, f);
    DestroyKeepsOthers(core, c, f);
    if Registered(core, c) {
      DestroyClosesQueue(core, c, f);
    }
    assert RegisteredOpen(r) by {
      forall d | d in r.clients && Registered(r, d)
        ensures !r.clients[d].queue.closed
      {
        assert d != c;
      }
    }
  }

  lemma DestroyClosesQueue(core: Core, c: ClientId, f: bool)
    requires ActiveOpen(core) && Registered(core, c) && !core.clients[c].queue.closed
    ensures HandleDestroyUser(core, c, f).clients[c].queue.closed
  {
    var r := HandleDestroyUser(core, c, f);
    assert Delivered(Retire(core, c), r, Active(core), LifecycleEvent(Disconnect, core.clients[c].user));
  }

  lemma DestroyKeepsOthers(core: Core, c: ClientId, f: bool)
    requires c in core.clients && ActiveOpen(core)
    requires Registered(core, c) ==> !core.clients[c].queue.closed
    ensures var r := HandleDestroyUser(core, c, f);
            forall d :: d in core.clients && d != c ==>
              r.clients[d].entry == core.clients[d].entry
              && r.clients[d].queue.closed == core.clients[d].queue.closed
  {
    var r := HandleDestroyUser(core, c, f);
    if Registered(core, c) {
      var retired := Retire(core, c);
      assert Delivered(retired, r, Active(core), LifecycleEvent(Disconnect, core.clients[c].user));
      forall d | d in core.clients && d != c
        ensures r.clients[d].entry == core.clients[d].entry
        ensures r.clients[d].queue.closed == core.clients[d].queue.closed
      {
        assert retired.clients[d] == core.clients[d];
      }
    }
  }

  /** Every request names an allocated client. */
  predicate Allocated(core: Core, reqs: seq<Request>) {
    forall i :: 0 <= i < |reqs| ==> reqs[i].client in core.clients
  }

  /** What `RegisterConnection` guarantees about the requests reaching the
      loop: each Create names a client made for that connection, so it is not
      yet registered, its queue is open, and no other Create names it. The
      order of a client's Create and Destroy is NOT guaranteed: the reader
      goroutine starts before the Create is sent (pkg/websocket.go:37-40), so
      its Destroy may arrive first. */
  predicate CreatesFresh(core: Core, reqs: seq<Request>) {
    && Allocated(core, reqs)
    && (forall i :: 0 <= i < |reqs| && reqs[i].Create? ==>
          !Registered(core, reqs[i].client) && !core.clients[reqs[i].client].queue.closed)
    && (forall i, j :: 0 <= j < i < |reqs| && reqs[i].Create? && reqs[j].Create? ==>
          reqs[j].client != reqs[i].client)
  }

  /** The actor loop over a finite list of requests, processed one at a time
      in order. Its precondition rules out every Go panic on the way. */
  function Run(core: Core, reqs: seq<Request>): (r: Core)
    requires RegisteredOpen(core) && CreatesFresh(core, reqs)
    ensures RegisteredOpen(r)
    ensures r.clients.Keys == core.clients.Keys
    decreases |reqs|
  {
    if |reqs| == 0 then core
    else
      var next := Step(core, reqs[0]);
      FreshAfterStep(core, reqs);
      Run(next, reqs[1..])
  }

  lemma FreshAfterStep(core: Core, reqs: seq<Request>)
    requires RegisteredOpen(core) && CreatesFresh(core, reqs) && |reqs| > 0
    ensures CreatesFresh(Step(core, reqs[0]), reqs[1..])
  {
    var next := Step(core, reqs[0]);
    var rest := reqs[1..];
    forall i | 0 <= i < |rest| && rest[i].Create?
      ensures !Registered(next, rest[i].client) && !next.clients[rest[i].client].queue.closed
    {
      assert rest[i] == reqs[i + 1];
      if reqs[0].Create? {
        assert reqs[0].client != rest[i].client;
      }
    }
  }

  /** The last request in `reqs` that names `c`. */
  function LastMention(reqs: seq<Request>, c: ClientId): Option<Request>
    decreases |reqs|
  {
    if |reqs| == 0 then None
    else
      match LastMention(reqs[1..], c)
      case Some(req) => Some(req)
      case None => if reqs[0].client == c then Some(reqs[0]) else None
  }

  /** After the loop a client is registered exactly when the last request
      naming it was a Create, or, if none named it, when it was registered
      before. */
  lemma {:induction false} RunRegistry(core: Core, reqs: seq<Request>, c: ClientId)
    requires RegisteredOpen(core) && CreatesFresh(core, reqs) && c in core.clients
    ensures Registered(Run(core, reqs), c) <==>
              match LastMention(reqs, c)
              case Some(req) => req.Create?
              case None => Registered(core, c)
    decreases |reqs|
  {
    if |reqs| > 0 {
      var next := Step(core, reqs[0]);
      FreshAfterStep(core, reqs);
      RunRegistry(next, reqs[1..], c);
    }
  }

  /** A reader that fails at once sends its Destroy before its connection's
      Create reaches the loop. The Destroy finds nothing registered and is
      dropped; the Create then registers the client for good, although its
      reader has exited and nothing will request its teardown again. */
  lemma StaleRegistration(core: Core, c: ClientId, closeFails: bool)
    requires RegisteredOpen(core) && c in core.clients
    requires !Registered(core, c) && !core.clients[c].queue.closed
    ensures CreatesFresh(core, [Destroy(c, closeFails), Create(c)])
    ensures IsActive(Run(core, [Destroy(c, closeFails), Create(c)]), c)
  {
    var reqs := [Destroy(c, closeFails), Create(c)];
    var next := Step(core, reqs[0]);
    FreshAfterStep(core, reqs);
    assert reqs[1..] == [Create(c)];
    var last := Step(next, Create(c));
    assert Run(next, [Create(c)]) == Run(last, []);
    CreateStep(next, c);
    assert Delivered(Register(next, c), last, Active(next) + {c}, LifecycleEvent(Connect, next.clients[c].user));
  }

  /** One iteration of the loop as evidently intended: a Destroy of a client
      not yet registered still ends its session (its queue is closed), and a
      Create of a client whose session has ended is dropped. */
  function StepGuarded(core: Core, req: Request): (r: Core)
    requires RegisteredOpen(core) && req.client in core.clients
    ensures RegisteredOpen(r)
    ensures r.clients.Keys == core.clients.Keys
    ensures Registered(r, req.client) <==> req.Create? && !core.clients[req.client].queue.closed
    ensures req.Destroy? ==> r.clients[req.client].queue.closed
    ensures forall d :: d in core.clients && d != req.client ==>
              r.clients[d].entry == core.clients[d].entry
              && r.clients[d].queue.closed == core.clients[d].queue.closed
  {
    var c := req.client;
    if core.clients[c].queue.closed then
      core
    else if req.Destroy? && !Registered(core, c) then
      Retire(core, c)
    else
      Step(core, req)
  }

  /** The corrected loop: no ordering of a client's requests can make it
      panic, so it needs no precondition on the schedule. */
  function RunGuarded(core: Core, reqs: seq<Request>): (r: Core)
    requires RegisteredOpen(core) && Allocated(core, reqs)
    ensures RegisteredOpen(r)
    ensures r.clients.Keys == core.clients.Keys
    decreases |reqs|
  {
    if |reqs| == 0 then core
    else
      var next := StepGuarded(core, reqs[0]);
      assert forall i :: 0 <= i < |reqs| - 1 ==> reqs[1..][i] == reqs[i + 1];
      RunGuarded(next, reqs[1..])
  }

  /** Some request in `reqs` is a Destroy of `c`. */
  predicate DestroyNamed(reqs: seq<Request>, c: ClientId) {
    exists f :: Destroy(c, f) in reqs
  }

  lemma NamedSplit(reqs: seq<Request>, c: ClientId)
    requires |reqs| > 0
    ensures DestroyNamed(reqs, c) <==> (reqs[0].Destroy? && reqs[0].client == c) || DestroyNamed(reqs[1..], c)
    ensures Create(c) in reqs <==> reqs[0] == Create(c) || Create(c) in reqs[1..]
  {
    assert reqs == [reqs[0]] + reqs[1..];
    if DestroyNamed(reqs, c) && !(reqs[0].Destroy? && reqs[0].client == c) {
      var f :| Destroy(c, f) in reqs;
      assert Destroy(c, f) in reqs[1..];
    }
  }

  /** With the guard, any client a Destroy names ends unregistered, whatever
      the order of its requests; the others are registered exactly when they
      were before or a Create for an open session named them. */
  lemma {:induction false} NoStaleRegistration(core: Core, reqs: seq<Request>, c: ClientId)
    requires RegisteredOpen(core) && Allocated(core, reqs) && c in core.clients
    ensures Registered(RunGuarded(core, reqs), c) <==>
              && !DestroyNamed(reqs, c)
              && (Registered(core, c) || (Create(c) in reqs && !core.clients[c].queue.closed))
    decreases |reqs|
  {
    if |reqs| > 0 {
      var next := StepGuarded(core, reqs[0]);
      var rest := reqs[1..];
      assert Allocated(next, rest) by {
        forall i | 0 <= i < |rest|
          ensures rest[i].client in next.clients
        {
          assert rest[i] == reqs[i + 1];
        }
      }
      assert RunGuarded(core, reqs) == RunGuarded(next, rest);
      NoStaleRegistration(next, rest, c);
      NamedSplit(reqs, c);
    }
  }

  /** The envelope a relay wraps a trigger event in. */
  function Wrap(te: TriggerEvent): SocketEvent {
    SocketEvent(Tag(SubscribeRespond), Some(ChangePayload(te.payload)))
  }

  /** What one relay goroutine does with one trigger event, as written: it
      sends to the client whatever became of the session, so a send after
      teardown hits a closed channel and panics. */
  datatype RelayOutcome = Forwarded(core: Core) | SendOnClosedPanic

  function RelayAsWritten(core: Core, c: ClientId, te: TriggerEvent): (r: RelayOutcome)
    requires c in core.clients && core.clients[c].relays > 0
    ensures r.SendOnClosedPanic? <==> core.clients[c].queue.closed
    ensures r.Forwarded? ==> Delivered(core, r.core, {c}, Wrap(te))
  {
    if core.clients[c].queue.closed then SendOnClosedPanic
    else
      match EmitToClient(core, c, Wrap(te))
      case Ok(next) => Forwarded(next)
      case Err(_) => Forwarded(core)
  }

  /** The relay as evidently intended: it forwards while the session's queue
      is open and drops the event once the session has been torn down. */
  function Relay(core: Core, c: ClientId, te: TriggerEvent): (r: Core)
    requires c in core.clients && core.clients[c].relays > 0
    ensures core.clients[c].queue.closed ==> r == core
    ensures !core.clients[c].queue.closed ==> Delivered(core, r, {c}, Wrap(te))
  {
    match RelayAsWritten(core, c, te)
    case Forwarded(next) => next
    case SendOnClosedPanic => core
  }

  /** The relay never consults the event's table name nor the subscribed
      table: two events with the same payload are forwarded alike. */
  lemma RelayIgnoresTable(core: Core, c: ClientId, te1: TriggerEvent, te2: TriggerEvent)
    requires c in core.clients && core.clients[c].relays > 0
    requires te1.payload == te2.payload
    ensures Relay(core, c, te1) == Relay(core, c, te2)
  {
  }

  /** One relayed event touches nothing but the subscriber's queue contents. */
  lemma RelayKeepsRest(core: Core, c: ClientId, te: TriggerEvent)
    requires c in core.clients && core.clients[c].relays > 0
    ensures var r := Relay(core, c, te);
            && r.initialized == core.initialized && r.clients.Keys == core.clients.Keys
            && (forall d :: d in core.clients && d != c ==> r.clients[d] == core.clients[d])
            && r.clients[c].entry == core.clients[c].entry && r.clients[c].user == core.clients[c].user
            && r.clients[c].relays == core.clients[c].relays
  {
    var r := Relay(core, c, te);
    if !core.clients[c].queue.closed {
      assert Delivered(core, r, {c}, Wrap(te));
      forall d | d in core.clients && d != c
        ensures r.clients[d] == core.clients[d]
      {
        assert r.clients[d].queue == core.clients[d].queue;
      }
    }
  }

  /** The wrappings of a run of trigger events, in order. */
  function Wrapped(tes: seq<TriggerEvent>): (r: seq<SocketEvent>)
    ensures |r| == |tes|
    ensures forall i :: 0 <= i < |tes| ==> r[i] == Wrap(tes[i])
    decreases |tes|
  {
    if |tes| == 0 then [] else [Wrap(tes[0])] + Wrapped(tes[1..])
  }

  /** `after` is `before` with the wrappings of `tes` appended to `c`'s
      queue if that queue is open, and nothing else changed. */
  predicate RelayedRun(before: Core, after: Core, c: ClientId, tes: seq<TriggerEvent>) {
    && c in before.clients
    && after.initialized == before.initialized && after.clients.Keys == before.clients.Keys
    && (forall d :: d in before.clients && d != c ==> after.clients[d] == before.clients[d])
    && after.clients[c].entry == before.clients[c].entry && after.clients[c].user == before.clients[c].user
    && after.clients[c].relays == before.clients[c].relays
    && after.clients[c].queue.closed == before.clients[c].queue.closed
    && after.clients[c].queue.sent
       == before.clients[c].queue.sent + (if before.clients[c].queue.closed then [] else Wrapped(tes))
  }

  /** One relayed event followed by a relayed run is a relayed run. */
  lemma RelayedRunStep(core: Core, c: ClientId, tes: seq<TriggerEvent>, rest: Core)
    requires c in core.clients && core.clients[c].relays > 0 && |tes| > 0
    requires RelayedRun(Relay(core, c, tes[0]), rest, c, tes[1..])
    ensures RelayedRun(core, rest, c, tes)
  {
    var next := Relay(core, c, tes[0]);
    RelayKeepsRest(core, c, tes[0]);
    if !core.clients[c].queue.closed {
      assert next.clients[c].queue.sent == core.clients[c].queue.sent + [Wrap(tes[0])];
      assert Wrapped(tes) == [Wrap(tes[0])] + Wrapped(tes[1..]);
    }
  }

  /** Forwarding a run of trigger events through one relay: the subscriber's
      queue gains their wrappings in order, and nothing else changes. */
  function RelayAll(core: Core, c: ClientId, tes: seq<TriggerEvent>): (r: Core)
    requires c in core.clients && core.clients[c].relays > 0
    ensures r.initialized == core.initialized && r.clients.Keys == core.clients.Keys
    ensures forall d :: d in core.clients && d != c ==> r.clients[d] == core.clients[d]
    ensures r.clients[c].entry == core.clients[c].entry && r.clients[c].user == core.clients[c].user
    ensures r.clients[c].relays == core.clients[c].relays
    ensures r.clients[c].queue.closed == core.clients[c].queue.closed
    ensures !core.clients[c].queue.closed ==>
              r.clients[c].queue.sent == core.clients[c].queue.sent + Wrapped(tes)
    ensures core.clients[c].queue.closed ==> r == core
    decreases |tes|
  {
    if |tes| == 0 then
      assert RelayedRun(core, core, c, tes);
      core
    else
      var next := Relay(core, c, tes[0]);
      RelayKeepsRest(core, c, tes[0]);
      var rest := RelayAll(next, c, tes[1..]);
      RelayedRunStep(core, c, tes, rest);
      RelayedRunIsFrame(core, rest, c, tes);
      rest
  }

  lemma RelayedRunIsFrame(before: Core, after: Core, c: ClientId, tes: seq<TriggerEvent>)
    requires RelayedRun(before, after, c, tes)
    ensures before.clients[c].queue.closed ==> after == before
  {
    if before.clients[c].queue.closed {
      assert after.clients[c] == before.clients[c];
      assert after.clients == before.clients;
    }
  }

  /** The defect: a client that subscribed and then disconnected still has a
      relay, and the next trigger event makes it send on the closed queue. */
  lemma RelayOutlivesSession(te: TriggerEvent)
    ensures var s0 := Core(true, map[0 := Client(User("", "token"), Queue([], false), None, 0)]);
            var s1 := Step(s0, Create(0));
            var s2 := ApplyEvent(s1, 0, SocketEvent(Tag(Subscribe), Some(SubscriptionPayload(Subscription(Some("users"), [])))));
            var s3 := Step(s2, Destroy(0, false));
            && s3.clients[0].relays == 1
            && RelayAsWritten(s3, 0, te) == SendOnClosedPanic
  {
    var s0 := Core(true, map[0 := Client(User("", "token"), Queue([], false), None, 0)]);
    var s1 := Step(s0, Create(0));
    assert s1.clients[0].relays == 0 by {
      assert Delivered(Register(s0, 0), s1, Active(s0) + {0}, LifecycleEvent(Connect, s0.clients[0].user));
    }
    var ev := SocketEvent(Tag(Subscribe), Some(SubscriptionPayload(Subscription(Some("users"), []))));
    assert KindOf(ev.eventType) == Some(Subscribe);
    assert RequestedTable(ev) == Some("users");
    var s2 := ApplyEvent(s1, 0, ev);
    assert s2.clients[0].relays == 1 by {
      var h := HandleEvent(s1, 0, ev);
      assert h.Ok? && s2 == h.value;
      assert Delivered(StartRelay(s1, 0), h.value, {0}, Confirmation("users"));
    }
    var s3 := Step(s2, Destroy(0, false));
    assert Registered(s2, 0);
    assert s3.clients[0].relays == 1 && s3.clients[0].queue.closed by {
      assert Delivered(Retire(s2, 0), s3, Active(s2), LifecycleEvent(Disconnect, s2.clients[0].user));
    }
  }
}
