/** The records of `pkg/models.go`: the wire envelope, its payloads, the
    per-connection client, the hub, and the trigger's change events. */
module Models {
  import opened Wrappers

  /** Identity of one `*SocketClient`; the Go registry is keyed by pointer. */
  type ClientId = nat

  /** The five `SocketEventType` constants. */
  datatype EventKind = Connect | Disconnect | Subscribe | Unsubscribe | SubscribeRespond

  /** The wire string of an event kind (the `payload_type` field). */
  function Tag(k: EventKind): string {
    match k
    case Connect => "connect"
    case Disconnect => "disconnect"
    case Subscribe => "subscribe"
    case Unsubscribe => "unsubscribe"
    case SubscribeRespond => "subscription:response"
  }

  /** Which constant, if any, a wire string is; the source's `switch` on the
      string type compares against exactly these five values. */
  function KindOf(tag: string): (r: Option<EventKind>)
    ensures r.Some? ==> Tag(r.value) == tag
    ensures r.None? ==> forall k :: Tag(k) != tag
  {
    if tag == "connect" then Some(Connect)
    else if tag == "disconnect" then Some(Disconnect)
    else if tag == "subscribe" then Some(Subscribe)
    else if tag == "unsubscribe" then Some(Unsubscribe)
    else if tag == "subscription:response" then Some(SubscribeRespond)
    else None
  }

  /** The wire strings of distinct kinds are distinct, so a tag names one kind. */
  lemma TagsDistinct(k1: EventKind, k2: EventKind)
    ensures Tag(k1) == Tag(k2) <==> k1 == k2
    ensures KindOf(Tag(k1)) == Some(k1)
  {
  }

  /** A column value of a changed row, kept as its JSON text. */
  datatype Value = Value(json: string)

  /** What the database trigger publishes: table, action and the row. */
  datatype TriggerPayload = TriggerPayload(table: string, action: string, data: map<string, Value>)

  /** A decoded notification; `tableName` is filled in by the listener. */
  datatype TriggerEvent = TriggerEvent(tableName: string, payload: TriggerPayload)

  /** The body of a `subscribe` request; `columns` is carried but never consulted. */
  datatype Subscription = Subscription(tableName: Option<string>, columns: seq<string>)

  /** The shapes an envelope's payload can take. `MismatchedPayload` stands for
      JSON whose fields cannot be decoded into the subscription shape (a
      `table_name` that is not a string, a top-level array or number, ...). */
  datatype Payload =
    | ConnectionPayload(userId: Option<string>)
    | SubscriptionPayload(subscription: Subscription)
    | UnsubscribePayload(tableName: Option<string>)
    | MessagePayload(message: string)
    | ChangePayload(change: TriggerPayload)
    | MismatchedPayload

  /** The wire envelope. The type is a free string: a client may send any tag. */
  datatype SocketEvent = SocketEvent(eventType: string, payload: Option<Payload>)

  /** What a frame that fails to decode leaves in the reader's local variable. */
  const ZeroEvent := SocketEvent("", None)

  datatype User = User(userId: string, token: string)

  /** A client's outbound channel: everything sent into it, in order, and
      whether it has been closed. */
  datatype Queue = Queue(sent: seq<SocketEvent>, closed: bool)

  /** One `SocketClient`. `entry` is this client's value in the hub's
      `Clients` map (None when the key is absent); `relays` counts the
      forwarding goroutines that successful subscriptions started for it. */
  datatype Client = Client(user: User, queue: Queue, entry: Option<bool>, relays: nat)

  /** The hub (`SocketCore`) together with every client object it can reach. */
  datatype Core = Core(initialized: bool, clients: map<ClientId, Client>)

  /** The registry holds `c` (whatever its flag). */
  predicate Registered(core: Core, c: ClientId) {
    c in core.clients && core.clients[c].entry.Some?
  }

  /** The registry holds `c` with its flag set: broadcasts reach it. */
  predicate IsActive(core: Core, c: ClientId) {
    c in core.clients && core.clients[c].entry == Some(true)
  }

  function Active(core: Core): (r: set<ClientId>)
    ensures forall c :: c in r <==> IsActive(core, c)
  {
    set c | c in core.clients && IsActive(core, c)
  }

  /** The Go map `Clients` as a value. */
  function Registry(core: Core): (r: map<ClientId, bool>)
    ensures forall c :: Registered(core, c) ==> c in r
    ensures forall c :: c in r ==> Registered(core, c) && r[c] == core.clients[c].entry.value
  {
    map c | c in core.clients && Registered(core, c) :: core.clients[c].entry.value
  }

  /** The errors the core returns. Those with a quoted message are errors the
      core makes itself; the others stand for a library's error, which the
      source passes on unchanged. */
  datatype Error =
    | NilPayload              // "payload cannot be nil"
    | InvalidPayload          // "invalid payload detected"
    | TableNameRequired       // "table name required for subscription payload"
    | PayloadUndecodable      // the JSON decoder's error, from the payload conversion
    | CoreNotInitialized      // "socket core was not initialized"
    | CoreUnavailable         // "unable to return uninitialized socket core"
    | TriggerNotInitialized   // "trigger must be initialized before registering"
    | ConnectionCloseFailed   // the connection's error from `Close`
    | ListenFailed            // the listener's error from `Listen`
    | NotificationUndecodable // the JSON decoder's error on a notification
}
