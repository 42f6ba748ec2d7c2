/** The pure decisions of `pkg/triggers.go`: the origin allow-list, the
    "trigger must be initialized" guards, which SQL statements are issued,
    what the generated trigger function publishes, and how the listener turns
    notifications into trigger events. SQL execution and the notification
    connection are outside the model: their results are inputs. */
module Triggers {
  import opened Wrappers
  import opened Models
  import opened Hub

  /** A `Trigger`. Name and channel are nil-able pointers; `connected` says
      whether the database handle is present. */
  datatype Trigger = Trigger(
    name: Option<string>,
    channel: Option<string>,
    connected: bool,
    dsn: string,
    allowExternalListen: bool)

  /** Channel, name and database handle are all present. */
  predicate Ready(t: Trigger) {
    t.channel.Some? && t.name.Some? && t.connected
  }

  /** The SQL statements the trigger issues, by what they do. */
  datatype Statement =
    | CreateNotifyFunction(functionName: string, channel: string)
    | LookupTriggerDecl(table: string)
    | CreateRowTrigger(table: string, functionName: string)

  /** Installs the notify function named after the trigger, publishing on its channel. */
  function Create(t: Trigger): (r: Result<Statement, Error>)
    ensures r.Err? <==> !Ready(t)
    ensures r.Err? ==> r.error == TriggerNotInitialized
    ensures r.Ok? ==> r.value.CreateNotifyFunction?
                      && Some(r.value.functionName) == t.name && Some(r.value.channel) == t.channel
  {
    if !Ready(t) then Err(TriggerNotInitialized)
    else Ok(CreateNotifyFunction(t.name.value, t.channel.value))
  }

  /** Attaches the notify function to `table`. The lookup's answer, the
      `trigger_decl` column of its first row, is supplied as `decl` (None
      when there is no such column). The row trigger is created only when
      no declaration came back or it is empty. */
  function RegisterTable(t: Trigger, table: string, decl: Option<string>): (r: Result<seq<Statement>, Error>)
    ensures r.Err? <==> !Ready(t)
    ensures r.Err? ==> r.error == TriggerNotInitialized
    ensures r.Ok? ==> 1 <= |r.value| <= 2 && r.value[0] == LookupTriggerDecl(table)
    ensures r.Ok? ==> (|r.value| == 2 <==> decl.None? || decl == Some(""))
    ensures r.Ok? && |r.value| == 2 ==> r.value[1] == CreateRowTrigger(table, t.name.value)
  {
    if !Ready(t) then Err(TriggerNotInitialized)
    else
      var lookup := [LookupTriggerDecl(table)];
      match decl
      case Some(d) => if d == "" then Ok(lookup + [CreateRowTrigger(table, t.name.value)]) else Ok(lookup)
      case None => Ok(lookup + [CreateRowTrigger(table, t.name.value)])
  }

  /** The statements fit together: `Create` and `RegisterTable` accept the
      same triggers; the row trigger runs the very function `Create`
      installs; that function publishes on the channel `Listen` subscribes
      to; and the listener tags every event with the function's name. */
  lemma InstalledFunctionFeedsListener(t: Trigger, table: string, decl: Option<string>, notes: seq<Notification>)
    ensures RegisterTable(t, table, decl).Ok? <==> Create(t).Ok?
    ensures Create(t).Ok? && decl.None? ==>
              RegisterTable(t, table, decl).value
              == [LookupTriggerDecl(table), CreateRowTrigger(table, Create(t).value.functionName)]
    ensures Create(t).Ok? && |RegisterTable(t, table, decl).value| == 2 ==>
              RegisterTable(t, table, decl).value[1].functionName == Create(t).value.functionName
    ensures Create(t).Ok? ==> Create(t).value.channel == t.channel.value
    ensures Create(t).Ok? ==>
              forall i :: 0 <= i < |Listen(t, false, notes).0| ==>
                Listen(t, false, notes).0[i].tableName == Create(t).value.functionName
  {
  }

  /** What the generated function publishes for one row change: the table,
      the operation, and the row as it was for a DELETE or as it now is
      otherwise. */
  function Publish(op: string, table: string, oldRow: map<string, Value>, newRow: map<string, Value>): (p: TriggerPayload)
    ensures p.table == table && p.action == op
    ensures op == "DELETE" ==> p.data == oldRow
    ensures op != "DELETE" ==> p.data == newRow
  {
    TriggerPayload(table, op, if op == "DELETE" then oldRow else newRow)
  }

  /** The upgrade's origin check. A nil allow-list admits every request; a
      non-nil one admits a request exactly when its URL string equals an
      entry, so an empty list admits nothing. */
  method CheckOrigin(allowed: Option<seq<string>>, url: string) returns (ok: bool)
    ensures ok <==> allowed.None? || url in allowed.value
    ensures allowed == Some([]) ==> !ok
  {
    if allowed.None? {
      return true;
    }
    var list := allowed.value;
    var i := 0;
    while i < |list|
      invariant 0 <= i <= |list|
      invariant url !in list[..i]
    {
      if list[i] == url {
        return true;
      }
      i := i + 1;
    }
    assert list[..i] == list;
    return false;
  }

  /** One notification's text as the listener decodes it: the published
      object, or None when the text is not JSON of that shape. */
  datatype Notification = Notification(extra: Option<TriggerPayload>)

  /** Index of the first notification that fails to decode, or their number
      (the first-match search of `Pumps.FirstEnd`, for the listener). */
  function FirstUndecodable(notes: seq<Notification>): (n: nat)
    ensures n <= |notes|
    ensures forall i :: 0 <= i < n ==> notes[i].extra.Some?
    ensures n < |notes| ==> notes[n].extra.None?
    decreases |notes|
  {
    if |notes| == 0 then 0
    else if notes[0].extra.None? then 0
    else 1 + FirstUndecodable(notes[1..])
  }

  /** The events the listener loop emits for a run of notifications, and the
      error it reports when one fails to decode, after which it stops. */
  function Decode(name: string, notes: seq<Notification>): (r: (seq<TriggerEvent>, Option<Error>))
    ensures |r.0| == FirstUndecodable(notes)
    ensures forall i :: 0 <= i < |r.0| ==> r.0[i] == TriggerEvent(name, notes[i].extra.value)
    ensures r.1.Some? <==> FirstUndecodable(notes) < |notes|
    ensures r.1.Some? ==> r.1.value == NotificationUndecodable
    decreases |notes|
  {
    if |notes| == 0 then ([], None)
    else if notes[0].extra.None? then ([], Some(NotificationUndecodable))
    else
      var rest := Decode(name, notes[1..]);
      assert forall i :: 0 <= i < |notes| - 1 ==> notes[1..][i] == notes[i + 1];
      ([TriggerEvent(name, notes[0].extra.value)] + rest.0, rest.1)
  }

  /** `Listen`: subscribing to the channel either fails (one error, nothing
      else) or the notifications are decoded in order. Every event is tagged
      with the trigger's name, not the table the row belongs to. The channel
      is dereferenced at once, the name only when an event is built. */
  function Listen(t: Trigger, listenFails: bool, notes: seq<Notification>): (r: (seq<TriggerEvent>, Option<Error>))
    requires t.channel.Some?
    requires t.name.Some? || listenFails || FirstUndecodable(notes) == 0
    ensures listenFails ==> r == ([], Some(ListenFailed))
    ensures !listenFails ==> |r.0| == FirstUndecodable(notes)
    ensures !listenFails ==>
              forall i :: 0 <= i < |r.0| ==>
                r.0[i].tableName == t.name.value && r.0[i].payload == notes[i].extra.value
    ensures !listenFails ==> (r.1.Some? <==> FirstUndecodable(notes) < |notes|)
  {
    if listenFails then ([], Some(ListenFailed))
    else if t.name.None? then
      if |notes| == 0 then ([], None) else ([], Some(NotificationUndecodable))
    else Decode(t.name.value, notes)
  }

  /** End to end: a row change published by the generated function, picked up
      by the listener and forwarded by a subscriber's relay, lands in that
      subscriber's queue as one `subscription:response` carrying the table,
      the operation and the chosen row, whatever table it subscribed to. */
  lemma ChangeReachesSubscriber(core: Core, c: ClientId, t: Trigger,
                                op: string, table: string, oldRow: map<string, Value>, newRow: map<string, Value>)
    requires c in core.clients && core.clients[c].relays > 0 && !core.clients[c].queue.closed
    requires Ready(t)
    ensures var events := Listen(t, false, [Notification(Some(Publish(op, table, oldRow, newRow)))]).0;
            RelayAll(core, c, events).clients[c].queue.sent
            == core.clients[c].queue.sent
               + [SocketEvent("subscription:response",
                   Some(ChangePayload(TriggerPayload(table, op, if op == "DELETE" then oldRow else newRow))))]
    ensures var events := Listen(t, false, [Notification(Some(Publish(op, table, oldRow, newRow)))]).0;
            forall d :: d in core.clients && d != c ==> RelayAll(core, c, events).clients[d] == core.clients[d]
  {
    var p := Publish(op, table, oldRow, newRow);
    var events := Listen(t, false, [Notification(Some(p))]).0;
    ListenOne(t, p);
    var r := RelayAll(core, c, events);
    RelayOne(core, c, TriggerEvent(t.name.value, p));
    assert r.clients[c].queue.sent == core.clients[c].queue.sent + [Wrap(TriggerEvent(t.name.value, p))];
    assert Wrap(TriggerEvent(t.name.value, p)) == SocketEvent("subscription:response", Some(ChangePayload(p)));
  }

  /** One decodable notification yields exactly one event. */
  lemma ListenOne(t: Trigger, p: TriggerPayload)
    requires t.channel.Some? && t.name.Some?
    ensures Listen(t, false, [Notification(Some(p))]).0 == [TriggerEvent(t.name.value, p)]
  {
    var notes := [Notification(Some(p))];
    assert FirstUndecodable(notes) == 1 by {
      assert notes[1..] == [];
    }
  }

  /** Relaying one event to an open queue appends its wrapping. */
  lemma RelayOne(core: Core, c: ClientId, te: TriggerEvent)
    requires c in core.clients && core.clients[c].relays > 0 && !core.clients[c].queue.closed
    ensures RelayAll(core, c, [te]).clients[c].queue.sent == core.clients[c].queue.sent + [Wrap(te)]
  {
    assert Wrapped([te]) == [Wrap(te)];
  }
}
