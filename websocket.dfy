/**
 * The WebSocket manager: one live socket per widget, the widget's callbacks,
 * and the reconnect policy (up to five retries after a close). Socket events
 * (`open`, `message`, `error`, `close`) and the firing of a reconnect timer
 * are methods the environment calls; whether the `WebSocket` constructor
 * throws, and what `JSON.parse` makes of a message, are parameters. The
 * callbacks are opaque, so what the manager tells them is recorded in a log.
 */
module WebSocketService {
  import opened Wrappers
  import opened JsonValue
  import opened Widgets

  /** The number of reconnects tried after a connection closes. */
  const MaxReconnectAttempts: int := 5
  /** Milliseconds before a reconnect; the timer itself is the `FireReconnect` call. */
  const ReconnectDelay: int := 3000

  /** A widget's callbacks, identified by `owner`; `hasOnError` says whether `onError` is given. */
  datatype Callbacks = Callbacks(owner: nat, hasOnError: bool)

  /** A message as delivered: parsed JSON, or the raw text when it does not parse. */
  datatype Incoming = Parsed(json: Json) | RawText(text: string)

  /** One call the manager makes into a widget's callbacks. */
  datatype Notification =
    | StatusChanged(to: Callbacks, status: ConnectionStatus)
    | Delivered(to: Callbacks, payload: Incoming)
    | ErrorForwarded(to: Callbacks)

  /**
   * A socket with the state its handlers share. The handlers close over this
   * object, over the callbacks current when it was created, and over its
   * widget id and URL.
   */
  class Connection {
    const widgetId: string
    const url: string
    const callbacks: Callbacks
    var status: ConnectionStatus
    var reconnectAttempts: int

    constructor (widgetId: string, url: string, callbacks: Callbacks, attempts: int)
      ensures this.widgetId == widgetId && this.url == url && this.callbacks == callbacks
      ensures status == Connecting && reconnectAttempts == attempts
    {
      this.widgetId := widgetId;
      this.url := url;
      this.callbacks := callbacks;
      status := Connecting;
      reconnectAttempts := attempts;
    }
  }

  /** A pending reconnect, scheduled by the close handler of `connection`. */
  datatype ReconnectTimer = ReconnectTimer(connection: Connection)

  /** The payload `onmessage` hands on: the parsed value, or the raw text when parsing fails. */
  function Payload(text: string, parsed: Option<Json>): (r: Incoming)
    ensures parsed.Some? ==> r == Parsed(parsed.value)
    ensures parsed.None? ==> r == RawText(text)
  {
    if parsed.Some? then Parsed(parsed.value) else RawText(text)
  }

  /** The notifications of the error handler: the status change, then `onError` if given. */
  function ErrorNotifications(cbs: Callbacks): (r: seq<Notification>)
    ensures |r| == if cbs.hasOnError then 2 else 1
    ensures r[0] == StatusChanged(cbs, Error)
    ensures cbs.hasOnError ==> r[1] == ErrorForwarded(cbs)
  {
    [StatusChanged(cbs, Error)] + (if cbs.hasOnError then [ErrorForwarded(cbs)] else [])
  }

  class WebSocketManager {
    var connections: map<string, Connection>
    var callbacks: map<string, Callbacks>
    var log: seq<Notification>

    constructor ()
      ensures connections == map[] && callbacks == map[] && log == []
    {
      connections := map[];
      callbacks := map[];
      log := [];
    }

    /**
     * `connect`: drops any previous connection and callbacks for the widget
     * (the old socket's close event still arrives later, through `OnClose`),
     * registers the new callbacks and opens a connection with no attempts.
     */
    method Connect(widgetId: string, url: string, cbs: Callbacks, socketOk: bool)
      modifies this
      ensures callbacks == old(callbacks)[widgetId := cbs]
      ensures socketOk ==> widgetId in connections && fresh(connections[widgetId])
      ensures socketOk ==> connections == (old(connections) - {widgetId})[widgetId := connections[widgetId]]
      ensures socketOk ==> var c := connections[widgetId];
        c.widgetId == widgetId && c.url == url && c.callbacks == cbs && c.status == Connecting && c.reconnectAttempts == 0
      ensures !socketOk ==> connections == old(connections) - {widgetId}
      ensures log == old(log) + [StatusChanged(cbs, Connecting)] + (if socketOk then [] else [StatusChanged(cbs, Error)])
    {
      Disconnect(widgetId);
      callbacks := callbacks[widgetId := cbs];
      CreateConnection(widgetId, url, 0, socketOk);
    }

    /**
     * `createConnection`: nothing unless callbacks are registered for the
     * widget; otherwise reports `connecting` and, unless the socket
     * constructor throws (then it reports `error`), installs a fresh
     * connection with the given attempt count.
     */
    method CreateConnection(widgetId: string, url: string, attempts: int, socketOk: bool)
      modifies this
      ensures callbacks == old(callbacks)
      ensures widgetId !in callbacks ==> connections == old(connections) && log == old(log)
      ensures widgetId in callbacks && socketOk ==> widgetId in connections && fresh(connections[widgetId])
      ensures widgetId in callbacks && socketOk ==>
        connections == old(connections)[widgetId := connections[widgetId]]
      ensures widgetId in callbacks && socketOk ==> var c := connections[widgetId];
        && c.widgetId == widgetId && c.url == url && c.callbacks == callbacks[widgetId]
        && c.status == Connecting && c.reconnectAttempts == attempts
      ensures widgetId in callbacks && !socketOk ==> connections == old(connections)
      ensures widgetId in callbacks ==>
        log == old(log) + [StatusChanged(callbacks[widgetId], Connecting)]
                        + (if socketOk then [] else [StatusChanged(callbacks[widgetId], Error)])
    {
      if widgetId !in callbacks {
        return;
      }
      var cbs := callbacks[widgetId];
      log := log + [StatusChanged(cbs, Connecting)];
      if socketOk {
        var connection := new Connection(widgetId, url, cbs, attempts);
        connections := connections[widgetId := connection];
      } else {
        log := log + [StatusChanged(cbs, Error)];
      }
    }

    /** The `open` handler: connected, attempts reset. */
    method OnOpen(c: Connection)
      modifies this, c
      ensures c.status == Connected && c.reconnectAttempts == 0
      ensures log == old(log) + [StatusChanged(c.callbacks, Connected)]
      ensures connections == old(connections) && callbacks == old(callbacks)
    {
      c.status := Connected;
      c.reconnectAttempts := 0;
      log := log + [StatusChanged(c.callbacks, Connected)];
    }

    /** The `message` handler: every message is delivered, parsed when it parses and raw otherwise. */
    method OnMessage(c: Connection, text: string, parsed: Option<Json>)
      modifies this
      ensures log == old(log) + [Delivered(c.callbacks, Payload(text, parsed))]
      ensures connections == old(connections) && callbacks == old(callbacks)
    {
      log := log + [Delivered(c.callbacks, Payload(text, parsed))];
    }

    /** The `error` handler: status `error`, reported, and forwarded to `onError` when there is one. */
    method OnError(c: Connection)
      modifies this, c
      ensures c.status == Error && c.reconnectAttempts == old(c.reconnectAttempts)
      ensures log == old(log) + ErrorNotifications(c.callbacks)
      ensures connections == old(connections) && callbacks == old(callbacks)
    {
      c.status := Error;
      log := log + [StatusChanged(c.callbacks, Error)];
      if c.callbacks.hasOnError {
        log := log + [ErrorForwarded(c.callbacks)];
      }
    }

    /** The `close` handler: status `disconnected`, and a reconnect scheduled while attempts remain. */
    method OnClose(c: Connection) returns (timer: Option<ReconnectTimer>)
      modifies this, c
      ensures c.status == Disconnected && c.reconnectAttempts == old(c.reconnectAttempts)
      ensures timer.Some? <==> c.reconnectAttempts < MaxReconnectAttempts
      ensures timer.Some? ==> timer.value.connection == c
      ensures log == old(log) + [StatusChanged(c.callbacks, Disconnected)]
      ensures connections == old(connections) && callbacks == old(callbacks)
    {
      c.status := Disconnected;
      log := log + [StatusChanged(c.callbacks, Disconnected)];
      if c.reconnectAttempts < MaxReconnectAttempts {
        timer := Some(ReconnectTimer(c));
      } else {
        timer := None;
      }
    }

    /**
     * A reconnect timer firing: when callbacks are registered for the widget
     * (whichever connection they now belong to) it opens a connection to
     * the URL the closed connection had, with one more attempt.
     */
    method FireReconnect(t: ReconnectTimer, socketOk: bool)
      modifies this
      ensures callbacks == old(callbacks)
      ensures t.connection.widgetId !in callbacks ==> connections == old(connections) && log == old(log)
      ensures t.connection.widgetId in callbacks && socketOk ==>
        var id := t.connection.widgetId;
        && id in connections && fresh(connections[id])
        && connections == old(connections)[id := connections[id]]
        && connections[id].widgetId == id
        && connections[id].url == t.connection.url
        && connections[id].callbacks == callbacks[id]
        && connections[id].status == Connecting
        && connections[id].reconnectAttempts == t.connection.reconnectAttempts + 1
      ensures t.connection.widgetId in callbacks && !socketOk ==> connections == old(connections)
      ensures t.connection.widgetId in callbacks ==>
        log == old(log) + [StatusChanged(callbacks[t.connection.widgetId], Connecting)]
                        + (if socketOk then [] else [StatusChanged(callbacks[t.connection.widgetId], Error)])
    {
      var c := t.connection;
      if c.widgetId in callbacks {
        CreateConnection(c.widgetId, c.url, c.reconnectAttempts + 1, socketOk);
      }
    }

    /** `disconnect`: forgets the widget's connection (closing its socket) and its callbacks. */
    method Disconnect(widgetId: string)
      modifies this
      ensures connections == old(connections) - {widgetId}
      ensures callbacks == old(callbacks) - {widgetId}
      ensures log == old(log)
    {
      if widgetId in connections {
        connections := connections - {widgetId};
      }
      callbacks := callbacks - {widgetId};
    }

    /** `getStatus`: the status of the widget's connection, or null without one. */
    method GetStatus(widgetId: string) returns (status: Option<ConnectionStatus>)
      ensures status.Some? <==> widgetId in connections
      ensures status.Some? ==> status.value == connections[widgetId].status
    {
      if widgetId in connections {
        status := Some(connections[widgetId].status);
      } else {
        status := None;
      }
    }

    /** `send`: true only when the widget has a connection whose status is `connected` and the socket accepts the data. */
    method Send(widgetId: string, socketAccepts: bool) returns (sent: bool)
      ensures sent <==> widgetId in connections && connections[widgetId].status == Connected && socketAccepts
    {
      if widgetId in connections && connections[widgetId].status == Connected {
        sent := socketAccepts;
      } else {
        sent := false;
      }
    }

    /**
     * `disconnectAll`: disconnects every widget that has a connection; the
     * callbacks of a widget without one stay registered.
     */
    method DisconnectAll()
      modifies this
      ensures connections == map[]
      ensures callbacks == map id | id in old(callbacks) && id !in old(connections) :: old(callbacks)[id]
      ensures log == old(log)
    {
      var ids := connections.Keys;
      while ids != {}
        invariant ids <= old(connections).Keys
        invariant connections == map id | id in old(connections) && id in ids :: old(connections)[id]
        invariant callbacks == map id | id in old(callbacks) && (id in ids || id !in old(connections)) :: old(callbacks)[id]
        invariant log == old(log)
        decreases ids
      {
        var id :| id in ids;
        Disconnect(id);
        ids := ids - {id};
      }
    }
  }

  // ---------------------------------------------------------------------------
  // Event sequences

  /**
   * A connection that keeps closing without ever opening: each close
   * schedules a reconnect until five have been made, and the close of the
   * fifth reconnect's connection schedules nothing.
   */
  method ClosesUntilGivingUp(widgetId: string, url: string, cbs: Callbacks) returns (reconnects: nat, last: Option<ReconnectTimer>)
    ensures reconnects == MaxReconnectAttempts
    ensures last.None?
  {
    var m := new WebSocketManager();
    m.Connect(widgetId, url, cbs, true);
    var c := m.connections[widgetId];
    var timer := m.OnClose(c);
    reconnects := 0;
    while timer.Some?
      invariant fresh(m) && fresh(c)
      invariant widgetId in m.callbacks && widgetId in m.connections && m.connections[widgetId] == c
      invariant c.widgetId == widgetId && c.reconnectAttempts == reconnects
      invariant reconnects <= MaxReconnectAttempts
      invariant timer.Some? <==> reconnects < MaxReconnectAttempts
      invariant timer.Some? ==> timer.value.connection == c
      decreases MaxReconnectAttempts - reconnects
    {
      m.FireReconnect(timer.value, true);
      reconnects := reconnects + 1;
      c := m.connections[widgetId];
      timer := m.OnClose(c);
    }
    last := timer;
  }

  /**
   * An `open` in between resets the count: after a reconnect opens, the
   * next close schedules a reconnect again.
   */
  method OpenResetsAttempts(widgetId: string, url: string, cbs: Callbacks) returns (attemptsBeforeOpen: int, timer: Option<ReconnectTimer>)
    ensures attemptsBeforeOpen == 1
    ensures timer.Some? && timer.value.connection.reconnectAttempts == 0
  {
    var m := new WebSocketManager();
    m.Connect(widgetId, url, cbs, true);
    var first := m.connections[widgetId];
    var t := m.OnClose(first);
    m.FireReconnect(t.value, true);
    var second := m.connections[widgetId];
    attemptsBeforeOpen := second.reconnectAttempts;
    m.OnOpen(second);
    timer := m.OnClose(second);
  }

  /**
   * Reconnecting a widget to a new URL while the old socket's close event is
   * still on its way: the old close schedules a reconnect, the timer finds
   * the new callbacks registered, and replaces the new connection with one
   * to the old URL.
   */
  method StaleCloseReconnectsOldUrl(widgetId: string, oldUrl: string, newUrl: string, first: Callbacks, second: Callbacks)
    returns (replaced: bool, finalUrl: string, finalCallbacks: Callbacks)
    ensures replaced
    ensures finalUrl == oldUrl
    ensures finalCallbacks == second
  {
    var m := new WebSocketManager();
    m.Connect(widgetId, oldUrl, first, true);
    var stale := m.connections[widgetId];
    m.Connect(widgetId, newUrl, second, true);
    var current := m.connections[widgetId];
    var t := m.OnClose(stale);
    m.FireReconnect(t.value, true);
    replaced := m.connections[widgetId] != current;
    finalUrl := m.connections[widgetId].url;
    finalCallbacks := m.connections[widgetId].callbacks;
  }

  /** After `disconnect`, the widget has no status and a pending reconnect does nothing. */
  method DisconnectStopsReconnect(widgetId: string, url: string, cbs: Callbacks) returns (status: Option<ConnectionStatus>, connected: bool)
    ensures status.None?
    ensures !connected
  {
    var m := new WebSocketManager();
    m.Connect(widgetId, url, cbs, true);
    var c := m.connections[widgetId];
    m.Disconnect(widgetId);
    var t := m.OnClose(c);
    m.FireReconnect(t.value, true);
    status := m.GetStatus(widgetId);
    connected := widgetId in m.connections;
  }
}
