/**
  `SockjsConnection` of handlers.py: the transport calls `OnOpen`, then
  `OnMessage` any number of times, then `OnClose`. The connection binds a
  per-connection `Client`, may start the session's heartbeat, and may close
  itself at once when the transport gave it no session.
 */
module Connection {

  import opened Wrappers

  /** What the transport reports about the peer when the connection opens. */
  datatype ConnectionInfo = ConnectionInfo(ip: string, headers: map<string, string>)

  /** The transport session, known by its transport's name. */
  datatype Session = Session(transportName: string)

  /** The one transport that brings its own keep-alive. */
  const RawWebsocket: string := "rawwebsocket"

  /**
    The per-connection client. Its own processing is not part of this
    model: it records the messages it is handed and whether it was closed.
   */
  class Client {
    const connection: SockjsConnection
    const info: ConnectionInfo
    var received: seq<string>
    var closed: bool

    constructor (connection: SockjsConnection, info: ConnectionInfo)
      ensures this.connection == connection && this.info == info
      ensures received == [] && !closed
    {
      this.connection := connection;
      this.info := info;
      received := [];
      closed := false;
    }

    /** `Client.message_received`. */
    method MessageReceived(message: string)
      modifies this
      ensures received == old(received) + [message]
      ensures closed == old(closed)
    {
      received := received + [message];
    }

    /** `Client.close`. */
    method Close()
      modifies this
      ensures closed
      ensures received == old(received)
    {
      closed := true;
    }
  }

  class SockjsConnection {
    /** `self.session`, absent when the transport has none for this connection. */
    const session: Option<Session>
    /** `self.client`: `null` before `OnOpen` and after `del self.client`. */
    var client: Client?
    /** Whether `session.start_heartbeat()` was called. */
    var heartbeatStarted: bool
    /** Whether `self.close()` was called. */
    var closed: bool

    constructor (session: Option<Session>)
      ensures this.session == session
      ensures client == null && !heartbeatStarted && !closed
    {
      this.session := session;
      client := null;
      heartbeatStarted := false;
      closed := false;
    }

    /** A session exists and its transport has no keep-alive of its own. */
    predicate NeedsHeartbeat()
    {
      session.Some? && session.value.transportName != RawWebsocket
    }

    /**
      `on_open`: a fresh client is bound whether or not there is a session;
      the heartbeat starts exactly when `NeedsHeartbeat()`, and the
      connection closes itself exactly when there is no session.
     */
    method OnOpen(info: ConnectionInfo)
      modifies this
      ensures client != null && fresh(client)
      ensures client.connection == this && client.info == info
      ensures client.received == [] && !client.closed
      ensures heartbeatStarted == (old(heartbeatStarted) || NeedsHeartbeat())
      ensures closed == (old(closed) || session.None?)
    {
      client := new Client(this, info);
      if session.Some? {
        if session.value.transportName != RawWebsocket {
          heartbeatStarted := true;
        }
      } else {
        closed := true;
      }
    }

    /** `on_message`: the message goes, unchanged, to the bound client and nowhere else. */
    method OnMessage(message: string)
      requires client != null
      modifies client
      ensures client.received == old(client.received) + [message]
      ensures client.closed == old(client.closed)
    {
      client.MessageReceived(message);
    }

    /**
      `on_close`: the bound client is closed, then the binding is removed,
      so a later `OnMessage` or `OnClose` has no client to use.
     */
    method OnClose()
      requires client != null
      modifies this, client
      ensures client == null
      ensures old(client).closed && old(client).received == old(client.received)
      ensures heartbeatStarted == old(heartbeatStarted) && closed == old(closed)
    {
      client.Close();
      client := null;
    }
  }

  /**
    One connection's lifetime: open with `session`, receive one message,
    close. The client that was bound got exactly that message and was
    closed, the heartbeat ran exactly when the session needed it, and the
    connection closed itself exactly when there was no session.
   */
  method Lifetime(session: Option<Session>, info: ConnectionInfo, message: string)
    returns (connection: SockjsConnection, agent: Client)
    ensures connection.client == null
    ensures agent.connection == connection && agent.info == info
    ensures agent.received == [message] && agent.closed
    ensures connection.heartbeatStarted == (session.Some? && session.value.transportName != RawWebsocket)
    ensures connection.closed == session.None?
  {
    connection := new SockjsConnection(session);
    connection.OnOpen(info);
    agent := connection.client;
    connection.OnMessage(message);
    connection.OnClose();
  }
}
