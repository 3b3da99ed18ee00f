/**
 * The chat server (EchoServer): the login gate in front of the relay, fed by
 * the lines clients send, and the interpreter of the lines its operator types.
 *
 * The state of the server, ServerView, is the port, the listening and
 * terminated flags, the connections the networking library holds, the
 * "loginId" entry of each connection's info bag, and three logs: what was
 * sent to clients, what was shown on the server's display (serverUI.display)
 * and what was printed on standard output (System.out.println).  Each
 * handler is a function of the old state, the input line and the outcomes
 * of the library calls it makes; the class EchoServer performs the same steps
 * on fields and is proved to reach the state the function gives.
 */
module EchoServerModel {
  import opened JavaText
  import opened Protocol

  /** The identity of one client connection, chosen by the networking library. */
  type ConnId = nat

  /** One call that sends text to clients. */
  datatype Outgoing =
    | ToClient(conn: ConnId, text: string)          // client.sendToClient(text)
    | ToAll(recipients: set<ConnId>, text: string)  // sendToAllClients(text): every connection held

  /** EchoServer.DEFAULT_PORT. */
  const DefaultPort: int := 5555

  datatype ServerView = ServerView(
    port: int,
    listening: bool,
    terminated: bool,
    live: set<ConnId>,
    loginIds: map<ConnId, string>,
    outbox: seq<Outgoing>,
    display: seq<string>,
    console: seq<string>)

  /** The port is a Java int, and only a connection the library holds carries a login id. */
  predicate Consistent(v: ServerView) {
    InInt32(v.port) && v.loginIds.Keys <= v.live
  }

  /** No connection still held has lost or changed the login id it had before. */
  predicate IdsKept(before: map<ConnId, string>, after: ServerView) {
    forall c :: c in before && c in after.live ==> c in after.loginIds && after.loginIds[c] == before[c]
  }

  /** The port, the two flags and standard output are as they were. */
  predicate SameControl(v: ServerView, w: ServerView) {
    w.port == v.port && w.listening == v.listening && w.terminated == v.terminated && w.console == v.console
  }

  // ------------------------------------------------------------ the networking library

  /** The library accepts a connection; its info bag starts empty. */
  function Accept(v: ServerView, conn: ConnId): ServerView {
    v.(live := v.live + {conn}, loginIds := v.loginIds - {conn})
  }

  /** The library drops a connection, together with its info bag. */
  function Disconnect(v: ServerView, conn: ConnId): ServerView {
    v.(live := v.live - {conn}, loginIds := v.loginIds - {conn})
  }

  /** Dropping a connection twice is the same as dropping it once. */
  lemma DisconnectIdempotent(v: ServerView, conn: ConnId)
    ensures Disconnect(Disconnect(v, conn), conn) == Disconnect(v, conn)
  {
  }

  // ------------------------------------------------------------ lines from clients

  /**
   * How one line from connection conn may change the server: port, flags and
   * standard output stay; only conn may leave or gain an id; no other
   * connection's id changes; at most one message goes out, after the earlier ones.
   */
  predicate ClientStepShape(v: ServerView, conn: ConnId, w: ServerView) {
    && SameControl(v, w)
    && IdsKept(v.loginIds, w)
    && (w.live == v.live || w.live == v.live - {conn})
    && w.loginIds.Keys <= v.loginIds.Keys + {conn}
    && v.outbox <= w.outbox && |w.outbox| <= |v.outbox| + 1
  }

  /**
   * The try block that answers a refused line: send the notice to the
   * connection, show why on the display, close the connection.  A send that
   * throws skips the rest; a close that throws leaves the connection held.
   * Either failure shows onError.
   */
  function Refuse(v: ServerView, conn: ConnId, notice: string, shown: string, onError: string,
                  send: IoOutcome, close: IoOutcome): (r: ServerView)
    ensures ClientStepShape(v, conn, r)
    ensures Consistent(v) ==> Consistent(r)
    // the notice goes out exactly when the send succeeds
    ensures r.outbox == v.outbox + (if send.Done? then [ToClient(conn, notice)] else [])
    // the connection is dropped exactly when both the send and the close succeed
    ensures conn in v.live ==> (conn in r.live <==> !(send.Done? && close.Done?))
    ensures conn in v.loginIds && conn in r.live ==> conn in r.loginIds
  {
    if send.Failed? then
      v.(display := v.display + [onError])
    else if close.Failed? then
      v.(outbox := v.outbox + [ToClient(conn, notice)], display := v.display + [shown] + [onError])
    else
      v.(live := v.live - {conn}, loginIds := v.loginIds - {conn},
         outbox := v.outbox + [ToClient(conn, notice)], display := v.display + [shown])
  }

  /**
   * A line that starts with "#login": a connection without an id takes
   * message.substring(7).trim() as its id and everyone is told; None where
   * substring(7) throws.  A connection that has an id is refused.
   */
  function AfterLogin(v: ServerView, conn: ConnId, message: string,
                      send: IoOutcome, close: IoOutcome): (r: Option<ServerView>)
    requires "#login" <= message
    ensures r.None? <==> message == "#login" && conn !in v.loginIds
    ensures r.Some? ==> ClientStepShape(v, conn, r.value)
    ensures r.Some? && Consistent(v) && conn in v.live ==> Consistent(r.value)
  {
    if conn !in v.loginIds then
      match LoginArgument(message)
      case None =>
        assert message == message[..6];
        None
      case Some(loginID) => Some(Admit(v, conn, message, loginID))
    else
      Some(Refuse(v, conn, AlreadyLoggedInNotice(v.loginIds[conn]),
                  "Client attempted to re-login. Closing connection.",
                  "Error closing connection for re-login attempt.", send, close))
  }

  /** A first login: the connection takes the id, and everyone is told. */
  function Admit(v: ServerView, conn: ConnId, message: string, loginID: string): ServerView {
    v.(loginIds := v.loginIds[conn := loginID],
       display := v.display + ["Message received: " + message + " from null."] + [LoggedOnNotice(loginID)],
       outbox := v.outbox + [ToAll(v.live, LoggedOnNotice(loginID))])
  }

  /**
   * Any other line: relayed to everyone under the sender's id when the
   * sender has one, refused otherwise.
   */
  function AfterChat(v: ServerView, conn: ConnId, message: string,
                     send: IoOutcome, close: IoOutcome): (r: ServerView)
    ensures ClientStepShape(v, conn, r)
    ensures Consistent(v) ==> Consistent(r)
    // a line from a connection that has no id is never relayed
    ensures conn !in v.loginIds ==> r.outbox <= v.outbox + [ToClient(conn, PleaseLogInNotice)]
  {
    if conn in v.loginIds then
      var loginId := v.loginIds[conn];
      v.(display := v.display + ["Message received: " + message + " from " + loginId],
         outbox := v.outbox + [ToAll(v.live, RelayLine(loginId, message))])
    else
      Refuse(v, conn, PleaseLogInNotice,
             "Unauthorized message attempt from a client without login ID. Closing connection.",
             "Unexpected error closing client connection.", send, close)
  }

  /**
   * handleMessageFromClient: the state after connection conn sent message, or
   * None where the handler throws (a bare "#login" from a connection without
   * an id makes substring(7) fail) and changes nothing.
   */
  function AfterMessageFromClient(v: ServerView, conn: ConnId, message: string,
                                  send: IoOutcome, close: IoOutcome): (r: Option<ServerView>)
    ensures r.None? <==> message == "#login" && conn !in v.loginIds
    ensures r.Some? ==> ClientStepShape(v, conn, r.value)
    ensures r.Some? && Consistent(v) && conn in v.live ==> Consistent(r.value)
    // a line that is not a login, from a connection that has no id, is never relayed
    ensures r.Some? && !("#login" <= message) && conn !in v.loginIds ==>
      r.value.outbox <= v.outbox + [ToClient(conn, PleaseLogInNotice)]
  {
    if "#login" <= message then AfterLogin(v, conn, message, send, close)
    else Some(AfterChat(v, conn, message, send, close))
  }

  /** A first login line sets that connection's id alone and announces it once to every connection. */
  lemma FirstLogin(v: ServerView, conn: ConnId, message: string, send: IoOutcome, close: IoOutcome)
    requires "#login" <= message && |message| >= 7 && conn !in v.loginIds
    ensures var r := AfterMessageFromClient(v, conn, message, send, close);
      var loginID := Trim(message[7..]);
      && r.Some?
      && r.value.loginIds == v.loginIds[conn := loginID]
      && r.value.live == v.live
      && r.value.outbox == v.outbox + [ToAll(v.live, LoggedOnNotice(loginID))]
      && r.value == Admit(v, conn, message, loginID)
  {
  }

  /**
   * A second login line leaves the id as it was, tells only that connection
   * it is already logged in, relays nothing and closes the connection when
   * the library lets it.
   */
  lemma SecondLogin(v: ServerView, conn: ConnId, message: string, send: IoOutcome, close: IoOutcome)
    requires "#login" <= message && conn in v.loginIds
    ensures var r := AfterMessageFromClient(v, conn, message, send, close).value;
      && (send.Done? && close.Done? ==> conn !in r.live && conn !in r.loginIds)
      && (conn in r.live ==> r.loginIds[conn] == v.loginIds[conn])
      && r.outbox == v.outbox + (if send.Done? then [ToClient(conn, AlreadyLoggedInNotice(v.loginIds[conn]))] else [])
  {
  }

  /**
   * A chat line from a connection without an id is never relayed: only that
   * connection is told to log in, and it is closed when the library lets it.
   */
  lemma MessageBeforeLogin(v: ServerView, conn: ConnId, message: string, send: IoOutcome, close: IoOutcome)
    requires !("#login" <= message) && conn !in v.loginIds
    ensures var r := AfterMessageFromClient(v, conn, message, send, close).value;
      && (send.Done? && close.Done? ==> conn !in r.live)
      && r.loginIds == v.loginIds
      && r.outbox == v.outbox + (if send.Done? then [ToClient(conn, PleaseLogInNotice)] else [])
  {
  }

  /** A chat line from a logged-in connection goes out once, to every connection, under the sender's id. */
  lemma RelayFromLoggedIn(v: ServerView, conn: ConnId, message: string, send: IoOutcome, close: IoOutcome)
    requires !("#login" <= message) && conn in v.loginIds
    ensures var r := AfterMessageFromClient(v, conn, message, send, close).value;
      && r.outbox == v.outbox + [ToAll(v.live, RelayLine(v.loginIds[conn], message))]
      && r.live == v.live && r.loginIds == v.loginIds
  {
  }

  /**
   * sendToAllClients does not look at login ids: a connection that has not
   * logged in yet receives the chat lines of one that has.
   */
  lemma RelayReachesConnectionsWithoutId(v: ServerView, sender: ConnId, other: ConnId, message: string,
                                         send: IoOutcome, close: IoOutcome)
    requires sender in v.loginIds && other in v.live && other !in v.loginIds && !("#login" <= message)
    ensures var r := AfterMessageFromClient(v, sender, message, send, close).value;
      && r.outbox[|r.outbox| - 1].ToAll?
      && other in r.outbox[|r.outbox| - 1].recipients
      && other !in r.loginIds
  {
    RelayFromLoggedIn(v, sender, message, send, close);
  }

  /**
   * The line a client sends when its connection comes up logs that connection
   * in under the client's id, trimmed, and announces it to every connection.
   */
  lemma LoginHandshake(v: ServerView, conn: ConnId, loginID: string, send: IoOutcome, close: IoOutcome)
    requires conn !in v.loginIds
    ensures var r := AfterMessageFromClient(v, conn, LoginLine(loginID), send, close);
      && r.Some?
      && r.value.loginIds == v.loginIds[conn := Trim(loginID)]
      && r.value.outbox == v.outbox + [ToAll(v.live, LoggedOnNotice(Trim(loginID)))]
  {
    LoginLineRead(loginID);
  }

  // ------------------------------------------------------------ the operator's lines

  datatype PortError = NoPortSpecified | InvalidPortNumber
  datatype PortArgument = PortValue(port: int) | PortProblem(error: PortError)

  /**
   * Integer.parseInt(command.split(" ")[1]): no second field is the
   * ArrayIndexOutOfBoundsException ("No port specified"), a field that does
   * not parse the NumberFormatException ("Invalid port number").  Any Java
   * int is accepted, 0-65535 or not.
   */
  function SetPortArgument(command: string): (r: PortArgument)
    ensures r.PortValue? ==> InInt32(r.port)
  {
    var fields := Split(command);
    if |fields| < 2 then PortProblem(NoPortSpecified)
    else match ParseInt(fields[1])
      case Some(p) => PortValue(p)
      case None => PortProblem(InvalidPortNumber)
  }

  /** "#setport" followed by one space and a token reads that token as the port. */
  lemma SetPortArgumentOfToken(token: string)
    requires token != [] && ' ' !in token
    ensures SetPortArgument("#setport " + token) ==
      match ParseInt(token)
      case Some(p) => PortValue(p)
      case None => PortProblem(InvalidPortNumber)
  {
    assert JoinWithSpaces(["#setport", token]) == "#setport " + token;
    SplitOfJoin(["#setport", token]);
  }

  /** Spaces after the token add no field: "#setport 80   " reads 80 like "#setport 80". */
  lemma SetPortTrailingSpaces(token: string, k: nat)
    requires token != [] && ' ' !in token
    ensures SetPortArgument("#setport " + token + Spaces(k)) ==
      match ParseInt(token)
      case Some(p) => PortValue(p)
      case None => PortProblem(InvalidPortNumber)
  {
    assert JoinWithSpaces(["#setport", token]) == "#setport " + token;
    SplitOfJoinAndSpaces(["#setport", token], k);
  }

  /** "#setport n" sets exactly n when n is a Java int, and is an invalid port otherwise. */
  lemma SetPortArgumentOfNumber(n: int)
    ensures SetPortArgument("#setport " + IntToString(n)) ==
      if InInt32(n) then PortValue(n) else PortProblem(InvalidPortNumber)
  {
    SetPortArgumentOfToken(IntToString(n));
    ParseIntOfIntToString(n);
  }

  /** A single word, with or without one trailing space, has no second field. */
  lemma NoSecondField(word: string)
    requires word != [] && ' ' !in word
    ensures SetPortArgument(word) == PortProblem(NoPortSpecified)
    ensures SetPortArgument(word + " ") == PortProblem(NoPortSpecified)
  {
    assert Split(word) == [word];
    SplitWordAndSpace(word);
  }

  /** No argument, even after a trailing space, is "No port specified". */
  lemma SetPortWithoutArgument()
    ensures SetPortArgument("#setport") == PortProblem(NoPortSpecified)
    ensures SetPortArgument("#setport" + " ") == PortProblem(NoPortSpecified)
  {
    NoSecondField("#setport");
  }

  /** Two spaces before the argument make the second field empty: an invalid port. */
  lemma SetPortDoubleSpace(token: string)
    requires token != [] && ' ' !in token
    ensures SetPortArgument("#setport  " + token) == PortProblem(InvalidPortNumber)
  {
    var fields: seq<string> := ["#setport", [], token];
    assert fields[1..] == [[], token] && fields[1..][1..] == [token];
    assert JoinWithSpaces(fields[1..]) == " " + token;
    assert "#setport" + " " + (" " + token) == "#setport  " + token;
    SplitOfJoin(fields);
  }

  /** A word that is not a number is an invalid port. */
  lemma SetPortNotNumeric()
    ensures SetPortArgument("#setport abc") == PortProblem(InvalidPortNumber)
  {
    assert "#setport abc" == "#setport " + "abc";
    SetPortArgumentOfToken("abc");
  }

  /** "#close": stop listening and drop every connection, unless close() throws. */
  function CloseCommand(v: ServerView, io: IoOutcome): (r: ServerView)
    ensures r.outbox == v.outbox && SameControl(v, r.(listening := v.listening))
    ensures io.Done? ==> !r.listening && r.live == {} && r.loginIds == map[]
    ensures io.Failed? ==> r.listening == v.listening && r.live == v.live && r.loginIds == v.loginIds
  {
    if io.Done? then
      v.(listening := false, live := {}, loginIds := map[],
         display := v.display + ["Server closed and all clients disconnected."])
    else
      v.(display := v.display + ["Error closing server: " + io.reason])
  }

  /** "#setport…": only while not listening, and only to a port that parses. */
  function SetPortCommand(v: ServerView, command: string): (r: ServerView)
    ensures r.port != v.port ==> !v.listening && SetPortArgument(command) == PortValue(r.port)
    ensures r.(port := v.port, display := v.display, console := v.console) == v
    ensures r.terminated == v.terminated && (Consistent(v) ==> Consistent(r))
  {
    if v.listening then
      v.(console := v.console + ["Error: cannot set a new port when server is open"])
    else
      match SetPortArgument(command)
      case PortValue(p) => v.(port := p, display := v.display + ["Port is now: " + IntToString(p)])
      case PortProblem(InvalidPortNumber) => v.(display := v.display + ["Error: Invalid port number"])
      case PortProblem(NoPortSpecified) => v.(display := v.display + ["Error: No port specified"])
  }

  /** "#start": listen when not listening and the library lets it. */
  function StartCommand(v: ServerView, io: IoOutcome): (r: ServerView)
    ensures r.listening <==> v.listening || io.Done?
    ensures r.(listening := v.listening, display := v.display, console := v.console) == v
  {
    if v.listening then
      v.(console := v.console + ["Error: Server is already listening"])
    else if io.Done? then
      v.(listening := true, display := v.display + ["Server started listening for new clients"])
    else
      v.(display := v.display + ["Error (Server cannot start): " + io.reason])
  }

  /** handleCommand: one line the operator typed that starts with '#'. */
  function AfterCommand(v: ServerView, command: string, io: IoOutcome): (r: ServerView)
    ensures r.outbox == v.outbox
    ensures r.port != v.port ==> "#setport" <= command && !v.listening && SetPortArgument(command) == PortValue(r.port)
    ensures v.listening && !r.listening ==> command == "#stop" || (command == "#close" && io.Done?)
    ensures !v.listening && r.listening ==> command == "#start" && io.Done?
    ensures r.terminated <==> v.terminated || command == "#quit"
    ensures (r.live == v.live && r.loginIds == v.loginIds) || (command == "#close" && r.live == {} && r.loginIds == map[])
    ensures Consistent(v) ==> Consistent(r)
  {
    if command == "#quit" then
      v.(terminated := true, display := v.display + ["Server quit gracefully"])
    else if command == "#stop" then
      v.(listening := false, display := v.display + ["Server stopped listening for connections."])
    else if command == "#close" then
      CloseCommand(v, io)
    else if "#setport" <= command then
      SetPortCommand(v, command)
    else if command == "#start" then
      StartCommand(v, io)
    else if command == "#getport" then
      v.(display := v.display + ["Current port: " + IntToString(v.port)])
    else
      v.(display := v.display + ["Error: command not in system"])
  }

  /** "#setport…" while listening changes nothing but printing an error. */
  lemma SetPortWhileListening(v: ServerView, command: string, io: IoOutcome)
    requires v.listening && "#setport" <= command
    ensures AfterCommand(v, command, io) ==
      v.(console := v.console + ["Error: cannot set a new port when server is open"])
  {
  }

  /**
   * "#setport…" while not listening sets the port to the argument when it
   * parses, reports why not otherwise, and never starts listening.
   */
  lemma SetPortWhileStopped(v: ServerView, command: string, io: IoOutcome)
    requires !v.listening && "#setport" <= command
    ensures var r := AfterCommand(v, command, io);
      && !r.listening
      && (match SetPortArgument(command)
          case PortValue(p) => r.port == p
          case PortProblem(NoPortSpecified) =>
            r == v.(display := v.display + ["Error: No port specified"])
          case PortProblem(InvalidPortNumber) =>
            r == v.(display := v.display + ["Error: Invalid port number"]))
  {
  }

  /**
   * "#start" while listening only prints an error; "#stop" leaves the server
   * not listening; neither touches the port.
   */
  lemma StartAndStop(v: ServerView, io: IoOutcome)
    ensures v.listening ==>
      AfterCommand(v, "#start", io) == v.(console := v.console + ["Error: Server is already listening"])
    ensures !AfterCommand(v, "#stop", io).listening
    ensures AfterCommand(v, "#stop", io).port == v.port && AfterCommand(v, "#start", io).port == v.port
  {
  }

  /** "#getport" and a line that is no command only add a line to the display. */
  lemma DisplayOnlyCommands(v: ServerView, command: string, io: IoOutcome)
    requires command !in {"#quit", "#stop", "#close", "#start", "#getport"} && !("#setport" <= command)
    ensures AfterCommand(v, "#getport", io) ==
      v.(display := v.display + ["Current port: " + IntToString(v.port)])
    ensures AfterCommand(v, command, io) ==
      v.(display := v.display + ["Error: command not in system"])
  {
    assert "#getport"[1] != "#setport"[1];
  }

  /**
   * The operator moves a running server: "#stop", "#setport n", "#start".
   * When n is a Java int and the library lets it listen, it listens on n.
   */
  lemma MoveToPort(v: ServerView, n: int, io: IoOutcome)
    requires InInt32(n)
    ensures var stopped := AfterCommand(v, "#stop", io);
      var moved := AfterCommand(stopped, "#setport " + IntToString(n), io);
      var started := AfterCommand(moved, "#start", Done);
      started.port == n && started.listening
  {
    SetPortArgumentOfNumber(n);
  }

  /**
   * handleMessageFromServerUI: a line that starts with '#' is a command and
   * never reaches a client; any other line is shown and sent to every
   * connection as an operator line.
   */
  function AfterMessageFromServerUI(v: ServerView, message: string, io: IoOutcome): (r: ServerView)
    ensures "#" <= message <==> r.outbox == v.outbox
    ensures !("#" <= message) ==> r == v.(display := v.display + [message],
                                          outbox := v.outbox + [ToAll(v.live, OperatorLine(message))])
    ensures Consistent(v) ==> Consistent(r)
  {
    if "#" <= message then
      AfterCommand(v, message, io)
    else
      v.(display := v.display + [message], outbox := v.outbox + [ToAll(v.live, OperatorLine(message))])
  }

  // ------------------------------------------------------------ runs

  /** What the server can be told, one event at a time. */
  datatype ServerEvent =
    | Connected(conn: ConnId)
    | Disconnected(conn: ConnId)
    | FromClient(conn: ConnId, message: string, send: IoOutcome, close: IoOutcome)
    | FromOperator(line: string, io: IoOutcome)

  /**
   * One event: None where it cannot come (the library never hands out an
   * identity it still holds, and only held connections send lines) or where
   * the handler throws.
   */
  function Step(v: ServerView, e: ServerEvent): (r: Option<ServerView>)
    ensures r.Some? && Consistent(v) ==> Consistent(r.value)
    ensures r.Some? ==> v.outbox <= r.value.outbox
  {
    match e
    case Connected(c) => if c in v.live then None else Some(Accept(v, c))
    case Disconnected(c) => Some(Disconnect(v, c))
    case FromClient(c, m, s, k) => if c in v.live then AfterMessageFromClient(v, c, m, s, k) else None
    case FromOperator(line, io) => Some(AfterMessageFromServerUI(v, line, io))
  }

  /** The state after a run of events; once the server has quit, nothing more happens. */
  function Replay(v: ServerView, events: seq<ServerEvent>): Option<ServerView>
    decreases |events|
  {
    if events == [] || v.terminated then Some(v)
    else match Step(v, events[0])
      case None => None
      case Some(w) => Replay(w, events[1..])
  }

  /** Every run keeps the port a Java int and login ids on held connections only. */
  lemma {:induction false} ReplayKeepsConsistent(v: ServerView, events: seq<ServerEvent>)
    requires Consistent(v)
    ensures Replay(v, events).Some? ==> Consistent(Replay(v, events).value)
    decreases |events|
  {
    if events != [] && !v.terminated {
      var w := Step(v, events[0]);
      if w.Some? {
        ReplayKeepsConsistent(w.value, events[1..]);
      }
    }
  }

  /** What was sent to clients stays sent: a run only appends to it. */
  lemma {:induction false} ReplayOnlyAppends(v: ServerView, events: seq<ServerEvent>)
    ensures Replay(v, events).Some? ==> v.outbox <= Replay(v, events).value.outbox
    decreases |events|
  {
    if events != [] && !v.terminated {
      var w := Step(v, events[0]);
      if w.Some? {
        ReplayOnlyAppends(w.value, events[1..]);
      }
    }
  }

  /** One event of a run: the run is that event's step followed by the rest. */
  lemma ReplayFirst(v: ServerView, e: ServerEvent, rest: seq<ServerEvent>)
    requires !v.terminated && Step(v, e).Some?
    ensures Replay(v, [e] + rest) == Replay(Step(v, e).value, rest)
  {
    assert ([e] + rest)[0] == e && ([e] + rest)[1..] == rest;
  }

  /** A login line on a held connection without an id, as one event of a run. */
  lemma LoginEvent(v: ServerView, conn: ConnId, loginID: string)
    requires conn in v.live && conn !in v.loginIds && Trimmed(loginID)
    ensures var w := Step(v, FromClient(conn, LoginLine(loginID), Done, Done));
      && w.Some? && w.value.terminated == v.terminated && w.value.live == v.live
      && w.value.loginIds == v.loginIds[conn := loginID]
      && w.value.outbox == v.outbox + [ToAll(v.live, LoggedOnNotice(loginID))]
  {
    var line := LoginLine(loginID);
    LoginLineRead(loginID);
    assert Trim(loginID) == loginID;
    assert Step(v, FromClient(conn, line, Done, Done)) == AfterMessageFromClient(v, conn, line, Done, Done);
    FirstLogin(v, conn, line, Done, Done);
  }

  /** A chat line from a logged-in connection, as one event of a run. */
  lemma ChatEvent(v: ServerView, conn: ConnId, message: string) returns (w: ServerView)
    requires conn in v.live && conn in v.loginIds && !("#login" <= message)
    ensures Step(v, FromClient(conn, message, Done, Done)) == Some(w)
    ensures w.terminated == v.terminated && w.live == v.live && w.loginIds == v.loginIds
    ensures w.outbox == v.outbox + [ToAll(v.live, RelayLine(v.loginIds[conn], message))]
  {
    w := Step(v, FromClient(conn, message, Done, Done)).value;
    RelayFromLoggedIn(v, conn, message, Done, Done);
  }

  /** A run split in two: the second part starts where the first ended. */
  lemma {:induction false} ReplayAppend(v: ServerView, first: seq<ServerEvent>, second: seq<ServerEvent>)
    ensures Replay(v, first + second)
         == match Replay(v, first) case None => None case Some(w) => Replay(w, second)
    decreases |first|
  {
    if first == [] {
      assert first + second == second;
    } else if !v.terminated {
      assert (first + second)[0] == first[0] && (first + second)[1..] == first[1..] + second;
      var w := Step(v, first[0]);
      if w.Some? {
        ReplayAppend(w.value, first[1..], second);
      }
    }
  }

  /** Two clients connect and log in as alice and bob. */
  function LoginEvents(alice: string, bob: string): seq<ServerEvent> {
    [Connected(1), Connected(2), FromClient(1, LoginLine(alice), Done, Done), FromClient(2, LoginLine(bob), Done, Done)]
  }

  /** Then alice chats, bob leaves and alice chats again. */
  function ChatEvents(hello: string, again: string): seq<ServerEvent> {
    [FromClient(1, hello, Done, Done), Disconnected(2), FromClient(1, again, Done, Done)]
  }

  /** Two connections, each announced to both once it logs in. */
  lemma LoginsOnTwoConnections(v: ServerView, alice: string, bob: string)
    requires !v.terminated && v.live == {1, 2} && v.loginIds == map[] && Trimmed(alice) && Trimmed(bob)
    ensures var r := Replay(v, [FromClient(1, LoginLine(alice), Done, Done), FromClient(2, LoginLine(bob), Done, Done)]);
      && r.Some? && !r.value.terminated
      && r.value.live == {1, 2}
      && r.value.loginIds == map[1 := alice, 2 := bob]
      && r.value.outbox == v.outbox + [ToAll({1, 2}, LoggedOnNotice(alice)), ToAll({1, 2}, LoggedOnNotice(bob))]
  {
    var e3, e4 := FromClient(1, LoginLine(alice), Done, Done), FromClient(2, LoginLine(bob), Done, Done);
    LoginEvent(v, 1, alice);
    var s3 := Step(v, e3).value;
    LoginEvent(s3, 2, bob);
    var s4 := Step(s3, e4).value;
    assert s4.loginIds == map[1 := alice, 2 := bob];
    var none: seq<ServerEvent> := [];
    ReplayFirst(s3, e4, none);
    ReplayFirst(v, e3, [e4]);
    assert [e3, e4] == [e3] + [e4] && [e4] == [e4] + none;
  }

  /** Each login is announced to both connections held at that moment. */
  lemma TwoLogins(alice: string, bob: string)
    requires Trimmed(alice) && Trimmed(bob)
    ensures var r := Replay(ServerView(DefaultPort, true, false, {}, map[], [], [], []), LoginEvents(alice, bob));
      && r.Some? && !r.value.terminated
      && r.value.live == {1, 2}
      && r.value.loginIds == map[1 := alice, 2 := bob]
      && r.value.outbox == [ToAll({1, 2}, LoggedOnNotice(alice)), ToAll({1, 2}, LoggedOnNotice(bob))]
  {
    var e1, e2 := Connected(1), Connected(2);
    var logins := [FromClient(1, LoginLine(alice), Done, Done), FromClient(2, LoginLine(bob), Done, Done)];
    var s0 := ServerView(DefaultPort, true, false, {}, map[], [], [], []);
    var s1 := Step(s0, e1).value;
    var s2 := Step(s1, e2).value;
    assert s2.live == {1, 2} && s2.loginIds == map[] && s2.outbox == [] && !s2.terminated;
    var none: seq<ServerEvent> := [];
    ReplayFirst(s1, e2, none);
    ReplayFirst(s0, e1, [e2]);
    assert [e1, e2] == [e1] + [e2] && [e2] == [e2] + none;
    assert LoginEvents(alice, bob) == [e1, e2] + logins;
    ReplayAppend(s0, [e1, e2], logins);
    LoginsOnTwoConnections(s2, alice, bob);
  }

  /** Connection 2 leaves; connection 1 chats to the one connection left. */
  lemma LeaveThenChat(v: ServerView, again: string)
    requires !v.terminated && v.live == {1, 2} && v.loginIds.Keys == {1, 2} && !("#login" <= again)
    ensures var r := Replay(v, [Disconnected(2), FromClient(1, again, Done, Done)]);
      && r.Some?
      && r.value.live == {1}
      && r.value.loginIds == map[1 := v.loginIds[1]]
      && r.value.outbox == v.outbox + [ToAll({1}, RelayLine(v.loginIds[1], again))]
  {
    var e6, e7 := Disconnected(2), FromClient(1, again, Done, Done);
    var s6 := Step(v, e6).value;
    assert s6.live == {1} && !s6.terminated;
    assert s6.loginIds == map[1 := v.loginIds[1]];
    var s7 := ChatEvent(s6, 1, again);
    var none: seq<ServerEvent> := [];
    ReplayFirst(s6, e7, none);
    ReplayFirst(v, e6, [e7]);
    assert [e6, e7] == [e6] + [e7] && [e7] == [e7] + none;
  }

  /**
   * A chat line reaches every connection held, and one that has left no
   * longer receives anything nor keeps its id.
   */
  lemma ChatThenLeave(v: ServerView, hello: string, again: string)
    requires !v.terminated && v.live == {1, 2} && v.loginIds.Keys == {1, 2}
    requires !("#login" <= hello) && !("#login" <= again)
    ensures var r := Replay(v, ChatEvents(hello, again));
      && r.Some?
      && r.value.live == {1}
      && r.value.loginIds == map[1 := v.loginIds[1]]
      && r.value.outbox == v.outbox + [ToAll(v.live, RelayLine(v.loginIds[1], hello))]
                                    + [ToAll({1}, RelayLine(v.loginIds[1], again))]
  {
    var e5 := FromClient(1, hello, Done, Done);
    var rest := [Disconnected(2), FromClient(1, again, Done, Done)];
    var s5 := ChatEvent(v, 1, hello);
    LeaveThenChat(s5, again);
    ReplayFirst(v, e5, rest);
    assert ChatEvents(hello, again) == [e5] + rest;
  }

  /**
   * The whole run: two logins, a chat line, bob leaves, another chat line.
   * Each announcement and chat line goes to the connections held at that
   * moment, and the leaver's id is forgotten.
   */
  lemma TwoClients(alice: string, bob: string, hello: string, again: string)
    requires Trimmed(alice) && Trimmed(bob) && !("#login" <= hello) && !("#login" <= again)
    ensures var r := Replay(ServerView(DefaultPort, true, false, {}, map[], [], [], []),
                            LoginEvents(alice, bob) + ChatEvents(hello, again));
      && r.Some?
      && r.value.live == {1}
      && r.value.loginIds == map[1 := alice]
      && r.value.outbox == [ToAll({1, 2}, LoggedOnNotice(alice)), ToAll({1, 2}, LoggedOnNotice(bob)),
                            ToAll({1, 2}, RelayLine(alice, hello)), ToAll({1}, RelayLine(alice, again))]
  {
    var s0 := ServerView(DefaultPort, true, false, {}, map[], [], [], []);
    TwoLogins(alice, bob);
    ReplayAppend(s0, LoginEvents(alice, bob), ChatEvents(hello, again));
    ChatThenLeave(Replay(s0, LoginEvents(alice, bob)).value, hello, again);
  }

  // ------------------------------------------------------------ the server object

  class EchoServer {
    var port: int
    var listening: bool
    var terminated: bool
    var live: set<ConnId>
    var loginIds: map<ConnId, string>
    var outbox: seq<Outgoing>
    var display: seq<string>
    var console: seq<string>

    function View(): ServerView
      reads this
    {
      ServerView(port, listening, terminated, live, loginIds, outbox, display, console)
    }

    ghost predicate Valid()
      reads this
    {
      Consistent(View())
    }

    /** EchoServer(port, serverUI): a server on port that is not listening yet. */
    constructor (port: int)
      requires InInt32(port)
      ensures Valid()
      ensures View() == ServerView(port, false, false, {}, map[], [], [], [])
    {
      this.port := port;
      listening := false;
      terminated := false;
      live := {};
      loginIds := map[];
      outbox := [];
      display := [];
      console := [];
    }

    // ---- calls into the networking library

    /** The library accepts a new connection. */
    method ClientConnected(conn: ConnId)
      requires Valid() && !terminated && conn !in live
      modifies this
      ensures Valid() && View() == Accept(old(View()), conn)
    {
      live := live + {conn};
      loginIds := loginIds - {conn};
    }

    /** The library drops a connection; dropping one it does not hold changes nothing. */
    method ClientDisconnected(conn: ConnId)
      requires Valid()
      modifies this
      ensures Valid() && View() == Disconnect(old(View()), conn)
    {
      live := live - {conn};
      loginIds := loginIds - {conn};
    }

    /** client.sendToClient(text); ok is false where it throws. */
    method SendToClient(conn: ConnId, text: string, io: IoOutcome) returns (ok: bool)
      modifies this`outbox
      ensures ok == io.Done?
      ensures outbox == old(outbox) + (if ok then [ToClient(conn, text)] else [])
    {
      ok := io.Done?;
      if ok {
        outbox := outbox + [ToClient(conn, text)];
      }
    }

    /** client.close(); the connection and its info bag go away unless it throws. */
    method CloseClient(conn: ConnId, io: IoOutcome) returns (ok: bool)
      modifies this`live, this`loginIds
      ensures ok == io.Done?
      ensures live == if ok then old(live) - {conn} else old(live)
      ensures loginIds == if ok then old(loginIds) - {conn} else old(loginIds)
    {
      ok := io.Done?;
      if ok {
        live := live - {conn};
        loginIds := loginIds - {conn};
      }
    }

    /** sendToAllClients(text): to every connection held, logged in or not. */
    method SendToAllClients(text: string)
      modifies this`outbox
      ensures outbox == old(outbox) + [ToAll(live, text)]
    {
      outbox := outbox + [ToAll(live, text)];
    }

    /** stopListening(). */
    method StopListening()
      modifies this`listening
      ensures !listening
    {
      listening := false;
    }

    /** listen(); ok is false where it throws IOException. */
    method Listen(io: IoOutcome) returns (ok: bool)
      modifies this`listening
      ensures ok == io.Done?
      ensures listening == (ok || old(listening))
    {
      ok := io.Done?;
      if ok {
        listening := true;
      }
    }

    /** close(): stop listening and drop every connection; ok is false where it throws. */
    method Close(io: IoOutcome) returns (ok: bool)
      modifies this`listening, this`live, this`loginIds
      ensures ok == io.Done?
      ensures if ok then !listening && live == {} && loginIds == map[]
              else listening == old(listening) && live == old(live) && loginIds == old(loginIds)
    {
      ok := io.Done?;
      if ok {
        listening := false;
        live := {};
        loginIds := map[];
      }
    }

    /** setPort(port): no range check. */
    method SetPort(p: int)
      modifies this`port
      ensures port == p
    {
      port := p;
    }

    // ---- the handlers

    /** The try block that answers a refused line, as Refuse describes it. */
    method RefuseAndClose(conn: ConnId, notice: string, shown: string, onError: string,
                          send: IoOutcome, close: IoOutcome)
      modifies this
      ensures View() == Refuse(old(View()), conn, notice, shown, onError, send, close)
    {
      var ok := SendToClient(conn, notice, send);
      if ok {
        display := display + [shown];
        ok := CloseClient(conn, close);
      }
      if !ok {
        display := display + [onError];
      }
    }

    /**
     * handleMessageFromClient(message, conn); raised is true where the
     * handler throws (substring(7) on a bare "#login"), and then nothing changed.
     */
    method HandleMessageFromClient(conn: ConnId, message: string, send: IoOutcome, close: IoOutcome)
      returns (raised: bool)
      requires Valid() && !terminated && conn in live
      modifies this
      ensures Valid()
      ensures raised == AfterMessageFromClient(old(View()), conn, message, send, close).None?
      ensures View() == if raised then old(View()) else AfterMessageFromClient(old(View()), conn, message, send, close).value
    {
      if "#login" <= message {
        raised := HandleLogin(conn, message, send, close);
      } else {
        raised := false;
        HandleChat(conn, message, send, close);
      }
    }

    /** The branch for a line that starts with "#login". */
    method HandleLogin(conn: ConnId, message: string, send: IoOutcome, close: IoOutcome) returns (raised: bool)
      requires "#login" <= message
      modifies this
      ensures raised == AfterLogin(old(View()), conn, message, send, close).None?
      ensures View() == if raised then old(View()) else AfterLogin(old(View()), conn, message, send, close).value
    {
      if conn !in loginIds {
        raised := TakeLoginId(conn, message);
      } else {
        raised := false;
        var loginId := loginIds[conn];
        RefuseAndClose(conn, AlreadyLoggedInNotice(loginId),
                       "Client attempted to re-login. Closing connection.",
                       "Error closing connection for re-login attempt.", send, close);
      }
    }

    /** A "#login" line from a connection without an id: record the id and announce it. */
    method TakeLoginId(conn: ConnId, message: string) returns (raised: bool)
      requires "#login" <= message && conn !in loginIds
      modifies this
      ensures raised <==> |message| < 7
      ensures raised ==> View() == old(View())
      ensures !raised ==> View() == Admit(old(View()), conn, message, Trim(message[7..]))
    {
      if |message| < 7 {
        // message.substring(7) throws StringIndexOutOfBoundsException
        raised := true;
      } else {
        raised := false;
        ghost var was := View();
        var loginID := Trim(message[7..]);
        loginIds := loginIds[conn := loginID];
        display := display + ["Message received: " + message + " from null."];
        display := display + [LoggedOnNotice(loginID)];
        SendToAllClients(LoggedOnNotice(loginID));
        assert View() == Admit(was, conn, message, loginID);
      }
    }

    /** The branch for any other line. */
    method HandleChat(conn: ConnId, message: string, send: IoOutcome, close: IoOutcome)
      modifies this
      ensures View() == AfterChat(old(View()), conn, message, send, close)
    {
      if conn in loginIds {
        var loginId := loginIds[conn];
        display := display + ["Message received: " + message + " from " + loginId];
        SendToAllClients(RelayLine(loginId, message));
      } else {
        RefuseAndClose(conn, PleaseLogInNotice,
                       "Unauthorized message attempt from a client without login ID. Closing connection.",
                       "Unexpected error closing client connection.", send, close);
      }
    }

    /** handleMessageFromServerUI(message). */
    method HandleMessageFromServerUI(message: string, io: IoOutcome)
      requires Valid() && !terminated
      modifies this
      ensures Valid() && View() == AfterMessageFromServerUI(old(View()), message, io)
    {
      if "#" <= message {
        HandleCommand(message, io);
      } else {
        display := display + [message];
        SendToAllClients(OperatorLine(message));
      }
    }

    /** handleCommand(command); io is the outcome of close() or listen() where the command calls one. */
    method HandleCommand(command: string, io: IoOutcome)
      requires Valid() && !terminated
      modifies this
      ensures Valid() && View() == AfterCommand(old(View()), command, io)
    {
      if command == "#quit" {
        display := display + ["Server quit gracefully"];
        terminated := true;
      } else if command == "#stop" {
        StopListening();
        display := display + ["Server stopped listening for connections."];
      } else if command == "#close" {
        CloseServer(io);
      } else if "#setport" <= command {
        SetPortFromCommand(command);
      } else if command == "#start" {
        StartListening(io);
      } else if command == "#getport" {
        display := display + ["Current port: " + IntToString(port)];
      } else {
        display := display + ["Error: command not in system"];
      }
    }

    /** The "#close" branch. */
    method CloseServer(io: IoOutcome)
      modifies this
      ensures View() == CloseCommand(old(View()), io)
    {
      var ok := Close(io);
      if ok {
        display := display + ["Server closed and all clients disconnected."];
      } else {
        display := display + ["Error closing server: " + io.reason];
      }
    }

    /** The "#setport" branch: Integer.parseInt(command.split(" ")[1]) and its two exceptions. */
    method SetPortFromCommand(command: string)
      modifies this
      ensures View() == SetPortCommand(old(View()), command)
    {
      if !listening {
        match SetPortArgument(command)
        case PortValue(p) =>
          SetPort(p);
          display := display + ["Port is now: " + IntToString(p)];
        case PortProblem(InvalidPortNumber) =>
          display := display + ["Error: Invalid port number"];
        case PortProblem(NoPortSpecified) =>
          display := display + ["Error: No port specified"];
      } else {
        console := console + ["Error: cannot set a new port when server is open"];
      }
    }

    /** The "#start" branch. */
    method StartListening(io: IoOutcome)
      modifies this
      ensures View() == StartCommand(old(View()), io)
    {
      if !listening {
        var ok := Listen(io);
        if ok {
          display := display + ["Server started listening for new clients"];
        } else {
          display := display + ["Error (Server cannot start): " + io.reason];
        }
      } else {
        console := console + ["Error: Server is already listening"];
      }
    }
  }
}
