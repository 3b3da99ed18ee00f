/**
 * The chat client (ChatClient): the interpreter of the lines its user types,
 * the login line it sends once connected, and the display of what the server
 * sends back.
 *
 * The state of the client, ClientView, is the host and port it connects to,
 * its login id, the connected and terminated flags, and three logs: the
 * lines sent to the server (sendToServer), what was shown on the user's
 * display (clientUI.display) and what was printed on standard output
 * (System.out.println).  Each handler is a function of the old state, the
 * line and the outcomes of the library calls it makes; the class ChatClient
 * performs the same steps on fields and is proved to reach the state the
 * function gives.
 */
module ChatClientModel {
  import opened JavaText
  import opened Protocol

  datatype ClientView = ClientView(
    host: string,
    port: int,
    loginID: string,
    connected: bool,
    terminated: bool,
    toServer: seq<string>,
    display: seq<string>,
    console: seq<string>)

  /** The lines handleCommand recognises, each by exact equality. */
  const ClientCommands: set<string> :=
    {"#quit", "#logoff", "#sethost", "#setport", "#login", "#gethost", "#getport"}

  /** The port is a Java int. */
  predicate Consistent(v: ClientView) {
    InInt32(v.port)
  }

  // ------------------------------------------------------------ the networking library

  /**
   * sendToServer(msg): None where it throws IOException, which it always
   * does without an open connection.
   */
  function Send(v: ClientView, msg: string, io: IoOutcome): (r: Option<ClientView>)
    ensures r.Some? <==> v.connected && io.Done?
    ensures r.Some? ==> r.value == v.(toServer := v.toServer + [msg])
  {
    if v.connected && io.Done? then Some(v.(toServer := v.toServer + [msg])) else None
  }

  /**
   * connectionEstablished(): send "#login " and the id; show an error where
   * that send throws.
   */
  function AfterConnectionEstablished(v: ClientView, io: IoOutcome): (r: ClientView)
    ensures r.toServer == v.toServer + [LoginLine(v.loginID)] <==> v.connected && io.Done?
    ensures r.display == v.display + ["Error: Unable to send login message to server."] <==> !(v.connected && io.Done?)
    ensures r.(toServer := v.toServer, display := v.display) == v
  {
    match Send(v, LoginLine(v.loginID), io)
    case Some(w) => w
    case None => v.(display := v.display + ["Error: Unable to send login message to server."])
  }

  /**
   * openConnection(): nothing where a connection is open; otherwise the
   * connection comes up when the library lets it, and then
   * connectionEstablished() sends the login line.
   */
  function Open(v: ClientView, open: IoOutcome, loginSend: IoOutcome): (r: ClientView)
    ensures r.connected <==> v.connected || open.Done?
    ensures v.connected || open.Failed? ==> r == v
    ensures !v.connected && open.Done? ==>
      (r.toServer == v.toServer + [LoginLine(v.loginID)] <==> loginSend.Done?)
    ensures r.host == v.host && r.port == v.port && r.loginID == v.loginID && r.console == v.console
  {
    if v.connected || open.Failed? then v
    else AfterConnectionEstablished(v.(connected := true), loginSend)
  }

  /**
   * closeConnection(), whose IOException the callers catch: the connection
   * is gone unless it throws.
   */
  function CloseConnection(v: ClientView, close: IoOutcome): (r: ClientView)
    ensures !r.connected <==> !v.connected || close.Done?
    ensures r.(connected := v.connected) == v
  {
    v.(connected := v.connected && close.Failed?)
  }

  /** quit(): close the connection, ignoring a failure, and exit. */
  function AfterQuit(v: ClientView, close: IoOutcome): (r: ClientView)
    ensures r.terminated
    ensures r.connected ==> v.connected && close.Failed?
    ensures r.(connected := v.connected, terminated := v.terminated) == v
  {
    CloseConnection(v, close).(terminated := true)
  }

  // ------------------------------------------------------------ the user's commands

  /** "#logoff": close the connection when there is one. */
  function AfterLogoff(v: ClientView, close: IoOutcome): (r: ClientView)
    ensures r.connected <==> v.connected && close.Failed?
    ensures r.(connected := v.connected, console := v.console) == v
    ensures |r.console| == |v.console| + 1
  {
    if v.connected then
      if close.Done? then
        v.(connected := false, console := v.console + ["Disconnected from server"])
      else
        v.(console := v.console + ["Error logging off: " + close.reason])
    else
      v.(console := v.console + ["Error: client is not connected"])
  }

  /**
   * The body of the "#sethost" branch for an arbitrary command: the second
   * field of command.trim().split(" ") becomes the host while disconnected.
   */
  function SetHostEffect(v: ClientView, command: string): (r: ClientView)
    ensures r.host != v.host ==> !v.connected && |Split(Trim(command))| > 1 && r.host == Split(Trim(command))[1]
    ensures r.(host := v.host, console := v.console) == v
    ensures |r.console| == |v.console| + 1
  {
    var fields := Split(Trim(command));
    if |fields| > 1 then
      if !v.connected then
        v.(host := fields[1], console := v.console + ["Host set to: " + fields[1]])
      else
        v.(console := v.console + ["Error: Must log off before setting host."])
    else
      v.(console := v.console + ["Error: No host specified."])
  }

  /**
   * The body of the "#setport" branch for an arbitrary command: while
   * disconnected the second field, parsed as a Java int, becomes the port.
   */
  function SetPortEffect(v: ClientView, command: string): (r: ClientView)
    ensures r.port != v.port ==>
      !v.connected && |Split(Trim(command))| > 1 && ParseInt(Split(Trim(command))[1]) == Some(r.port)
    ensures Consistent(v) ==> Consistent(r)
    ensures r.(port := v.port, console := v.console) == v
    ensures |r.console| == |v.console| + 1
  {
    var fields := Split(Trim(command));
    if |fields| > 1 then
      if !v.connected then
        match ParseInt(fields[1])
        case Some(p) => v.(port := p, console := v.console + ["Port set to: " + IntToString(p)])
        case None => v.(console := v.console + ["Error: Invalid port number."])
      else
        v.(console := v.console + ["Error: Must log off before setting port."])
    else
      v.(console := v.console + ["Error: No port specified."])
  }

  /** "#login": open a connection when there is none. */
  function AfterLoginCommand(v: ClientView, open: IoOutcome, loginSend: IoOutcome): (r: ClientView)
    ensures r.connected <==> v.connected || open.Done?
    ensures r.host == v.host && r.port == v.port && r.loginID == v.loginID && r.terminated == v.terminated
    ensures v.connected || open.Failed? ==> r.toServer == v.toServer && r.display == v.display
  {
    if v.connected then
      v.(console := v.console + ["Error: client already connected"])
    else if open.Done? then
      var w := Open(v, open, loginSend);
      w.(console := w.console + ["Connected to server at " + w.host + " with port " + IntToString(w.port)])
    else
      v.(console := v.console + ["Error connecting to server: " + open.reason])
  }

  /**
   * handleCommand: the branches are consecutive ifs, not an else-if chain,
   * each guarded by exact equality.  first is the outcome of the
   * closeConnection() or openConnection() the command makes, second that of
   * the login line sent once a connection opens.
   */
  function AfterCommand(v: ClientView, command: string, first: IoOutcome, second: IoOutcome): (r: ClientView)
    ensures command !in ClientCommands ==> r == v
    ensures r.loginID == v.loginID
    ensures r.terminated <==> v.terminated || command == "#quit"
    ensures r.toServer == v.toServer ||
      (command == "#login" && !v.connected && first.Done? && second.Done? &&
       r.toServer == v.toServer + [LoginLine(v.loginID)])
    ensures !v.connected && r.connected ==> command == "#login" && first.Done?
    ensures v.connected && !r.connected ==> (command == "#quit" || command == "#logoff") && first.Done?
    ensures Consistent(v) ==> Consistent(r)
  {
    var afterQuit := if command == "#quit" then AfterQuit(v, first) else v;
    var afterLogoff := if command == "#logoff" then AfterLogoff(afterQuit, first) else afterQuit;
    var afterSetHost := if command == "#sethost" then SetHostEffect(afterLogoff, command) else afterLogoff;
    var afterSetPort := if command == "#setport" then SetPortEffect(afterSetHost, command) else afterSetHost;
    var afterLogin := if command == "#login" then AfterLoginCommand(afterSetPort, first, second) else afterSetPort;
    var afterGetHost :=
      if command == "#gethost" then afterLogin.(console := afterLogin.console + ["Current host: " + afterLogin.host])
      else afterLogin;
    if command == "#getport" then
      afterGetHost.(console := afterGetHost.console + ["Current port: " + IntToString(afterGetHost.port)])
    else afterGetHost
  }

  /**
   * handleMessageFromClientUI: a line that starts with '#' is a command;
   * any other line is sent to the server as typed, and where that send
   * throws the client says so and quits.  For a line that is not a command,
   * first is the outcome of the send and second that of the closeConnection()
   * in quit().
   */
  function AfterMessageFromClientUI(v: ClientView, message: string, first: IoOutcome, second: IoOutcome): (r: ClientView)
    ensures !("#" <= message) ==> (r.toServer == v.toServer + [message] <==> v.connected && first.Done?)
    ensures !("#" <= message) && !(v.connected && first.Done?) ==>
      r.terminated && r.toServer == v.toServer &&
      r.display == v.display + ["Could not send message to server.  Terminating client."]
    // a command line is never sent as typed
    ensures "#" <= message ==>
      r.toServer == v.toServer || (message == "#login" && r.toServer == v.toServer + [LoginLine(v.loginID)])
    ensures r.loginID == v.loginID
    ensures Consistent(v) ==> Consistent(r)
  {
    if "#" <= message then
      AfterCommand(v, message, first, second)
    else
      match Send(v, message, first)
      case Some(w) => w
      case None =>
        AfterQuit(v.(display := v.display + ["Could not send message to server.  Terminating client."]), second)
  }

  // ------------------------------------------------------------ what the commands do

  /** "#quit" closes the connection, ignoring a failure, and ends the client. */
  lemma QuitCommand(v: ClientView, close: IoOutcome, second: IoOutcome)
    ensures var r := AfterCommand(v, "#quit", close, second);
      && r.terminated
      && (r.connected <==> v.connected && close.Failed?)
      && r.toServer == v.toServer && r.display == v.display && r.console == v.console
  {
  }

  /**
   * "#logoff" while connected closes the connection, or reports why it could
   * not; while disconnected it only reports the error.
   */
  lemma LogoffCommand(v: ClientView, close: IoOutcome, second: IoOutcome)
    ensures var r := AfterCommand(v, "#logoff", close, second);
      if !v.connected then
        r == v.(console := v.console + ["Error: client is not connected"])
      else if close.Done? then
        r == v.(connected := false, console := v.console + ["Disconnected from server"])
      else
        r == v.(console := v.console + ["Error logging off: " + close.reason])
  {
  }

  /**
   * "#login" while connected only reports the error and opens nothing; while
   * disconnected it opens a connection to the same host and port and, once
   * it is up, sends the login line.
   */
  lemma LoginCommand(v: ClientView, open: IoOutcome, loginSend: IoOutcome)
    ensures var r := AfterCommand(v, "#login", open, loginSend);
      if v.connected then
        r == v.(console := v.console + ["Error: client already connected"])
      else if open.Failed? then
        r == v.(console := v.console + ["Error connecting to server: " + open.reason])
      else
        && r.connected && r.host == v.host && r.port == v.port
        && r.console == v.console + ["Connected to server at " + v.host + " with port " + IntToString(v.port)]
        && (r.toServer == v.toServer + [LoginLine(v.loginID)] <==> loginSend.Done?)
  {
  }

  /** "#gethost" and "#getport" print the current value and change nothing else. */
  lemma GetCommands(v: ClientView, first: IoOutcome, second: IoOutcome)
    ensures AfterCommand(v, "#gethost", first, second) == v.(console := v.console + ["Current host: " + v.host])
    ensures AfterCommand(v, "#getport", first, second) ==
      v.(console := v.console + ["Current port: " + IntToString(v.port)])
  {
  }

  /**
   * "#sethost" is entered only on the bare word, whose trimmed split has a
   * single field: the branch that would set the host is never taken.
   */
  lemma SetHostOnlyReports(v: ClientView, first: IoOutcome, second: IoOutcome)
    ensures AfterCommand(v, "#sethost", first, second) ==
      v.(console := v.console + ["Error: No host specified."])
  {
    assert Trimmed("#sethost") && ' ' !in "#sethost";
  }

  /** The same holds for "#setport": the port is never set from a command. */
  lemma SetPortOnlyReports(v: ClientView, first: IoOutcome, second: IoOutcome)
    ensures AfterCommand(v, "#setport", first, second) ==
      v.(console := v.console + ["Error: No port specified."])
  {
    assert Trimmed("#setport") && ' ' !in "#setport";
  }

  /** No command ever changes the host or the port. */
  lemma CommandsKeepHostAndPort(v: ClientView, command: string, first: IoOutcome, second: IoOutcome)
    ensures AfterCommand(v, command, first, second).host == v.host
    ensures AfterCommand(v, command, first, second).port == v.port
  {
    if command == "#sethost" {
      SetHostOnlyReports(v, first, second);
    } else if command == "#setport" {
      SetPortOnlyReports(v, first, second);
    }
  }

  /**
   * With an argument, "#sethost h" and "#setport p" match no branch: they
   * print nothing and change nothing.
   */
  lemma CommandsWithArgumentIgnored(v: ClientView, argument: string, first: IoOutcome, second: IoOutcome)
    ensures AfterCommand(v, "#sethost " + argument, first, second) == v
    ensures AfterCommand(v, "#setport " + argument, first, second) == v
  {
    assert |"#sethost " + argument| > 8 && |"#setport " + argument| > 8;
  }

  /**
   * What the unreachable "#sethost" block would do with an argument: while
   * disconnected, take it as the host.
   */
  lemma SetHostEffectWithArgument(v: ClientView, host: string)
    requires host != [] && ' ' !in host && Trimmed(host)
    ensures SetHostEffect(v, "#sethost " + host) ==
      if v.connected then v.(console := v.console + ["Error: Must log off before setting host."])
      else v.(host := host, console := v.console + ["Host set to: " + host])
  {
    var command := "#sethost " + host;
    assert command[0] == '#' && command[|command| - 1] == host[|host| - 1];
    assert JoinWithSpaces(["#sethost", host]) == command;
    SplitOfJoin(["#sethost", host]);
  }

  /**
   * What the unreachable "#setport" block would do with a number: while
   * disconnected, take it as the port when it is a Java int.
   */
  lemma SetPortEffectWithNumber(v: ClientView, n: int)
    requires !v.connected
    ensures SetPortEffect(v, "#setport " + IntToString(n)) ==
      if InInt32(n) then v.(port := n, console := v.console + ["Port set to: " + IntToString(n)])
      else v.(console := v.console + ["Error: Invalid port number."])
  {
    var token := IntToString(n);
    var command := "#setport " + token;
    assert command[0] == '#' && command[|command| - 1] == token[|token| - 1];
    assert JoinWithSpaces(["#setport", token]) == command;
    SplitOfJoin(["#setport", token]);
    ParseIntOfIntToString(n);
  }

  /** A line that starts with '#' and is no command leaves the client as it was. */
  lemma UnknownCommandIgnored(v: ClientView, message: string, first: IoOutcome, second: IoOutcome)
    requires "#" <= message && message !in ClientCommands
    ensures AfterMessageFromClientUI(v, message, first, second) == v
  {
  }

  /** A chat line goes to the server exactly as typed, and nothing else changes. */
  lemma ChatLineSent(v: ClientView, message: string, send: IoOutcome, close: IoOutcome)
    requires !("#" <= message) && v.connected && send.Done?
    ensures AfterMessageFromClientUI(v, message, send, close) == v.(toServer := v.toServer + [message])
  {
  }

  // ------------------------------------------------------------ the client object

  class ChatClient {
    var host: string
    var port: int
    const loginID: string
    var connected: bool
    var terminated: bool
    var toServer: seq<string>
    var display: seq<string>
    var console: seq<string>

    function View(): ClientView
      reads this
    {
      ClientView(host, port, loginID, connected, terminated, toServer, display, console)
    }

    ghost predicate Valid()
      reads this
    {
      Consistent(View())
    }

    /**
     * ChatClient(host, port, clientUI, loginID): record where to connect and
     * open the connection, which sends the login line once it is up.
     */
    constructor (host: string, port: int, loginID: string, open: IoOutcome, loginSend: IoOutcome)
      requires InInt32(port)
      ensures Valid()
      ensures View() == Open(ClientView(host, port, loginID, false, false, [], [], []), open, loginSend)
    {
      this.host := host;
      this.port := port;
      this.loginID := loginID;
      connected := false;
      terminated := false;
      toServer := [];
      display := [];
      console := [];
      new;
      var _ := OpenConnection(open, loginSend);
    }

    // ---- calls into the networking library

    /** sendToServer(msg); ok is false where it throws. */
    method SendToServer(msg: string, io: IoOutcome) returns (ok: bool)
      modifies this`toServer
      ensures ok == (connected && io.Done?)
      ensures toServer == old(toServer) + (if ok then [msg] else [])
    {
      ok := connected && io.Done?;
      if ok {
        toServer := toServer + [msg];
      }
    }

    /** closeConnection(); ok is false where it throws, and then the connection stays. */
    method CloseConnection(io: IoOutcome) returns (ok: bool)
      modifies this`connected
      ensures ok == io.Done?
      ensures connected == (old(connected) && !ok)
    {
      ok := io.Done?;
      if ok {
        connected := false;
      }
    }

    /** connectionEstablished(): send the login line. */
    method ConnectionEstablished(io: IoOutcome)
      modifies this
      ensures View() == AfterConnectionEstablished(old(View()), io)
    {
      var ok := SendToServer(LoginLine(loginID), io);
      if !ok {
        display := display + ["Error: Unable to send login message to server."];
      }
    }

    /** openConnection(); ok is false where it throws. */
    method OpenConnection(open: IoOutcome, loginSend: IoOutcome) returns (ok: bool)
      modifies this
      ensures ok == (old(connected) || open.Done?)
      ensures View() == Open(old(View()), open, loginSend)
    {
      if connected {
        return true;
      }
      ok := open.Done?;
      if ok {
        connected := true;
        ConnectionEstablished(loginSend);
      }
    }

    /** quit(): System.exit(0) becomes the terminated flag. */
    method Quit(close: IoOutcome)
      modifies this
      ensures View() == AfterQuit(old(View()), close)
    {
      var _ := CloseConnection(close);
      terminated := true;
    }

    // ---- the handlers

    /** handleMessageFromServer(msg): show it as it came. */
    method HandleMessageFromServer(msg: string)
      requires Valid() && !terminated
      modifies this`display
      ensures Valid()
      ensures View() == old(View()).(display := old(display) + [msg])
    {
      display := display + [msg];
    }

    /** handleMessageFromClientUI(message). */
    method HandleMessageFromClientUI(message: string, first: IoOutcome, second: IoOutcome)
      requires Valid() && !terminated
      modifies this
      ensures Valid() && View() == AfterMessageFromClientUI(old(View()), message, first, second)
    {
      if "#" <= message {
        HandleCommand(message, first, second);
      } else {
        var ok := SendToServer(message, first);
        if !ok {
          display := display + ["Could not send message to server.  Terminating client."];
          Quit(second);
        }
      }
    }

    /** handleCommand(command): consecutive ifs, each on exact equality. */
    method HandleCommand(command: string, first: IoOutcome, second: IoOutcome)
      requires Valid() && !terminated
      modifies this
      ensures Valid() && View() == AfterCommand(old(View()), command, first, second)
    {
      if command == "#quit" {
        Quit(first);
      }
      if command == "#logoff" {
        if connected {
          var ok := CloseConnection(first);
          if ok {
            console := console + ["Disconnected from server"];
          } else {
            console := console + ["Error logging off: " + first.reason];
          }
        } else {
          console := console + ["Error: client is not connected"];
        }
      }
      if command == "#sethost" {
        SetHostFromCommand(command);
      }
      if command == "#setport" {
        SetPortFromCommand(command);
      }
      if command == "#login" {
        if connected {
          console := console + ["Error: client already connected"];
        } else {
          var ok := OpenConnection(first, second);
          if ok {
            console := console + ["Connected to server at " + host + " with port " + IntToString(port)];
          } else {
            console := console + ["Error connecting to server: " + first.reason];
          }
        }
      }
      if command == "#gethost" {
        console := console + ["Current host: " + host];
      }
      if command == "#getport" {
        console := console + ["Current port: " + IntToString(port)];
      }
    }

    /** The body of the "#sethost" branch. */
    method SetHostFromCommand(command: string)
      modifies this
      ensures View() == SetHostEffect(old(View()), command)
    {
      ghost var was := View();
      var fields := Split(Trim(command));
      if |fields| > 1 {
        if !connected {
          SetHost(fields[1]);
          console := console + ["Host set to: " + fields[1]];
          assert View() == was.(host := fields[1], console := was.console + ["Host set to: " + fields[1]]);
        } else {
          console := console + ["Error: Must log off before setting host."];
        }
      } else {
        console := console + ["Error: No host specified."];
      }
    }

    /** The body of the "#setport" branch; a field that does not parse is the NumberFormatException. */
    method SetPortFromCommand(command: string)
      modifies this
      ensures View() == SetPortEffect(old(View()), command)
    {
      var fields := Split(Trim(command));
      if |fields| > 1 {
        if !connected {
          match ParseInt(fields[1])
          case Some(p) =>
            SetPort(p);
            console := console + ["Port set to: " + IntToString(p)];
          case None =>
            console := console + ["Error: Invalid port number."];
        } else {
          console := console + ["Error: Must log off before setting port."];
        }
      } else {
        console := console + ["Error: No port specified."];
      }
    }

    /** setHost(host). */
    method SetHost(h: string)
      modifies this`host
      ensures host == h
    {
      host := h;
    }

    /** setPort(port). */
    method SetPort(p: int)
      modifies this`port
      ensures port == p
    {
      port := p;
    }
  }
}
