# SEG2105 chat: EchoServer and ChatClient in Dafny

This project models the two message handlers of a small OCSF-based chat system:

- The server, `EchoServer`, gates each client connection behind a login line. A line that starts with `#login` sets the connection's login id once. A second login line, or a chat line sent before logging in, is answered with an error notice, and the connection is closed when both the send and the close succeed. A chat line from a logged-in connection is relayed to every connection as `<id>> <line>`.
- The server operator types lines. A line starting with `#` is a command: `#quit`, `#stop`, `#close`, `#setport <n>`, `#start` or `#getport`. Any other line is sent to every connection as `SERVER MESSAGE> <line>`.
- The client, `ChatClient`, sends every line its user types to the server. Lines starting with `#` are the exception: they are commands (`#quit`, `#logoff`, `#sethost`, `#setport`, `#login`, `#gethost`, `#getport`). Once its connection is up, the client sends `#login <id>`. It shows every line the server sends.

Modules:

- `JavaText` (`java_text.dfy`) gives the Java library behaviour the handlers rely on:
  - `String.trim`;
  - `String.split(" ")`, including the removal of trailing empty fields;
  - `Integer.parseInt`, with its 32-bit range;
  - `Integer.toString`.
- `Protocol` (`protocol.dfy`) holds:
  - the wire lines;
  - the server's reading of a login id;
  - `IoOutcome`, the outcome of a call into the networking library, which throws `IOException` at its own discretion.
- `EchoServerModel` (`echo_server.dfy`) holds:
  - `ServerView`, the server's state: port, the listening and terminated flags, the connections held, each connection's login id, and logs of what was sent to clients, shown on the display and printed to standard output;
  - one pure function per handler giving the new state;
  - lemmas about those functions, and runs of events;
  - the class `EchoServer`, whose methods update fields step by step, as the Java does, and are proved to reach the state the function gives.
- `ChatClientModel` (`chat_client.dfy`) has the same layout for the client: `ClientView`, the functions, the lemmas and the class `ChatClient`.
- `Session` (`session.dfy`) connects the two sides:
  - the login line the client sends is read by the server as that client's id;
  - a chat line typed by the user is relayed under that id;
  - a command line is never sent as typed.

Each call into the networking library takes an `IoOutcome` parameter. These calls are `sendToClient`, `close`, `listen`, `openConnection`, `sendToServer` and `closeConnection`. Every outcome the library may choose is covered by the contracts. `System.exit` becomes the `terminated` flag.

Four behaviours of the code are easy to miss. The model keeps each as written:

- **Broadcasts reach every connection.** Announcements and chat lines do not go only to logged-in connections. `sendToAllClients` reaches every connection held, including ones that have not logged in (`RelayReachesConnectionsWithoutId`). It also reaches the sender.
- **No port range check.** The server's `#setport` accepts any Java `int`, not only 0–65535 (`SetPortArgumentOfNumber`).
- **The client's `#sethost <h>` and `#setport <p>` never act.** The client enters those branches only on the bare words `#sethost` and `#setport`. The argument branch is therefore dead: the bare words always report a missing argument (`SetHostOnlyReports`, `SetPortOnlyReports`), and with an argument the line matches no branch (`CommandsWithArgumentIgnored`). The host and port never change (`CommandsKeepHostAndPort`).
- **A bare `#login` throws.** When a connection without an id sends `#login` alone, `substring(7)` throws. The model reports this as `None`, or `raised`, with no state change.

## Model

| member | source | states |
|---|---|---|
| JavaText.Trim | edu/seg2105/edu/server/backend/EchoServer.java:71 | `trim()` yields a string with no blank (≤ U+0020) at either end, no longer than its input, and leaves a string already in that shape unchanged |
| JavaText.TrimSurrounded | edu/seg2105/edu/server/backend/EchoServer.java:71 | trimming removes exactly the blanks around a core that has no blank ends |
| JavaText.Split | edu/seg2105/edu/server/backend/EchoServer.java:175 | no field of `split(" ")` contains a space |
| JavaText.SplitOfJoin | edu/seg2105/edu/server/backend/EchoServer.java:175 | `split(" ")` gives back space-free fields joined by single spaces, when the last field is non-empty |
| JavaText.SplitOfJoinAndSpaces | edu/seg2105/edu/server/backend/EchoServer.java:175 | any number of spaces after the last field adds no field, because trailing empty strings are dropped |
| JavaText.SplitWordAndSpace | edu/seg2105/edu/server/backend/EchoServer.java:175 | a trailing space adds no field, because trailing empty strings are dropped |
| JavaText.JoinPieces | edu/seg2105/edu/server/backend/EchoServer.java:175 | the fields between spaces, joined back with single spaces, give the original string |
| JavaText.ParseInt | edu/seg2105/edu/server/backend/EchoServer.java:175 | `Integer.parseInt` succeeds only on an optional sign followed by decimal digits. Every such string gives its value, negated after `-`, exactly when that value is a Java int |
| JavaText.ParseIntSignAndZeros | edu/seg2105/edu/server/backend/EchoServer.java:175 | leading zeros and a leading `+` do not change the value, and a `-` negates it |
| JavaText.ParseIntLeadingZerosExample | edu/seg2105/edu/server/backend/EchoServer.java:175 | `"0080"` parses as 80 |
| JavaText.ParseIntSignExamples | edu/seg2105/edu/server/backend/EchoServer.java:175 | `"+80"` parses as 80, and `"-0"` as 0 |
| JavaText.IntToString | edu/seg2105/edu/server/backend/EchoServer.java:198 | the decimal text of an int is non-empty, has no space or blank end, and starts with '-' exactly when the number is negative |
| JavaText.DigitsValueOfNatToDigits | edu/seg2105/edu/server/backend/EchoServer.java:175 | reading back the digits written for n gives n |
| JavaText.ParseIntOfIntToString | edu/seg2105/edu/server/backend/EchoServer.java:175 | `parseInt(toString(n))` is n for every Java int and fails for any other integer |
| Protocol.LoginArgument | edu/seg2105/edu/server/backend/EchoServer.java:71 | `message.substring(7).trim()` fails exactly when the line is shorter than 7 chars, and otherwise is trimmed. Chars are whole Unicode characters, not UTF-16 units |
| Protocol.LoginLineRead | edu/seg2105/client/backend/ChatClient.java:169 | the client's login line starts with `#login`, and the server reads the client's id back from it, trimmed |
| Protocol.LoginLineRoundTrip | edu/seg2105/client/backend/ChatClient.java:169 | an id with no blank ends reaches the server unchanged |
| Protocol.LoginArgumentSkipsSeventhChar | edu/seg2105/edu/server/backend/EchoServer.java:67-71 | any one char after `#login` is skipped, so `#loginXbob` and `#login  bob ` both log in as `bob` |
| Protocol.LoginLineIsNotCommand | edu/seg2105/client/backend/ChatClient.java:141 | the login line is never the bare `#login` command |
| Protocol.LoginLinesAreCommands | edu/seg2105/client/backend/ChatClient.java:77 | a line starting with `#login` starts with `#` |
| EchoServerModel.Refuse | edu/seg2105/edu/server/backend/EchoServer.java:78-84 | the refusal block sends the notice to that connection exactly when the send succeeds, and nothing else. The connection is dropped exactly when both the send and the close succeed. No other connection's id changes, and consistency is kept |
| EchoServerModel.AfterLogin | edu/seg2105/edu/server/backend/EchoServer.java:67-85 | a `#login` line throws exactly when it is the bare word from a connection without an id. Otherwise only that connection's id may change, and at most one message goes out |
| EchoServerModel.AfterChat | edu/seg2105/edu/server/backend/EchoServer.java:86-101 | a line from a connection without an id is never relayed: at most the notice goes to the sender |
| EchoServerModel.AfterMessageFromClient | edu/seg2105/edu/server/backend/EchoServer.java:62-102 | the handler throws only on a bare `#login` without an id. It keeps every other connection's id, changes no port or flag, appends at most one message, keeps ids on held connections only, and never relays a line from a connection without an id |
| EchoServerModel.FirstLogin | edu/seg2105/edu/server/backend/EchoServer.java:67-76 | a first login sets that connection's id to `trim(message[7..])`, keeps all others, and appends exactly `<id> has logged on.` to every connection |
| EchoServerModel.SecondLogin | edu/seg2105/edu/server/backend/EchoServer.java:77-85 | a second login keeps the id, sends `Already logged in as <id>.` to that connection only, broadcasts nothing, and closes the connection when the library allows |
| EchoServerModel.MessageBeforeLogin | edu/seg2105/edu/server/backend/EchoServer.java:92-100 | a line before login is never relayed: only the sender gets `Please log in before sending messages.` when the send succeeds, and the connection is closed when both the send and the close succeed |
| EchoServerModel.RelayFromLoggedIn | edu/seg2105/edu/server/backend/EchoServer.java:87-91 | a line from a logged-in connection goes out exactly once as `<id>> <line>` to every connection held, and no id or connection changes |
| EchoServerModel.RelayReachesConnectionsWithoutId | edu/seg2105/edu/server/backend/EchoServer.java:91 | the relay also reaches connections that have not logged in |
| EchoServerModel.LoginHandshake | edu/seg2105/edu/server/backend/EchoServer.java:67-76 | the client's login line sets the connection's id to the trimmed id and announces it |
| EchoServerModel.SetPortArgument | edu/seg2105/edu/server/backend/EchoServer.java:175-181 | a port that `Integer.parseInt(command.split(" ")[1])` accepts is a Java int |
| EchoServerModel.SetPortArgumentOfToken | edu/seg2105/edu/server/backend/EchoServer.java:175 | `#setport <token>` parses exactly the token |
| EchoServerModel.SetPortTrailingSpaces | edu/seg2105/edu/server/backend/EchoServer.java:175 | spaces after the port token are ignored: `#setport 80   ` reads 80 |
| EchoServerModel.SetPortArgumentOfNumber | edu/seg2105/edu/server/backend/EchoServer.java:175-179 | `#setport n` yields n for any Java int, with no 0–65535 check, and is an invalid port otherwise |
| EchoServerModel.NoSecondField | edu/seg2105/edu/server/backend/EchoServer.java:180-181 | a single word, even with one trailing space, has no second field: "No port specified" |
| EchoServerModel.SetPortWithoutArgument | edu/seg2105/edu/server/backend/EchoServer.java:180-181 | `#setport` and `#setport ` are "No port specified" |
| EchoServerModel.SetPortDoubleSpace | edu/seg2105/edu/server/backend/EchoServer.java:175-179 | two spaces before the argument give an empty second field, which is an invalid port |
| EchoServerModel.SetPortNotNumeric | edu/seg2105/edu/server/backend/EchoServer.java:178-179 | `#setport abc` is an invalid port |
| EchoServerModel.CloseCommand | edu/seg2105/edu/server/backend/EchoServer.java:165-171 | `#close` stops listening and drops every connection when `close()` succeeds, and otherwise changes neither. The port and outbox are untouched |
| EchoServerModel.SetPortCommand | edu/seg2105/edu/server/backend/EchoServer.java:172-185 | the port changes only while not listening, and only to the parsed argument. Nothing but the port and the two logs changes |
| EchoServerModel.StartCommand | edu/seg2105/edu/server/backend/EchoServer.java:186-196 | after `#start` the server is listening exactly when it was, or `listen()` succeeded. Nothing else but the logs changes |
| EchoServerModel.AfterCommand | edu/seg2105/edu/server/backend/EchoServer.java:158-202 | operator commands never send to clients. The port changes only via `#setport` while stopped. Listening stops only via `#stop` or a successful `#close`, and starts only via a successful `#start`. Only `#quit` terminates, and only `#close` drops connections |
| EchoServerModel.SetPortWhileListening | edu/seg2105/edu/server/backend/EchoServer.java:172-185 | `#setport…` while listening only prints the error, and the port is unchanged |
| EchoServerModel.SetPortWhileStopped | edu/seg2105/edu/server/backend/EchoServer.java:173-182 | `#setport…` while stopped sets exactly the parsed port, or reports invalid or missing with nothing changed, and never starts listening |
| EchoServerModel.StartAndStop | edu/seg2105/edu/server/backend/EchoServer.java:162-196 | `#start` while listening only prints "already listening", `#stop` leaves the server not listening, and neither touches the port |
| EchoServerModel.DisplayOnlyCommands | edu/seg2105/edu/server/backend/EchoServer.java:197-201 | `#getport` and an unknown command only add their line to the display |
| EchoServerModel.MoveToPort | edu/seg2105/edu/server/backend/EchoServer.java:162-196 | `#stop`, `#setport n`, `#start` leave the server's port field at n and the server listening |
| EchoServerModel.AfterMessageFromServerUI | edu/seg2105/edu/server/backend/EchoServer.java:148-156 | an operator line reaches clients exactly when it does not start with `#`, and then it is shown and sent to every connection as `SERVER MESSAGE> <line>` |
| EchoServerModel.Step | edu/seg2105/edu/server/backend/EchoServer.java:62-102 | every event keeps the state consistent and only appends to what was sent |
| EchoServerModel.ReplayKeepsConsistent | edu/seg2105/edu/server/backend/EchoServer.java:62-102 | every run keeps the port a Java int and ids on held connections only |
| EchoServerModel.ReplayOnlyAppends | edu/seg2105/edu/server/backend/EchoServer.java:62-102 | what was sent to clients stays sent |
| EchoServerModel.ReplayAppend | edu/seg2105/edu/server/backend/EchoServer.java:62-102 | a run split in two continues from where the first part ended |
| EchoServerModel.TwoLogins | edu/seg2105/edu/server/backend/EchoServer.java:67-76 | two clients logging in are each announced to both connections |
| EchoServerModel.ChatThenLeave | edu/seg2105/edu/server/backend/EchoServer.java:86-91 | a chat line reaches both connections; after one leaves, the next reaches only the one left, and the leaver's id is gone |
| EchoServerModel.TwoClients | edu/seg2105/edu/server/backend/EchoServer.java:62-102 | the run where alice and bob log in, alice chats, bob leaves and alice chats again yields exactly the four expected messages |
| EchoServerModel.EchoServer.HandleMessageFromClient | edu/seg2105/edu/server/backend/EchoServer.java:62-102 | the method reaches the state `AfterMessageFromClient` gives and keeps `Valid()` |
| EchoServerModel.EchoServer.HandleLogin | edu/seg2105/edu/server/backend/EchoServer.java:67-85 | the login branch reaches the state `AfterLogin` gives |
| EchoServerModel.EchoServer.TakeLoginId | edu/seg2105/edu/server/backend/EchoServer.java:70-76 | records `trim(message[7..])` as the id, shows the two lines and announces it, or throws on a line shorter than 7 chars |
| EchoServerModel.EchoServer.HandleChat | edu/seg2105/edu/server/backend/EchoServer.java:86-101 | the chat branch reaches the state `AfterChat` gives |
| EchoServerModel.EchoServer.RefuseAndClose | edu/seg2105/edu/server/backend/EchoServer.java:78-84 | the try block reaches the state `Refuse` gives |
| EchoServerModel.EchoServer.HandleMessageFromServerUI | edu/seg2105/edu/server/backend/EchoServer.java:148-156 | the method reaches the state `AfterMessageFromServerUI` gives |
| EchoServerModel.EchoServer.HandleCommand | edu/seg2105/edu/server/backend/EchoServer.java:158-202 | the method reaches the state `AfterCommand` gives and keeps `Valid()` |
| EchoServerModel.EchoServer.CloseServer | edu/seg2105/edu/server/backend/EchoServer.java:165-171 | the `#close` branch reaches the state `CloseCommand` gives |
| EchoServerModel.EchoServer.SetPortFromCommand | edu/seg2105/edu/server/backend/EchoServer.java:172-185 | the `#setport` branch reaches the state `SetPortCommand` gives |
| EchoServerModel.EchoServer.StartListening | edu/seg2105/edu/server/backend/EchoServer.java:186-196 | the `#start` branch reaches the state `StartCommand` gives |
| EchoServerModel.EchoServer.constructor | edu/seg2105/edu/server/backend/EchoServer.java:47-51 | a new server is on the given port, not listening, with no connections |
| ChatClientModel.Send | edu/seg2105/client/backend/ChatClient.java:81 | `sendToServer` appends the line exactly when a connection is open and the library does not throw |
| ChatClientModel.AfterConnectionEstablished | edu/seg2105/client/backend/ChatClient.java:166-173 | the client sends exactly `#login <id>` when the send succeeds, and otherwise shows the error; nothing else changes |
| ChatClientModel.Open | edu/seg2105/client/backend/ChatClient.java:147 | after `openConnection()` the client is connected exactly when it was, or the library let it connect. A new connection sends the login line when that send succeeds. Host, port and id are untouched |
| ChatClientModel.AfterQuit | edu/seg2105/client/backend/ChatClient.java:178-186 | `quit()` terminates. The connection stays only when it was open and closing it threw |
| ChatClientModel.AfterLogoff | edu/seg2105/client/backend/ChatClient.java:96-108 | `#logoff` leaves the client connected exactly when it was connected and the close threw. It prints one line and changes nothing else |
| ChatClientModel.SetHostEffect | edu/seg2105/client/backend/ChatClient.java:110-121 | the `#sethost` block changes the host only while disconnected, and only to the second field of the trimmed split |
| ChatClientModel.SetPortEffect | edu/seg2105/client/backend/ChatClient.java:124-139 | the `#setport` block changes the port only while disconnected, and only to a parsed Java int |
| ChatClientModel.AfterLoginCommand | edu/seg2105/client/backend/ChatClient.java:141-153 | `#login` leaves the client connected exactly when it was, or the open succeeded. Host, port and id are unchanged, and nothing is sent when no new connection opens |
| ChatClientModel.AfterCommand | edu/seg2105/client/backend/ChatClient.java:92-160 | a `#` line matching no command changes nothing. Only `#quit` terminates. Only a successful `#login` sends, and what it sends is the login line. Only `#login` connects, and only `#quit` or `#logoff` disconnect |
| ChatClientModel.AfterMessageFromClientUI | edu/seg2105/client/backend/ChatClient.java:73-90 | a non-`#` line is sent as typed exactly when a connection is open and the send succeeds; otherwise the client shows "Could not send message to server.  Terminating client." and quits. A `#` line is never sent as typed |
| ChatClientModel.QuitCommand | edu/seg2105/client/backend/ChatClient.java:93-95 | `#quit` terminates, closing the connection when the library allows, and sends and prints nothing |
| ChatClientModel.LogoffCommand | edu/seg2105/client/backend/ChatClient.java:96-107 | `#logoff` when connected closes, or prints the failure; when not connected it prints "Error: client is not connected" and changes nothing else |
| ChatClientModel.LoginCommand | edu/seg2105/client/backend/ChatClient.java:141-153 | `#login` when connected prints the error and does not reopen. When not connected it opens to the same host and port, prints where it connected, and sends the login line when that send succeeds |
| ChatClientModel.GetCommands | edu/seg2105/client/backend/ChatClient.java:154-159 | `#gethost` and `#getport` print the current value and change nothing else |
| ChatClientModel.SetHostOnlyReports | edu/seg2105/client/backend/ChatClient.java:109-122 | `#sethost` always reports "No host specified." and never sets the host |
| ChatClientModel.SetPortOnlyReports | edu/seg2105/client/backend/ChatClient.java:123-140 | `#setport` always reports "No port specified." and never sets the port |
| ChatClientModel.CommandsKeepHostAndPort | edu/seg2105/client/backend/ChatClient.java:92-160 | no command line changes the host or the port |
| ChatClientModel.CommandsWithArgumentIgnored | edu/seg2105/client/backend/ChatClient.java:109-140 | `#sethost <h>` and `#setport <p>` match no branch and change nothing |
| ChatClientModel.SetHostEffectWithArgument | edu/seg2105/client/backend/ChatClient.java:110-118 | the unreachable block would set the host to its argument while disconnected |
| ChatClientModel.SetPortEffectWithNumber | edu/seg2105/client/backend/ChatClient.java:124-135 | the unreachable block would set the port to any Java int while disconnected |
| ChatClientModel.UnknownCommandIgnored | edu/seg2105/client/backend/ChatClient.java:92-160 | a `#` line that is no command produces no output and no state change |
| ChatClientModel.ChatLineSent | edu/seg2105/client/backend/ChatClient.java:80-82 | with a connection open, a non-`#` line is sent as typed and nothing else changes |
| ChatClientModel.ChatClient.constructor | edu/seg2105/client/backend/ChatClient.java:44-51 | the new client has the given host, port and id, and has attempted `openConnection()` |
| ChatClientModel.ChatClient.OpenConnection | edu/seg2105/client/backend/ChatClient.java:147 | the method reaches the state `Open` gives |
| ChatClientModel.ChatClient.ConnectionEstablished | edu/seg2105/client/backend/ChatClient.java:166-173 | the method reaches the state `AfterConnectionEstablished` gives |
| ChatClientModel.ChatClient.Quit | edu/seg2105/client/backend/ChatClient.java:178-186 | the method reaches the state `AfterQuit` gives |
| ChatClientModel.ChatClient.HandleMessageFromServer | edu/seg2105/client/backend/ChatClient.java:61-66 | a line from the server is shown as it came, and nothing else changes |
| ChatClientModel.ChatClient.HandleMessageFromClientUI | edu/seg2105/client/backend/ChatClient.java:73-90 | the method reaches the state `AfterMessageFromClientUI` gives and keeps the port a Java int |
| ChatClientModel.ChatClient.HandleCommand | edu/seg2105/client/backend/ChatClient.java:92-160 | the consecutive ifs reach the state `AfterCommand` gives |
| ChatClientModel.ChatClient.SetHostFromCommand | edu/seg2105/client/backend/ChatClient.java:110-121 | the block reaches the state `SetHostEffect` gives |
| ChatClientModel.ChatClient.SetPortFromCommand | edu/seg2105/client/backend/ChatClient.java:124-139 | the block reaches the state `SetPortEffect` gives |
| Session.LoginReachesServer | edu/seg2105/client/backend/ChatClient.java:166-173 | the line a newly connected client sends makes the server record exactly its id and announce it to every connection |
| Session.ChatLineRelayed | edu/seg2105/client/backend/ChatClient.java:80-82 | a non-`#` line the user types reaches the server as typed and is relayed as `<id>> <line>` to every connection |
| Session.CommandsNotSent | edu/seg2105/client/backend/ChatClient.java:77-79 | a `#` line is never sent to the server as typed |

## Left out

- The console front ends are not modelled: the server's `ServerConsole` and the client's console `Scanner` loops, their argument parsing and their default ports. Neither contains logic of the two handlers.
- The OCSF `AbstractServer`/`AbstractClient` internals are not modelled. Sockets, threads and the accept loop are absent. Each library call is a state change whose failure is an `IoOutcome` parameter.
  - `sendToServer` is modelled as throwing whenever no connection is open.
  - A `close()` or `closeConnection()` that throws is modelled as leaving the connection in place.
  - `connectionEstablished()` is modelled as run by `openConnection()` itself. In OCSF the client's reader thread calls it.
- Concurrency is not modelled: per-connection threads and the `synchronized` hook run one event at a time.
- The print-only hooks `serverStarted`, `serverStopped`, `clientConnected`, `clientDisconnected` and `connectionClosed` are not modelled, nor their `String.format` output. The library's connect and disconnect are `Accept` and `Disconnect`.
- `connectionException` is not modelled: it shows "The server has shut down" and quits. It is a hook the library calls on a socket failure.
- `System.exit` is the `terminated` flag. Handlers require a client or server that has not terminated.
- Messages are strings. `msg.toString()` on other objects is not modelled.
- Protocol.LoginArgument: a string is a sequence of whole Unicode characters, not of UTF-16 code units. Where a character above U+FFFF stands right after `#login`, Java's `substring(7)` starts at its low surrogate and the id keeps that surrogate. The model skips the whole character.
- Protocol.LoginArgumentSkipsSeventhChar: for the same reason, a character above U+FFFF after `#login` is skipped whole in the model, while Java keeps its low surrogate at the start of the id.
- A `ToAll` message records its recipient set. The order of the individual sends inside `sendToAllClients` is not modelled, nor a failure of one of them.
- The display and standard output are separate logs. How their lines interleave is not modelled.
- EchoServerModel.AfterMessageFromClient: on a bare `#login` from a connection without an id, `substring(7)` throws. The model returns `None` (`raised` in the class) with no state change. What OCSF then does with the exception is not modelled.
- EchoServerModel.StartCommand: `listen()` on a port outside 0–65535 throws `IllegalArgumentException`, which nothing catches. The model treats that call like any other, so its outcome is the `io` parameter.
- EchoServerModel.MoveToPort: `listen()` is modelled as a flag only. The model has no bound socket, so it does not say which port the server actually accepts on. OCSF may reuse the socket it opened before `stopListening()`.
- EchoServerModel.AfterCommand: `#stop` sets `listening` to false at once. OCSF clears the flag when its accept loop ends.
- JavaText.ParseInt: accepts ASCII digits only. Java's `Integer.parseInt` also accepts the other Unicode decimal digits.
- ChatClientModel.ChatClient.constructor: when the constructor's `openConnection()` throws, the Java constructor throws `IOException` and no client exists. The model instead yields an unconnected client.
