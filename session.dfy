/**
 * The client and the server together: what the client sends once its
 * connection is up is read by the server as that client's login, and a
 * line the user types is relayed by the server under that login.
 */
module Session {
  import opened JavaText
  import opened Protocol
  import C = ChatClientModel
  import S = EchoServerModel

  /**
   * A client without a connection opens one; the line it sends makes the
   * server record its id, unchanged when it has no blank ends, and announce it.
   */
  lemma LoginReachesServer(c: C.ClientView, s: S.ServerView, conn: S.ConnId, send: IoOutcome, close: IoOutcome)
    requires !c.connected && Trimmed(c.loginID)
    requires conn in s.live && conn !in s.loginIds
    ensures var up := C.Open(c, Done, Done);
      && up.toServer == c.toServer + [LoginLine(c.loginID)]
      && var r := S.AfterMessageFromClient(s, conn, up.toServer[|up.toServer| - 1], send, close);
         && r.Some?
         && r.value.loginIds == s.loginIds[conn := c.loginID]
         && r.value.outbox == s.outbox + [S.ToAll(s.live, LoggedOnNotice(c.loginID))]
  {
    var up := C.Open(c, Done, Done);
    assert up.toServer[|up.toServer| - 1] == LoginLine(c.loginID);
    S.LoginHandshake(s, conn, c.loginID, send, close);
  }

  /**
   * A line the user types that does not start with '#' reaches the server as
   * typed and, from a logged-in connection, goes to every connection under
   * the sender's id.
   */
  lemma ChatLineRelayed(c: C.ClientView, s: S.ServerView, conn: S.ConnId, message: string,
                        send: IoOutcome, close: IoOutcome)
    requires c.connected && !("#" <= message)
    requires conn in s.live && conn in s.loginIds
    ensures var sent := C.AfterMessageFromClientUI(c, message, Done, close);
      && sent.toServer == c.toServer + [message]
      && var r := S.AfterMessageFromClient(s, conn, sent.toServer[|sent.toServer| - 1], send, close);
         && r.Some?
         && r.value.outbox == s.outbox + [S.ToAll(s.live, RelayLine(s.loginIds[conn], message))]
  {
    LoginLinesAreCommands(message);
    S.RelayFromLoggedIn(s, conn, message, send, close);
  }

  /**
   * Nothing a user types as a command reaches the server as typed: the only
   * line a command may send is the login line.
   */
  lemma CommandsNotSent(c: C.ClientView, message: string, first: IoOutcome, second: IoOutcome)
    requires "#" <= message
    ensures var r := C.AfterMessageFromClientUI(c, message, first, second);
      && c.toServer <= r.toServer
      && message !in r.toServer[|c.toServer|..]
  {
    var r := C.AfterMessageFromClientUI(c, message, first, second);
    if r.toServer == c.toServer {
      assert r.toServer[|c.toServer|..] == [];
    } else {
      LoginLineIsNotCommand(c.loginID);
      assert r.toServer[|c.toServer|..] == [LoginLine(c.loginID)];
    }
  }
}
