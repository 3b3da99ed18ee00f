/**
 * The text lines client and server exchange, and the outcome of a call into
 * the networking library, which this model does not see.
 */
module Protocol {
  import opened JavaText

  /**
   * What a call into the networking library did: it returned normally, or it
   * threw an IOException carrying a message.  Each handler takes one outcome
   * per such call it may make, standing for the library's choice.
   */
  datatype IoOutcome = Done | Failed(reason: string)

  /** The line a client sends once its connection is up: "#login " and its id. */
  function LoginLine(loginID: string): string {
    "#login " + loginID
  }

  /**
   * The id the server reads from a line that starts with "#login":
   * message.substring(7).trim(), or None where substring(7) throws because
   * the line is shorter than seven chars.  The char right after "#login" is
   * skipped whatever it is.
   */
  function LoginArgument(message: string): (r: Option<string>)
    ensures r.None? <==> |message| < 7
    ensures r.Some? ==> Trimmed(r.value) && |r.value| <= |message| - 7
  {
    if |message| < 7 then None else Some(Trim(message[7..]))
  }

  /** A chat line as relayed to everyone: the sender's id, "> " and the line. */
  function RelayLine(loginId: string, message: string): string {
    loginId + "> " + message
  }

  /** The announcement that a connection has logged in. */
  function LoggedOnNotice(loginId: string): string {
    loginId + " has logged on."
  }

  /** Sent to a connection that sends "#login" a second time. */
  function AlreadyLoggedInNotice(loginId: string): string {
    "SERVER MSG> Error: Already logged in as " + loginId + "."
  }

  /** Sent to a connection that sends a chat line before logging in. */
  const PleaseLogInNotice: string := "SERVER MSG> Error: Please log in before sending messages."

  /** A line the server operator types, as relayed to everyone. */
  function OperatorLine(message: string): string {
    "SERVER MESSAGE> " + message
  }

  /** The server reads back the client's id, trimmed, from the client's login line. */
  lemma LoginLineRead(loginID: string)
    ensures "#login" <= LoginLine(loginID)
    ensures LoginArgument(LoginLine(loginID)) == Some(Trim(loginID))
  {
    assert LoginLine(loginID)[7..] == loginID;
  }

  /** An id without blank ends survives the trip from client to server unchanged. */
  lemma LoginLineRoundTrip(loginID: string)
    requires Trimmed(loginID)
    ensures LoginArgument(LoginLine(loginID)) == Some(loginID)
  {
    LoginLineRead(loginID);
  }

  /**
   * Whatever follows "#login" and one more char, padded with blanks, is the id:
   * "#login  bob " and "#loginXbob" both read as "bob".
   */
  lemma LoginArgumentSkipsSeventhChar(c: char, before: string, id: string, after: string)
    requires AllBlank(before) && AllBlank(after) && Trimmed(id)
    ensures LoginArgument("#login" + [c] + before + id + after) == Some(id)
  {
    var m := "#login" + [c] + before + id + after;
    assert m[7..] == before + id + after;
    TrimSurrounded(before, id, after);
  }

  /** The login line is never the bare "#login" the client types to reconnect. */
  lemma LoginLineIsNotCommand(loginID: string)
    ensures LoginLine(loginID) != "#login"
  {
    assert |LoginLine(loginID)| >= 7;
  }

  /** A line that starts with "#login" starts with '#', so the client never sends one as chat. */
  lemma LoginLinesAreCommands(message: string)
    ensures "#login" <= message ==> "#" <= message
  {
    if "#login" <= message {
      assert message[..1] == "#login"[..1];
    }
  }
}
