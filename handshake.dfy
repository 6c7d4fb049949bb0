/** The server side of the connection handshake (net.rptools.maptool.server.Handshake):
    a decoded request is checked against the connected names and the server's version,
    first match wins, and the server writes exactly one response carrying its policy
    and hands back a player only when the request was accepted. */
module Handshake {
  import opened Wrappers
  import opened Players

  // Handshake.Code: the values a response's code can take.
  const UNKNOWN: int := 0
  const OK: int := 1
  const ERROR: int := 2

  /** Client versions that pass the version check whatever the server runs: a build
      with no version stamp. */
  const DevelopmentVersion: string := "DEVELOPMENT"
  const BuildNumberPlaceholder: string := "@buildNumber@"

  /** The handshake request as it reaches the server. The role travels as the
      textual name of a Players.Role. */
  datatype Request = Request(name: string, password: string, role: string, version: string)

  /** The four-argument Request constructor: the role is stored as its name. */
  function NewRequest(name: string, password: string, role: Role, version: string): (q: Request)
    ensures q.name == name && q.password == password && q.version == version
    ensures ValueOf(q.role) == Some(role)
  {
    ValueOfName(role);
    Request(name, password, Name(role), version)
  }

  /** The localised rejection texts, each standing for its message key; the
      wrong-version text is parameterised by the client's and the server's version. */
  datatype Message =
    | WrongPassword
    | DuplicateName
    | WrongVersion(clientUsed: string, serverUsed: string)

  /** What the validation chain assigns to a response: its code and its message
      (None is the null message a response keeps when nothing sets it). */
  datatype Verdict = Verdict(code: int, message: Option<Message>)

  /** The version check passes: the server is a development build, both sides run
      the same version, or the client's version is one of the two sentinels. */
  predicate VersionAccepted(isDevelopment: bool, serverVersion: string, clientVersion: string)
  {
    isDevelopment
    || serverVersion == clientVersion
    || clientVersion == DevelopmentVersion
    || clientVersion == BuildNumberPlaceholder
  }

  /** The validation chain of receiveHandshake; `decoded` is the result of decoding
      the request, None when decoding failed. */
  function Decide(decoded: Option<Request>, connected: set<string>, serverVersion: string,
                  isDevelopment: bool): (v: Verdict)
    ensures v.code == OK || v.code == ERROR
    ensures v.code == ERROR <==> v.message.Some?
    ensures v.code == OK ==> decoded.Some?
    ensures v.message == Some(WrongPassword) <==> decoded.None?
  {
    if decoded.None? then
      Verdict(ERROR, Some(WrongPassword))
    else if decoded.value.name in connected then
      Verdict(ERROR, Some(DuplicateName))
    else if !VersionAccepted(isDevelopment, serverVersion, decoded.value.version) then
      Verdict(ERROR, Some(WrongVersion(decoded.value.version, serverVersion)))
    else
      Verdict(OK, None)
  }

  /** Every reason the source has to reject the request, each judged on its own, in
      the order the source checks them. An undecodable request leaves nothing else
      to judge. */
  function Objections(decoded: Option<Request>, connected: set<string>, serverVersion: string,
                      isDevelopment: bool): seq<Message>
  {
    match decoded
    case None => [WrongPassword]
    case Some(q) =>
      (if q.name in connected then [DuplicateName] else [])
      + (if VersionAccepted(isDevelopment, serverVersion, q.version) then []
         else [WrongVersion(q.version, serverVersion)])
  }

  /** What the server hands back to its caller: the admitted player, nothing
      (the source's null) for a rejected request, or the IllegalArgumentException
      that Role.valueOf throws for a role string that names no role. */
  datatype Admission =
    | Admitted(player: Player)
    | Refused
    | IllegalRole(role: string)

  /** The result expression of receiveHandshake: a player built from the request's
      name, parsed role and password when the code is OK, null otherwise. */
  function Admit(code: int, decoded: Option<Request>): (a: Admission)
    requires code == OK ==> decoded.Some?
    ensures a.Refused? <==> code != OK
    ensures a.Admitted? ==>
              a.player.name == decoded.value.name
              && a.player.password == decoded.value.password
              && Some(a.player.role) == ValueOf(decoded.value.role)
    ensures a.IllegalRole? ==>
              a.role == decoded.value.role && ValueOf(a.role) == None
    ensures code == OK && ValueOf(decoded.value.role).Some? ==> a.Admitted?
  {
    if code != OK then Refused
    else match ValueOf(decoded.value.role)
      case Some(r) => Admitted(Player(decoded.value.name, r, decoded.value.password))
      case None => IllegalRole(decoded.value.role)
  }

  /** A response as it is serialised onto the socket. */
  datatype Reply<P> = Reply(code: int, message: Option<Message>, policy: Option<P>)

  /** Handshake.Response: a mutable record whose fields start at the Java defaults
      (code 0, null message, null policy) and are filled in by the server. */
  class Response<P> {
    var code: int
    var message: Option<Message>
    var policy: Option<P>

    constructor ()
      ensures code == UNKNOWN && message == None && policy == None
    {
      code := UNKNOWN;
      message := None;
      policy := None;
    }

    /** The value the response serialises to. */
    function Snapshot(): Reply<P>
      reads this
    {
      Reply(code, message, policy)
    }
  }

  /** The output side of the socket: every object written, in order. */
  class Wire<P> {
    ghost var sent: seq<Reply<P>>

    constructor ()
      ensures sent == []
    {
      sent := [];
    }

    /** HessianOutput.writeObject: serialise the response's current fields. */
    method WriteObject(response: Response<P>)
      modifies this
      ensures sent == old(sent) + [response.Snapshot()]
    {
      sent := sent + [response.Snapshot()];
    }
  }

  /** Server side of the handshake. `decoded` is the decoded request (None when it
      could not be decoded), `connected` the names of the players already in the
      session, `serverVersion` and `isDevelopment` the server's build, `policy` its
      current policy, and `wire` the socket's output. */
  method ReceiveHandshake<P>(decoded: Option<Request>, connected: set<string>,
                             serverVersion: string, isDevelopment: bool, policy: P,
                             wire: Wire<P>)
    returns (response: Response<P>, admission: Admission)
    modifies wire
    ensures fresh(response)
    ensures response.code == Decide(decoded, connected, serverVersion, isDevelopment).code
    ensures response.message == Decide(decoded, connected, serverVersion, isDevelopment).message
    ensures response.policy == Some(policy)
    ensures wire.sent == old(wire.sent) + [response.Snapshot()]
    ensures admission == Admit(response.code, decoded)
  {
    response := new Response();
    if decoded.None? {
      response.code := ERROR;
      response.message := Some(WrongPassword);
    } else if decoded.value.name in connected {
      response.code := ERROR;
      response.message := Some(DuplicateName);
    } else if !isDevelopment
              && serverVersion != decoded.value.version
              && decoded.value.version != DevelopmentVersion
              && decoded.value.version != BuildNumberPlaceholder {
      response.code := ERROR;
      var clientUsed := decoded.value.version;
      var serverUsed := serverVersion;
      response.message := Some(WrongVersion(clientUsed, serverUsed));
    } else {
      response.code := OK;
    }
    response.policy := Some(policy);
    wire.WriteObject(response);
    admission := Admit(response.code, decoded);
  }

  // ---------------------------------------------------------------------------
  // Properties of the validation chain

  /** The chain is first-match-wins: the request is accepted exactly when no
      objection applies, and otherwise rejected with the first objection in check
      order. */
  lemma FirstMatchWins(decoded: Option<Request>, connected: set<string>,
                       serverVersion: string, isDevelopment: bool)
    ensures var v := Decide(decoded, connected, serverVersion, isDevelopment);
            var obj := Objections(decoded, connected, serverVersion, isDevelopment);
            (v.code == OK <==> obj == [])
            && (obj != [] ==> v == Verdict(ERROR, Some(obj[0])))
  {
  }

  /** An undecodable request is rejected with the wrong-password message, never the
      duplicate-name or wrong-version one, and yields no player. */
  lemma DecodeFailureRejects(connected: set<string>, serverVersion: string, isDevelopment: bool)
    ensures var v := Decide(None, connected, serverVersion, isDevelopment);
            v == Verdict(ERROR, Some(WrongPassword)) && Admit(v.code, None) == Refused
  {
  }

  /** A name already in the session is rejected as a duplicate, even when the
      version would be accepted: the duplicate check precedes the version check. */
  lemma DuplicateNameRejects(q: Request, connected: set<string>, serverVersion: string,
                             isDevelopment: bool)
    requires q.name in connected
    ensures Decide(Some(q), connected, serverVersion, isDevelopment)
            == Verdict(ERROR, Some(DuplicateName))
  {
  }

  /** Outside development mode, a client version that differs from the server's and is
      not a sentinel is rejected with a message carrying the client's version and then
      the server's. */
  lemma VersionMismatchRejects(q: Request, connected: set<string>, serverVersion: string)
    requires q.name !in connected
    requires q.version != serverVersion
    requires q.version != "DEVELOPMENT" && q.version != "@buildNumber@"
    ensures Decide(Some(q), connected, serverVersion, false)
            == Verdict(ERROR, Some(WrongVersion(q.version, serverVersion)))
  {
  }

  /** A sentinel client version, or a server in development mode, passes the version
      check whatever the versions are: a decoded request with a new name is accepted. */
  lemma SentinelBypass(q: Request, connected: set<string>, serverVersion: string,
                       isDevelopment: bool)
    requires q.name !in connected
    requires isDevelopment || q.version == "DEVELOPMENT" || q.version == "@buildNumber@"
    ensures Decide(Some(q), connected, serverVersion, isDevelopment) == Verdict(OK, None)
  {
  }

  /** A decoded request with a new name and the server's own version is accepted. */
  lemma MatchingVersionAccepted(q: Request, connected: set<string>, isDevelopment: bool)
    requires q.name !in connected
    ensures Decide(Some(q), connected, q.version, isDevelopment) == Verdict(OK, None)
  {
  }

  /** A player is handed back exactly when the response code is OK and the role
      string names a role; its name and password are the request's. */
  lemma AdmittedIffOk(decoded: Option<Request>, connected: set<string>,
                      serverVersion: string, isDevelopment: bool)
    ensures var v := Decide(decoded, connected, serverVersion, isDevelopment);
            var a := Admit(v.code, decoded);
            (a.Admitted? <==> v.code == OK && ValueOf(decoded.value.role).Some?)
            && (a.Admitted? ==> a.player.name == decoded.value.name
                                && a.player.password == decoded.value.password)
  {
  }

  /** A request built with role `r` that the chain accepts admits a player with role
      `r`, the request's name and its password. */
  lemma RoleRoundTrip(name: string, password: string, r: Role, version: string,
                      connected: set<string>, serverVersion: string, isDevelopment: bool)
    requires Decide(Some(NewRequest(name, password, r, version)), connected, serverVersion,
                    isDevelopment).code == OK
    ensures Admit(Decide(Some(NewRequest(name, password, r, version)), connected, serverVersion,
                         isDevelopment).code,
                  Some(NewRequest(name, password, r, version)))
            == Admitted(Player(name, r, password))
  {
  }

  /** Five example exchanges, checked against the method's contract. */
  method Scenarios()
  {
    var alice := NewRequest("Alice", "x", PLAYER, "1.2.0");
    var w := new Wire<int>();
    var resp, a := ReceiveHandshake(Some(alice), {}, "1.2.0", false, 7, w);
    assert resp.code == OK && resp.policy == Some(7);
    assert a == Admitted(Player("Alice", PLAYER, "x"));

    resp, a := ReceiveHandshake(Some(alice), {"Alice"}, "1.2.0", false, 7, w);
    assert resp.code == ERROR && resp.message == Some(DuplicateName) && a == Refused;

    var older := NewRequest("Alice", "x", PLAYER, "1.1.0");
    resp, a := ReceiveHandshake(Some(older), {}, "1.2.0", false, 7, w);
    assert resp.message == Some(WrongVersion("1.1.0", "1.2.0")) && a == Refused;

    var dev := NewRequest("Alice", "x", PLAYER, "DEVELOPMENT");
    resp, a := ReceiveHandshake(Some(dev), {}, "1.2.0", false, 7, w);
    assert resp.code == OK;

    resp, a := ReceiveHandshake(None, {"Alice"}, "1.2.0", false, 7, w);
    assert resp.message == Some(WrongPassword) && a == Refused;
    assert |w.sent| == 5;
  }
}
