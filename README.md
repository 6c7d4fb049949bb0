# MapTool connection handshake, modelled in Dafny

This project models the server side of MapTool's connection handshake
(`net.rptools.maptool.server.Handshake`). A client opens a socket and sends a
request made of a name, a password, a role and a version. The server decodes the
request and runs a validation chain where the first match wins:

1. an undecodable request is rejected with the wrong-password message;
2. a name already in the session is rejected with the duplicate-name message;
3. outside development mode, a client version unlike the server's is rejected with
   a wrong-version message naming both versions. The sentinel versions
   `"DEVELOPMENT"` and `"@buildNumber@"` always pass this check;
4. otherwise the request is accepted.

Whatever the outcome, the server attaches its policy to the response and writes
the response to the socket exactly once. It returns a `Player` only when the code
is OK. The player gets the request's name and password and the role parsed from
the request's role string.

Files:

- `wrappers.dfy`: `Option`, which stands for a Java reference that may be null.
- `players.dfy`: the `Player.Role` enum with `name()` and `valueOf`, and the
  `Player` record. `Player.java` is not modelled. Both are written from their use
  in `Handshake.java` (see "Left out" for the assumptions).
- `handshake.dfy`: the `Code` constants, the request, the response class, the
  socket output, the validation chain as a function (`Decide`), the
  server method (`ReceiveHandshake`) and the properties of the chain.

Environment inputs are parameters of `ReceiveHandshake`, so the model needs no
global state:
- the decode result, as `Option<Request>`;
- the set of connected names, which stands for `server.isPlayerConnected`;
- the server version, which stands for `MapTool.getVersion()`;
- the development flag, which stands for `MapTool.isDevelopment()`;
- an opaque policy value of type parameter `P`, which stands for `server.getPolicy()`.

Design choices:
- `Request` is a datatype. The core file never changes a request's fields after
  construction. `NewRequest` is the four-argument constructor, which stores the
  role by its name.
- `Response` is a class. `receiveHandshake` allocates it with Java's defaults
  (code 0, null message, null policy) and fills it in field by field.
- `Role.valueOf` is modelled as a search through the enum's constants for one whose
  name matches the string. Because the names are distinct, this gives the same
  result as Java's lookup by name. Java throws `IllegalArgumentException` for any
  other string. The model shows that outcome as `Admission.IllegalRole`.

Two consequences of the code's order:
- The name check comes before the version check, so a connected name with a wrong
  version gets the duplicate-name message.
- `receiveHandshake` writes an OK response (line 72) and can then throw
  `IllegalArgumentException` from `Role.valueOf` (line 74) when the role string
  names no role. The model keeps that path as `Admission.IllegalRole`.

## Model

| member | source | states |
|---|---|---|
| `Players.Name` | src/main/java/net/rptools/maptool/server/Handshake.java:115 | `role.name()`: `NameInjective` proves that distinct roles get distinct names, and `ValueOfName` proves that `valueOf` inverts it. Its own contract says only that a name is non-empty. |
| `Players.NameInjective` | src/main/java/net/rptools/maptool/server/Handshake.java:115 | Two roles with the same name are the same role, so the stored name identifies the role. |
| `Players.Lookup` | src/main/java/net/rptools/maptool/server/Handshake.java:74 | The search finds a role in the list whose name is the string, or finds nothing. It finds nothing exactly when no role in the list has that name. |
| `Players.ValueOf` | src/main/java/net/rptools/maptool/server/Handshake.java:74 | `Role.valueOf` gives a role exactly when the string is `"PLAYER"` or `"GM"`, and that role's name is the string. Any other string is the exception case. |
| `Players.ValueOfName` | src/main/java/net/rptools/maptool/server/Handshake.java:112-117 | Round trip: parsing a role's name gives back that role. |
| `Handshake.NewRequest` | src/main/java/net/rptools/maptool/server/Handshake.java:112-117 | The constructor keeps name, password and version. It stores a role string that `valueOf` parses back to the role it was given. |
| `Handshake.Decide` | src/main/java/net/rptools/maptool/server/Handshake.java:46-67 | Every branch sets a code, and the code is OK or ERROR, never UNKNOWN. A message is set exactly when the code is ERROR. OK needs a decoded request. The wrong-password message appears exactly when decoding failed. |
| `Handshake.Admit` | src/main/java/net/rptools/maptool/server/Handshake.java:73-75 | No player unless the code is OK. On OK with a parsable role, the player has the request's name and password and the parsed role. On OK with an unparsable role, the result is the exception case, carrying that role string. |
| `Handshake.Response.constructor` | src/main/java/net/rptools/maptool/server/Handshake.java:120-124 | A new response has code UNKNOWN, a null message and a null policy. |
| `Handshake.Wire.constructor` | src/main/java/net/rptools/maptool/server/Handshake.java:70 | A freshly opened output stream has nothing written to it. |
| `Handshake.Wire.WriteObject` | src/main/java/net/rptools/maptool/server/Handshake.java:72 | Writing appends exactly one value to what was already sent: the response's code, message and policy at the moment of the write. |
| `Handshake.ReceiveHandshake` | src/main/java/net/rptools/maptool/server/Handshake.java:44-76 | The method returns a fresh response whose code and message are those of `Decide` and whose policy is the server's, whatever the branch. It writes exactly that one response to the socket. It returns `Admit` of the code. |
| `Handshake.FirstMatchWins` | src/main/java/net/rptools/maptool/server/Handshake.java:48-67 | Compared with the list of every objection that applies, checked independently: the request is accepted exactly when that list is empty, and is otherwise rejected with the first objection in check order. |
| `Handshake.DecodeFailureRejects` | src/main/java/net/rptools/maptool/server/Handshake.java:47-50 | A failed decode gives ERROR with the wrong-password message, never the duplicate-name or wrong-version message, and no player. |
| `Handshake.DuplicateNameRejects` | src/main/java/net/rptools/maptool/server/Handshake.java:51-54 | A name that is already connected gives ERROR with the duplicate-name message, whatever the versions and the development flag. |
| `Handshake.VersionMismatchRejects` | src/main/java/net/rptools/maptool/server/Handshake.java:54-64 | Outside development mode, a non-sentinel client version that differs from the server's gives ERROR with the wrong-version message, carrying the client's version and then the server's. |
| `Handshake.SentinelBypass` | src/main/java/net/rptools/maptool/server/Handshake.java:54-66 | Development mode, `"DEVELOPMENT"` or `"@buildNumber@"` never fails the version check, so a decoded request with a new name is OK. |
| `Handshake.MatchingVersionAccepted` | src/main/java/net/rptools/maptool/server/Handshake.java:54-66 | A decoded request with a new name and the server's own version is OK, with no message. |
| `Handshake.AdmittedIffOk` | src/main/java/net/rptools/maptool/server/Handshake.java:73-75 | A player comes back exactly when the code is OK and the role string parses. The player's name and password are the request's. |
| `Handshake.RoleRoundTrip` | src/main/java/net/rptools/maptool/server/Handshake.java:112-117 | A request built with role `r` that the chain accepts yields a player with the request's name and password and role `r`. |

## Left out

- The socket and Hessian serialisation (`HessianInput`/`HessianOutput`, lines 70-72 and 92-99): foreign-library I/O. Writing is modelled only as appending the response's value to `Wire.sent`. A transport failure (`IOException`) is not modelled.
- `decodeRequest` (lines 78-80) has an empty body, so there is no behaviour to model. Its result enters the model only as the `Option<Request>` parameter, and encode/decode round trips are not modelled.
- `sendHandshake` (lines 91-100), the client side, is pure I/O plus a cast, with no decision logic.
- The no-argument `Request` constructor used for deserialisation. A deserialised request is just an arbitrary `Request` value. Null fields are not modelled: every string is present.
- I18N message lookup (`I18N.getString` / `getText`): each message key is a constructor of `Message`, and the wrong-version one carries the two version strings.
- `MapTool.isDevelopment()`, `MapTool.getVersion()`, `server.isPlayerConnected` and `server.getPolicy()` are parameters. The server version is read once, where the source reads it twice, at lines 55 and 63.
- `Player.java` is not modelled. The model assumes that `Player.Role` has the constants `PLAYER` and `GM`, in that order. It also assumes that `new Player(name, role, password)` is a plain record that keeps its three arguments.
- The contents of `ServerPolicy`: the policy is an opaque type parameter.
- Concurrent handshakes and timeouts: these belong to the transport, not to the decision.
- `NoteBookEntry.java`: an interface whose only code returns a random UUID, so it has no behaviour to model.
