/** The participant record that a successful handshake produces, and the role
    enumeration it carries (net.rptools.maptool.model.Player and its nested enum
    Player.Role). */
module Players {
  import opened Wrappers

  /** The roles a participant can take, in their declaration order. */
  datatype Role = PLAYER | GM

  /** The constants of the enum in declaration order, as Role.values() gives them. */
  const Values: seq<Role> := [PLAYER, GM]

  /** Enum.name(): the textual name of a role, the identifier it is declared with. */
  function Name(r: Role): (s: string)
    ensures |s| > 0
  {
    match r
    case PLAYER => "PLAYER"
    case GM => "GM"
  }

  /** The first role of `roles` whose name is `s`, if any. Over the enum's constants
      this gives the same result as Enum.valueOf, because names are distinct
      (NameInjective). */
  function Lookup(s: string, roles: seq<Role>): (r: Option<Role>)
    ensures r.Some? ==> r.value in roles && Name(r.value) == s
    ensures r.None? <==> forall x :: x in roles ==> Name(x) != s
    decreases |roles|
  {
    if roles == [] then None
    else if Name(roles[0]) == s then Some(roles[0])
    else Lookup(s, roles[1..])
  }

  /** Role.valueOf(s): the role whose name is exactly `s`; None stands for the
      IllegalArgumentException that valueOf throws for any other string. */
  function ValueOf(s: string): (r: Option<Role>)
    ensures r.Some? <==> s == "PLAYER" || s == "GM"
    ensures r.Some? ==> Name(r.value) == s
  {
    Lookup(s, Values)
  }

  /** Distinct roles have distinct names, so a name identifies its role. */
  lemma NameInjective(a: Role, b: Role)
    ensures Name(a) == Name(b) ==> a == b
  {
  }

  /** Parsing a role's name gives back that role. */
  lemma ValueOfName(r: Role)
    ensures ValueOf(Name(r)) == Some(r)
  {
  }

  /** The authenticated participant built from a successful handshake:
      new Player(name, role, password). */
  datatype Player = Player(name: string, role: Role, password: string)
}
