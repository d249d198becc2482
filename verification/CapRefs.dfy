// The names of capability groups, and why two of them never collide.
module CapRefs {
  import opened Common
  import opened Cedar

  datatype Level = TeamLevel | OrgLevel

  function CapName(c: Capability): string {
    match c
    case View => "view"
    case Run => "run"
    case Edit => "edit"
    case Export => "export"
    case ProtectExport => "protect_export"
    case Delete => "delete"
    case ManageMembers => "manage_members"
    case CreateTeam => "create_team"
    case ManageOrg => "manage_org"
    case ManageRoles => "manage_roles"
    case ManageApiKeys => "manage_api_keys"
  }

  function LevelName(level: Level): string {
    match level
    case TeamLevel => "team"
    case OrgLevel => "org"
  }

  function Digit(d: nat): char
    requires d < 16
  {
    if d < 10 then ('0' as int + d) as char else ('a' as int + d - 10) as char
  }

  // The text of an id: its hexadecimal digits.
  function IdText(id: Id): string {
    if id < 16 then [Digit(id)] else IdText(id / 16) + [Digit(id % 16)]
  }

  function CapText(c: Capability, level: Level, id: Id): string {
    CapName(c) + ":" + (LevelName(level) + ":" + IdText(id))
  }

  function CapRef(c: Capability, level: Level, id: Id): Uid {
    CapUid(CapText(c, level, id))
  }

  lemma {:induction false} IdTextInjective(a: Id, b: Id)
    requires IdText(a) == IdText(b)
    ensures a == b
  {
    var s, t := IdText(a), IdText(b);
    assert s[|s| - 1] == Digit(a % 16) && t[|t| - 1] == Digit(b % 16);
    if a >= 16 && b >= 16 {
      assert s[..|s| - 1] == IdText(a / 16) && t[..|t| - 1] == IdText(b / 16);
      IdTextInjective(a / 16, b / 16);
    } else {
      assert |IdText(a / 16)| > 0 && |IdText(b / 16)| > 0;
    }
  }

  // Two texts that agree, cut at their first colons, agree on both sides.
  lemma CutAtColon(a: string, b: string, r: string, s: string)
    requires ':' !in a && ':' !in b && a + ":" + r == b + ":" + s
    ensures a == b && r == s
  {
    var t := a + ":" + r;
    assert t[|a|] == ':' && t[|b|] == ':';
    assert forall i :: 0 <= i < |b| ==> t[i] == b[i];
    assert forall i :: 0 <= i < |a| ==> t[i] == a[i];
    assert |a| == |b|;
    assert a == t[..|a|] && b == t[..|b|] && r == t[|a| + 1..] && s == t[|b| + 1..];
  }

  function CapNamed(s: string): Option<Capability> {
    if s == "view" then Some(View)
    else if s == "run" then Some(Run)
    else if s == "edit" then Some(Edit)
    else if s == "export" then Some(Export)
    else if s == "protect_export" then Some(ProtectExport)
    else if s == "delete" then Some(Delete)
    else if s == "manage_members" then Some(ManageMembers)
    else if s == "create_team" then Some(CreateTeam)
    else if s == "manage_org" then Some(ManageOrg)
    else if s == "manage_roles" then Some(ManageRoles)
    else if s == "manage_api_keys" then Some(ManageApiKeys)
    else None
  }

  lemma CapNamedInverts(c: Capability)
    ensures CapNamed(CapName(c)) == Some(c)
  {
    assert "view"[0] == 'v' && "edit"[0] == 'e' && "export"[1] == 'x' && "delete"[0] == 'd';
    assert "protect_export"[0] == 'p' && "manage_members"[0] == 'm';
  }

  // The encoding `capability:level:id` names each capability group once.
  lemma CapRefInjective(c: Capability, level: Level, id: Id, c': Capability, level': Level, id': Id)
    requires CapRef(c, level, id) == CapRef(c', level', id')
    ensures c == c' && level == level' && id == id'
  {
    CutAtColon(CapName(c), CapName(c'), LevelName(level) + ":" + IdText(id), LevelName(level') + ":" + IdText(id'));
    CapNamedInverts(c);
    CapNamedInverts(c');
    CutAtColon(LevelName(level), LevelName(level'), IdText(id), IdText(id'));
    assert |LevelName(TeamLevel)| != |LevelName(OrgLevel)|;
    IdTextInjective(id, id');
  }
}
