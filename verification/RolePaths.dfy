/**
 The request paths the middleware recognises and the ids it takes from them:
 the regular expressions of KeystoneBillingProtocol in
 shadowfiend/middleware/mid_keystone.py.
 */
module RolePaths {
  import opened Wrappers

  // ---------- Ids, segments and tails ----------

  predicate IsHex(c: char) {
    '0' <= c <= '9' || 'a' <= c <= 'f'
  }

  predicate IsAlphanumeric(c: char) {
    '0' <= c <= '9' || 'a' <= c <= 'z'
  }

  /** 32 or 64 hexadecimal digits, or the dashed form in 36 characters. */
  predicate IsUuid(s: string) {
    || ((|s| == 32 || |s| == 64) && forall i :: 0 <= i < |s| ==> IsHex(s[i]))
    || (|s| == 36 && forall i :: 0 <= i < 36 ==>
          if i == 8 || i == 13 || i == 18 || i == 23 then s[i] == '-' else IsAlphanumeric(s[i]))
  }

  lemma Alphabets(c: char)
    ensures IsHex(c) <==> c in "0123456789abcdef"
    ensures IsAlphanumeric(c) <==> c in "0123456789abcdefghijklmnopqrstuvwxyz"
  {
    if IsHex(c) || IsAlphanumeric(c) {
      if c <= '9' {
        assert "0123456789abcdef"[c as int - 48] == c && "0123456789abcdefghijklmnopqrstuvwxyz"[c as int - 48] == c;
      } else {
        assert "0123456789abcdefghijklmnopqrstuvwxyz"[c as int - 87] == c;
        assert c <= 'f' ==> "0123456789abcdef"[c as int - 87] == c;
      }
    }
  }

  /** n characters that are digits or small letters. */
  predicate Group(s: string, n: nat) {
    |s| == n && forall i :: 0 <= i < n ==> IsAlphanumeric(s[i])
  }

  function Dashed(a: string, b: string, c: string, d: string, e: string): string {
    a + "-" + b + "-" + c + "-" + d + "-" + e
  }

  /** The dashed form is five groups of 8, 4, 4, 4 and 12 characters. */
  lemma DashedForm(s: string)
    requires |s| == 36
    ensures IsUuid(s) <==> exists a, b, c, d, e ::
      Group(a, 8) && Group(b, 4) && Group(c, 4) && Group(d, 4) && Group(e, 12) && s == Dashed(a, b, c, d, e)
  {
    if IsUuid(s) {
      var a, b, c, d, e := s[..8], s[9..13], s[14..18], s[19..23], s[24..];
      assert Group(a, 8) && Group(b, 4) && Group(c, 4) && Group(d, 4) && Group(e, 12);
      assert s == Dashed(a, b, c, d, e);
    }
  }

  /** Any other id is 32 or 64 hexadecimal digits. */
  lemma HexForm(s: string)
    requires |s| != 36
    ensures IsUuid(s) <==> (|s| == 32 || |s| == 64) && forall i :: 0 <= i < |s| ==> s[i] in "0123456789abcdef"
  {
    forall i | 0 <= i < |s|
      ensures IsHex(s[i]) <==> s[i] in "0123456789abcdef"
    {
      Alphabets(s[i]);
    }
  }

  /** What may follow the last id: nothing or one extension, and a final line feed. */
  predicate IsTail(s: string) {
    || s == "" || s == "\n"
    || (|s| >= 2 && s[0] == '.' && forall i :: 1 <= i < |s| ==> s[i] != '.')
  }

  lemma TailForm(s: string)
    ensures IsTail(s) <==> s == "" || s == "\n" || exists x :: x != "" && '.' !in x && s == "." + x
  {
    if IsTail(s) && s != "" && s != "\n" {
      assert s == "." + s[1..];
    }
  }

  predicate Ends(c: char) {
    c == '/' || c == '.' || c == '\n'
  }

  /** The longest beginning without a character that no id contains. */
  function Segment(s: string): (seg: string)
    ensures seg <= s
  {
    if s == "" || Ends(s[0]) then "" else
      assert s == [s[0]] + s[1..];
      [s[0]] + Segment(s[1..])
  }

  predicate Stops(rest: string) {
    rest == "" || Ends(rest[0])
  }

  lemma {:induction false} SegmentExact(seg: string, rest: string)
    requires (forall i :: 0 <= i < |seg| ==> !Ends(seg[i])) && Stops(rest)
    ensures Segment(seg + rest) == seg
  {
    if seg == "" {
      assert seg + rest == rest;
    } else {
      assert (seg + rest)[1..] == seg[1..] + rest;
      SegmentExact(seg[1..], rest);
    }
  }

  /** An id followed by something that cannot belong to it is read back, together with what follows. */
  lemma ReadUuid(id: string, rest: string)
    requires IsUuid(id) && Stops(rest)
    ensures Segment(id + rest) == id && (id + rest)[|id|..] == rest
  {
    SegmentExact(id, rest);
  }

  /** What is left of s after a given beginning. */
  function After(s: string, prefix: string): Option<string> {
    if prefix <= s then Some(s[|prefix|..]) else None
  }

  lemma AfterExact(prefix: string, rest: string)
    ensures After(prefix + rest, prefix) == Some(rest)
  {
  }

  // ---------- Paths ----------

  datatype Keyword = Projects | Tenants

  function KeywordText(k: Keyword): string {
    match k
    case Projects => "/projects"
    case Tenants => "/tenants"
  }

  /** A role assignment: its groups in the order of the expression. */
  datatype RolePath = RolePath(keyword: Keyword, project: string, user: string, ksadm: bool, role: string, tail: string)

  function RolesText(ksadm: bool): string {
    if ksadm then "/roles/OS-KSADM/" else "/roles/"
  }

  predicate WellFormed(r: RolePath) {
    IsUuid(r.project) && IsUuid(r.user) && IsUuid(r.role) && IsTail(r.tail)
  }

  /** The part of a role path after the user id. */
  datatype Grant = Grant(ksadm: bool, role: string, tail: string)

  function PrintGrant(g: Grant): string {
    RolesText(g.ksadm) + (g.role + g.tail)
  }

  function PrintUserGrant(user: string, g: Grant): string {
    "/users/" + (user + PrintGrant(g))
  }

  function Print(r: RolePath): string {
    KeywordText(r.keyword) + ("/" + (r.project + PrintUserGrant(r.user, Grant(r.ksadm, r.role, r.tail))))
  }

  function ParseKeyword(path: string): Option<(Keyword, string)> {
    var p, t := After(path, "/projects"), After(path, "/tenants");
    if p.Some? then Some((Projects, p.value))
    else if t.Some? then Some((Tenants, t.value))
    else None
  }

  lemma KeywordExact(k: Keyword, rest: string)
    ensures ParseKeyword(KeywordText(k) + rest) == Some((k, rest))
  {
    AfterExact(KeywordText(k), rest);
    assert KeywordText(k)[1] == (KeywordText(k) + rest)[1];
    assert "/projects"[1] == 'p' && "/tenants"[1] == 't';
  }

  /** One id and what follows it. */
  function ParseUuid(s: string): Option<(string, string)> {
    if IsUuid(Segment(s)) then Some((Segment(s), s[|Segment(s)|..])) else None
  }

  function ParseRoles(s: string): Option<(bool, string)> {
    var long, short := After(s, "/roles/OS-KSADM/"), After(s, "/roles/");
    if long.Some? then Some((true, long.value))
    else if short.Some? then Some((false, short.value))
    else None
  }

  function ParseGrant(s: string): Option<Grant> {
    match ParseRoles(s)
    case None => None
    case Some((ksadm, rest)) =>
      match ParseUuid(rest)
      case None => None
      case Some((role, tail)) => if IsTail(tail) then Some(Grant(ksadm, role, tail)) else None
  }

  /** The part of a role path after the project id. */
  function ParseUserGrant(s: string): Option<(string, Grant)> {
    match After(s, "/users/")
    case None => None
    case Some(rest) =>
      match ParseUuid(rest)
      case None => None
      case Some((user, grant)) =>
        if ParseGrant(grant).Some? then Some((user, ParseGrant(grant).value)) else None
  }

  /** A keyword and a project id. */
  function ParseProject(path: string): Option<(Keyword, string, string)> {
    match ParseKeyword(path)
    case None => None
    case Some((keyword, s)) =>
      match After(s, "/")
      case None => None
      case Some(rest) =>
        match ParseUuid(rest)
        case None => None
        case Some((project, more)) => Some((keyword, project, more))
  }

  /** The role expression as a scanner. */
  function ParseRole(path: string): Option<RolePath> {
    match ParseProject(path)
    case None => None
    case Some((keyword, project, s)) =>
      match ParseUserGrant(s)
      case None => None
      case Some((user, g)) => Some(RolePath(keyword, project, user, g.ksadm, g.role, g.tail))
  }

  lemma UuidExact(id: string, rest: string)
    requires IsUuid(id) && Stops(rest)
    ensures ParseUuid(id + rest) == Some((id, rest))
  {
    ReadUuid(id, rest);
  }

  lemma RolesExact(ksadm: bool, id: string, tail: string)
    requires IsUuid(id)
    ensures ParseRoles(RolesText(ksadm) + (id + tail)) == Some((ksadm, id + tail))
  {
    var s := RolesText(ksadm) + (id + tail);
    AfterExact(RolesText(ksadm), id + tail);
    if !ksadm {
      assert s[7] == id[0];
      assert "/roles/OS-KSADM/"[7] == 'O';
      assert IsHex(id[0]) || IsAlphanumeric(id[0]);
    }
  }

  lemma GrantExact(g: Grant)
    requires IsUuid(g.role) && IsTail(g.tail)
    ensures ParseGrant(PrintGrant(g)) == Some(g)
  {
    RolesExact(g.ksadm, g.role, g.tail);
    UuidExact(g.role, g.tail);
  }

  lemma UserGrantExact(user: string, g: Grant)
    requires IsUuid(user) && IsUuid(g.role) && IsTail(g.tail)
    ensures ParseUserGrant(PrintUserGrant(user, g)) == Some((user, g))
  {
    AfterExact("/users/", user + PrintGrant(g));
    UuidExact(user, PrintGrant(g));
    GrantExact(g);
  }

  lemma ProjectExact(k: Keyword, project: string, rest: string)
    requires IsUuid(project) && Stops(rest)
    ensures ParseProject(KeywordText(k) + ("/" + (project + rest))) == Some((k, project, rest))
  {
    KeywordExact(k, "/" + (project + rest));
    AfterExact("/", project + rest);
    UuidExact(project, rest);
  }

  /** get_role_action_ids: user, project and role. */
  function RoleActionIds(path: string): Option<(string, string, string)> {
    match ParseRole(path)
    case None => None
    case Some(r) => Some((r.user, r.project, r.role))
  }

  /** A role path parses back to exactly what it was printed from. */
  lemma RoundTrip(r: RolePath)
    requires WellFormed(r)
    ensures ParseRole(Print(r)) == Some(r)
    ensures RoleActionIds(Print(r)) == Some((r.user, r.project, r.role))
  {
    var g := Grant(r.ksadm, r.role, r.tail);
    UserGrantExact(r.user, g);
    ProjectExact(r.keyword, r.project, PrintUserGrant(r.user, g));
  }

  lemma AfterSound(s: string, prefix: string)
    ensures After(s, prefix).Some? ==> s == prefix + After(s, prefix).value
  {
  }

  lemma GrantSound(s: string)
    ensures var g := ParseGrant(s); g.Some? ==> IsUuid(g.value.role) && IsTail(g.value.tail) && PrintGrant(g.value) == s
  {
    AfterSound(s, "/roles/OS-KSADM/");
    AfterSound(s, "/roles/");
  }

  lemma UuidSound(s: string)
    ensures var r := ParseUuid(s); r.Some? ==> IsUuid(r.value.0) && s == r.value.0 + r.value.1
  {
  }

  lemma UserGrantSound(s: string)
    ensures var r := ParseUserGrant(s);
      r.Some? ==>
        && IsUuid(r.value.0) && IsUuid(r.value.1.role) && IsTail(r.value.1.tail)
        && PrintUserGrant(r.value.0, r.value.1) == s
  {
    AfterSound(s, "/users/");
    if ParseUserGrant(s).Some? {
      var rest := After(s, "/users/").value;
      UuidSound(rest);
      GrantSound(ParseUuid(rest).value.1);
    }
  }

  lemma ProjectSound(path: string)
    ensures var r := ParseProject(path);
      r.Some? ==> IsUuid(r.value.1) && KeywordText(r.value.0) + ("/" + (r.value.1 + r.value.2)) == path
  {
  }

  /** Whatever parses is the print of what it parses to: the scanner accepts exactly the printed paths. */
  lemma ParseSound(path: string)
    ensures var r := ParseRole(path); r.Some? ==> WellFormed(r.value) && Print(r.value) == path
  {
    if ParseRole(path).Some? {
      ProjectSound(path);
      UserGrantSound(ParseProject(path).value.2);
    }
  }

  /** A path matches in at most one way, so the ids taken from it are the only ones it could mean. */
  lemma Unambiguous(path: string, a: RolePath, b: RolePath)
    requires WellFormed(a) && WellFormed(b) && Print(a) == path && Print(b) == path
    ensures a == b
  {
    RoundTrip(a);
    RoundTrip(b);
  }

  // ---------- Actions ----------

  /** The user expression. */
  predicate IsUserPath(path: string) {
    match After(path, "/users/")
    case None => false
    case Some(s) => ParseUuid(s).Some? && IsTail(ParseUuid(s).value.1)
  }

  /** The project expression. */
  predicate IsProjectPath(path: string) {
    ParseProject(path).Some? && IsTail(ParseProject(path).value.2)
  }

  predicate IsUserCollection(path: string) {
    After(path, "/users").Some? && IsTail(After(path, "/users").value)
  }

  predicate IsProjectCollection(path: string) {
    ParseKeyword(path).Some? && IsTail(ParseKeyword(path).value.1)
  }

  datatype Action = CreateUser | DeleteUser | CreateProject | DeleteProject | AddRole | UnassignRole

  /** The predicate of each action. */
  predicate Is(action: Action, method': string, path: string) {
    match action
    case CreateUser => method' == "POST" && IsUserCollection(path)
    case DeleteUser => method' == "DELETE" && IsUserPath(path)
    case CreateProject => method' == "POST" && IsProjectCollection(path)
    case DeleteProject => method' == "DELETE" && IsProjectPath(path)
    case AddRole => method' == "PUT" && ParseRole(path).Some?
    case UnassignRole => method' == "DELETE" && ParseRole(path).Some?
  }

  lemma UsersAreNotProjects(path: string)
    ensures After(path, "/users").Some? || After(path, "/users/").Some? ==> ParseKeyword(path).None?
  {
    if After(path, "/users").Some? || After(path, "/users/").Some? {
      assert path[1] == 'u';
      assert "/projects"[1] == 'p' && "/tenants"[1] == 't';
    }
  }

  lemma RolesAreNotProjects(path: string)
    ensures ParseRole(path).Some? ==> !IsProjectPath(path)
  {
  }

  /** Any request is at most one of the six actions, so the order they are tried in does not matter. */
  lemma AtMostOneAction(method': string, path: string, a: Action, b: Action)
    requires Is(a, method', path) && Is(b, method', path)
    ensures a == b
  {
    UsersAreNotProjects(path);
    RolesAreNotProjects(path);
  }

  lemma TailStops(tail: string)
    requires IsTail(tail)
    ensures Stops(tail)
  {
  }

  lemma AfterIff(s: string, prefix: string, rest: string)
    ensures After(s, prefix) == Some(rest) <==> s == prefix + rest
  {
    AfterExact(prefix, rest);
    AfterSound(s, prefix);
  }

  ghost predicate ReadsAsUser(path: string) {
    exists id, tail :: IsUuid(id) && IsTail(tail) && path == "/users/" + (id + tail)
  }

  ghost predicate ReadsAsProject(path: string) {
    exists k, id, tail :: IsUuid(id) && IsTail(tail) && path == KeywordText(k) + ("/" + (id + tail))
  }

  ghost predicate ReadsAsUsers(path: string) {
    exists tail :: IsTail(tail) && path == "/users" + tail
  }

  ghost predicate ReadsAsProjects(path: string) {
    exists tail :: IsTail(tail) && (path == "/projects" + tail || path == "/tenants" + tail)
  }

  ghost predicate ReadsAsRole(path: string) {
    exists r :: WellFormed(r) && path == Print(r)
  }

  lemma UserPathIff(path: string)
    ensures IsUserPath(path) <==> ReadsAsUser(path)
  {
    if IsUserPath(path) {
      var s := After(path, "/users/").value;
      AfterSound(path, "/users/");
      UuidSound(s);
      var (id, tail) := ParseUuid(s).value;
      assert IsUuid(id) && IsTail(tail) && path == "/users/" + (id + tail);
    }
    if id, tail :| IsUuid(id) && IsTail(tail) && path == "/users/" + (id + tail) {
      AfterExact("/users/", id + tail);
      TailStops(tail);
      UuidExact(id, tail);
    }
  }

  lemma ProjectPathIff(path: string)
    ensures IsProjectPath(path) <==> ReadsAsProject(path)
  {
    ProjectSound(path);
    if IsProjectPath(path) {
      var (k, id, tail) := ParseProject(path).value;
      assert IsUuid(id) && IsTail(tail) && path == KeywordText(k) + ("/" + (id + tail));
    }
    if k, id, tail :| IsUuid(id) && IsTail(tail) && path == KeywordText(k) + ("/" + (id + tail)) {
      TailStops(tail);
      ProjectExact(k, id, tail);
    }
  }

  lemma CollectionsIff(path: string)
    ensures IsUserCollection(path) <==> ReadsAsUsers(path)
    ensures IsProjectCollection(path) <==> ReadsAsProjects(path)
  {
    AfterSound(path, "/users");
    AfterSound(path, "/projects");
    AfterSound(path, "/tenants");
    if tail :| IsTail(tail) && path == "/users" + tail {
      AfterExact("/users", tail);
    }
    if tail :| IsTail(tail) && (path == "/projects" + tail || path == "/tenants" + tail) {
      if path == "/projects" + tail {
        KeywordExact(Projects, tail);
      } else {
        KeywordExact(Tenants, tail);
      }
    }
    if IsProjectCollection(path) {
      var (k, tail) := ParseKeyword(path).value;
      assert IsTail(tail) && (path == "/projects" + tail || path == "/tenants" + tail);
    }
  }

  lemma RolePathIff(path: string)
    ensures ParseRole(path).Some? <==> ReadsAsRole(path)
  {
    if ParseRole(path).Some? {
      ParseSound(path);
    }
    if r :| WellFormed(r) && path == Print(r) {
      RoundTrip(r);
    }
  }

  /** How a role path reads. */
  lemma PrintReads(project: string, user: string, role: string, tail: string)
    ensures Print(RolePath(Projects, project, user, false, role, tail))
      == "/projects/" + project + "/users/" + user + "/roles/" + role + tail
    ensures Print(RolePath(Tenants, project, user, true, role, tail))
      == "/tenants/" + project + "/users/" + user + "/roles/OS-KSADM/" + role + tail
  {
    PrintParts("/projects", project, user, "/roles/", role, tail);
    PrintParts("/tenants", project, user, "/roles/OS-KSADM/", role, tail);
  }

  lemma PrintParts(keyword: string, project: string, user: string, roles: string, role: string, tail: string)
    ensures keyword + ("/" + (project + ("/users/" + (user + (roles + (role + tail))))))
      == keyword + "/" + project + "/users/" + user + roles + role + tail
  {
  }

  /** Which requests the middleware acts on: the method and the whole path, and nothing else, decide. */
  lemma ActsIff(action: Action, method': string, path: string)
    ensures Is(action, method', path) <==>
      match action
      case CreateUser => method' == "POST" && ReadsAsUsers(path)
      case DeleteUser => method' == "DELETE" && ReadsAsUser(path)
      case CreateProject => method' == "POST" && ReadsAsProjects(path)
      case DeleteProject => method' == "DELETE" && ReadsAsProject(path)
      case AddRole => method' == "PUT" && ReadsAsRole(path)
      case UnassignRole => method' == "DELETE" && ReadsAsRole(path)
  {
    match action
    case CreateUser => CollectionsIff(path);
    case DeleteUser => UserPathIff(path);
    case CreateProject => CollectionsIff(path);
    case DeleteProject => ProjectPathIff(path);
    case AddRole => RolePathIff(path);
    case UnassignRole => RolePathIff(path);
  }
}
