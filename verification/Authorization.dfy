/** Permission checks resolved through channel, team and system roles: once from a session
    and once from the stored user. */
module Authorization {
  import opened Wrappers

  datatype Role = Role(permissions: set<string>, deleteAt: int)

  datatype LookupError = NotFound | OtherError

  /** A member of a team as it is read: the roles it has, those given one by one, and the flags. */
  datatype TeamMember = TeamMember(teamId: string, roles: seq<string>, explicitRoles: seq<string>, guest: bool,
                                   user: bool, admin: bool, deleteAt: int)

  /** Everything the checks read. Role names with no role are skipped by the role lookup. */
  datatype Store = Store(
    roles: map<string, Role>,
    rolesReadable: bool,
    user: string -> Result<seq<string>, LookupError>,
    teamMember: (string, string) -> Result<TeamMember, LookupError>,
    channelMember: (string, string) -> Result<seq<string>, LookupError>,
    channelsOfUser: string -> Result<map<string, seq<string>>, LookupError>,
    channelTeam: string -> Result<string, LookupError>)

  datatype Session = Session(userId: string, roles: seq<string>, teamMembers: seq<TeamMember>)

  predicate RoleGrants(store: Store, name: string, permission: string) {
    name in store.roles && store.roles[name].deleteAt == 0 && permission in store.roles[name].permissions
  }

  predicate RolesGrantPermission(store: Store, names: seq<string>, permission: string) {
    store.rolesReadable && exists i :: 0 <= i < |names| && RoleGrants(store, names[i], permission)
  }

  // ---------- from a session ----------

  function TeamMemberOf(members: seq<TeamMember>, teamId: string): Option<TeamMember> {
    if members == [] then None
    else if members[0].teamId == teamId then Some(members[0])
    else TeamMemberOf(members[1..], teamId)
  }

  predicate SessionHasPermissionTo(store: Store, s: Session, permission: string) {
    RolesGrantPermission(store, s.roles, permission)
  }

  predicate SessionHasPermissionToTeam(store: Store, s: Session, teamId: string, permission: string) {
    if teamId == "" then false
    else
      var member := TeamMemberOf(s.teamMembers, teamId);
      (member.Some? && RolesGrantPermission(store, member.value.roles, permission)) ||
      RolesGrantPermission(store, s.roles, permission)
  }

  predicate SessionHasPermissionToChannel(store: Store, s: Session, channelId: string, permission: string) {
    if channelId == "" then false
    else
      var ids := store.channelsOfUser(s.userId);
      if ids.Ok? && channelId in ids.value && RolesGrantPermission(store, ids.value[channelId], permission) then true
      else
        var team := store.channelTeam(channelId);
        if team.Ok? && team.value != "" then SessionHasPermissionToTeam(store, s, team.value, permission)
        else if team == Err(NotFound) then false
        else SessionHasPermissionTo(store, s, permission)
  }

  // ---------- from the stored user ----------

  predicate HasPermissionTo(store: Store, userId: string, permission: string) {
    var user := store.user(userId);
    user.Ok? && RolesGrantPermission(store, user.value, permission)
  }

  predicate HasPermissionToTeam(store: Store, userId: string, teamId: string, permission: string) {
    if teamId == "" || userId == "" then false
    else
      var member := store.teamMember(teamId, userId);
      member.Ok? &&
      (RolesGrantPermission(store, member.value.roles, permission) || HasPermissionTo(store, userId, permission))
  }

  predicate HasPermissionToChannel(store: Store, userId: string, channelId: string, permission: string) {
    if channelId == "" || userId == "" then false
    else
      var member := store.channelMember(channelId, userId);
      if member.Ok? && RolesGrantPermission(store, member.value, permission) then true
      else
        var team := store.channelTeam(channelId);
        if team.Ok? then HasPermissionToTeam(store, userId, team.value, permission)
        else HasPermissionTo(store, userId, permission)
  }

  // ---------- where the two chains differ ----------

  /** What a session shows of the user's place in a team: a row that is not marked as deleted. */
  function Shown(store: Store, teamId: string, userId: string): Option<TeamMember> {
    var member := store.teamMember(teamId, userId);
    if member.Ok? && member.value.deleteAt == 0 then Some(member.value) else None
  }

  /** The session shows what is stored about its user. */
  ghost predicate Mirrors(store: Store, s: Session) {
    && s.userId != ""
    && store.user(s.userId) == Ok(s.roles)
    && (forall t :: TeamMemberOf(s.teamMembers, t) == Shown(store, t, s.userId))
    && store.channelsOfUser(s.userId).Ok?
    && (forall c :: if c in store.channelsOfUser(s.userId).value
                    then store.channelMember(c, s.userId) == Ok(store.channelsOfUser(s.userId).value[c])
                    else store.channelMember(c, s.userId).Err?)
  }

  predicate MemberGrants(store: Store, userId: string, channelId: string, permission: string) {
    var member := store.channelMember(channelId, userId);
    member.Ok? && RolesGrantPermission(store, member.value, permission)
  }

  /** The user has left the team, and the row left behind grants the permission. */
  predicate LeftTeamGrants(store: Store, userId: string, teamId: string, permission: string) {
    var member := store.teamMember(teamId, userId);
    teamId != "" && member.Ok? && member.value.deleteAt != 0 &&
    RolesGrantPermission(store, member.value.roles, permission)
  }

  /** The stored user has a permission that the session lacks exactly through the system roles, for a channel that
      does not exist, or through the roles in the channel's team, which the user has left. */
  lemma StoredButNotSession(store: Store, s: Session, channelId: string, permission: string)
    requires Mirrors(store, s) && channelId != ""
    ensures HasPermissionToChannel(store, s.userId, channelId, permission) &&
            !SessionHasPermissionToChannel(store, s, channelId, permission) <==>
            var team := store.channelTeam(channelId);
            !MemberGrants(store, s.userId, channelId, permission) &&
            if RolesGrantPermission(store, s.roles, permission) then team == Err(NotFound)
            else team.Ok? && LeftTeamGrants(store, s.userId, team.value, permission)
  {
    MemberRolesAgree(store, s, channelId, permission);
    var team := store.channelTeam(channelId);
    if team.Ok? {
      TeamChecksAgree(store, s, team.value, permission);
    }
  }

  /** So for an existing channel the check of the stored user implies that of the session, except exactly for users
      who have left the channel's team, with a row that still grants what nothing else does. */
  lemma StoredImpliesSession(store: Store, s: Session, channelId: string, permission: string)
    requires Mirrors(store, s) && channelId != "" && store.channelTeam(channelId).Ok?
    ensures (HasPermissionToChannel(store, s.userId, channelId, permission) ==>
               SessionHasPermissionToChannel(store, s, channelId, permission)) <==>
            MemberGrants(store, s.userId, channelId, permission) ||
            RolesGrantPermission(store, s.roles, permission) ||
            !LeftTeamGrants(store, s.userId, store.channelTeam(channelId).value, permission)
  {
    StoredButNotSession(store, s, channelId, permission);
  }

  /** The session has a permission that the stored user lacks exactly through the system roles,
      in a channel that has no team or a team in which the user has no row. */
  lemma SessionButNotStored(store: Store, s: Session, channelId: string, permission: string)
    requires Mirrors(store, s) && channelId != ""
    ensures SessionHasPermissionToChannel(store, s, channelId, permission) &&
            !HasPermissionToChannel(store, s.userId, channelId, permission) <==>
            !MemberGrants(store, s.userId, channelId, permission) &&
            RolesGrantPermission(store, s.roles, permission) &&
            store.channelTeam(channelId).Ok? &&
            (store.channelTeam(channelId).value == "" ||
             store.teamMember(store.channelTeam(channelId).value, s.userId).Err?)
  {
    MemberRolesAgree(store, s, channelId, permission);
    var team := store.channelTeam(channelId);
    if team.Ok? {
      TeamChecksAgree(store, s, team.value, permission);
    }
  }

  lemma MemberRolesAgree(store: Store, s: Session, channelId: string, permission: string)
    requires Mirrors(store, s)
    ensures var ids := store.channelsOfUser(s.userId).value;
            MemberGrants(store, s.userId, channelId, permission) <==>
            channelId in ids && RolesGrantPermission(store, ids[channelId], permission)
  {
    var ids := store.channelsOfUser(s.userId).value;
    assert if channelId in ids then store.channelMember(channelId, s.userId) == Ok(ids[channelId])
           else store.channelMember(channelId, s.userId).Err?;
  }

  /** The team checks differ exactly for users who have left the team, in favour of the stored user, and for users
      without a row in it, in favour of the session. */
  lemma TeamChecksAgree(store: Store, s: Session, teamId: string, permission: string)
    requires Mirrors(store, s)
    ensures HasPermissionToTeam(store, s.userId, teamId, permission) &&
            !SessionHasPermissionToTeam(store, s, teamId, permission) <==>
            LeftTeamGrants(store, s.userId, teamId, permission) && !RolesGrantPermission(store, s.roles, permission)
    ensures SessionHasPermissionToTeam(store, s, teamId, permission) &&
            !HasPermissionToTeam(store, s.userId, teamId, permission) <==>
            teamId != "" && store.teamMember(teamId, s.userId).Err? && RolesGrantPermission(store, s.roles, permission)
  {
    assert TeamMemberOf(s.teamMembers, teamId) == Shown(store, teamId, s.userId);
  }

  // ---------- leaving a team ----------

  const TEAM_GUEST := "team_guest"
  const TEAM_USER := "team_user"
  const TEAM_ADMIN := "team_admin"

  /** A row of the table of team members, with the names of the roles given one by one. In rows that were not
      migrated yet the three names above are among them and stand for the flags. */
  datatype TeamRow = TeamRow(teamId: string, names: seq<string>, guest: bool, user: bool, admin: bool, deleteAt: int)

  /** The names that the team's scheme, or else the system, has for the roles of guests, users and admins. */
  datatype Defaults = Defaults(guest: string, user: string, admin: string)

  const SYSTEM_DEFAULTS := Defaults(TEAM_GUEST, TEAM_USER, TEAM_ADMIN)

  predicate Explicit(name: string) {
    name != TEAM_GUEST && name != TEAM_USER && name != TEAM_ADMIN
  }

  function ExplicitNames(names: seq<string>): seq<string> {
    if names == [] then []
    else (if Explicit(names[0]) then [names[0]] else []) + ExplicitNames(names[1..])
  }

  function WithImplied(roles: seq<string>, name: string, flag: bool): seq<string> {
    if flag && name !in roles then roles + [name] else roles
  }

  /** A row as it is read. */
  function ReadRow(row: TeamRow, d: Defaults): TeamMember {
    var roles := WithImplied(WithImplied(row.names, d.guest, row.guest), d.user, row.user);
    var roles := WithImplied(roles, d.admin, row.admin);
    TeamMember(row.teamId, roles, ExplicitNames(row.names), row.guest || TEAM_GUEST in row.names,
               row.user || TEAM_USER in row.names, row.admin || TEAM_ADMIN in row.names, row.deleteAt)
  }

  /** A member as it is stored: the names of all roles are not. */
  function SavedRow(m: TeamMember): TeamRow {
    TeamRow(m.teamId, m.explicitRoles, m.guest, m.user, m.admin, m.deleteAt)
  }

  /** Leaving a team empties the names of all roles, marks the member as deleted, and stores it. */
  function AfterLeaving(row: TeamRow, d: Defaults, now: int): TeamRow {
    SavedRow(ReadRow(row, d).(roles := [], deleteAt := now))
  }

  predicate Replaced(name: string, d: Defaults) {
    (name == TEAM_GUEST && d.guest != name) || (name == TEAM_USER && d.user != name) ||
    (name == TEAM_ADMIN && d.admin != name)
  }

  lemma {:induction false} ExplicitNamesAre(names: seq<string>)
    ensures forall n :: n in ExplicitNames(names) <==> n in names && Explicit(n)
    ensures (forall n :: n in names ==> Explicit(n)) ==> ExplicitNames(names) == names
  {
    if names != [] {
      ExplicitNamesAre(names[1..]);
      assert names == [names[0]] + names[1..];
    }
  }

  /** A user who leaves a team keeps all roles in it, but for the names of a row not migrated yet that the team's
      scheme has replaced; a migrated row is read as before, but for the deletion. */
  lemma LeavingKeepsRoles(row: TeamRow, d: Defaults, now: int)
    ensures forall n :: n in ReadRow(row, d).roles && n !in ReadRow(AfterLeaving(row, d, now), d).roles ==>
              n in row.names && Replaced(n, d)
    ensures (forall n :: n in row.names ==> Explicit(n)) ==>
              ReadRow(AfterLeaving(row, d, now), d) == ReadRow(row, d).(deleteAt := now)
  {
    ExplicitNamesAre(row.names);
    var after := AfterLeaving(row, d, now);
    forall n | n in ReadRow(row, d).roles && n !in ReadRow(after, d).roles ensures n in row.names && Replaced(n, d) {
      RolesRead(row, d, n);
      RolesRead(after, d, n);
    }
  }

  /** A default name in a row that was not migrated stands for a flag. */
  lemma FlagsRead(row: TeamRow, d: Defaults)
    ensures var m := ReadRow(row, d);
            && (m.guest <==> row.guest || "team_guest" in row.names)
            && (m.user <==> row.user || "team_user" in row.names)
            && (m.admin <==> row.admin || "team_admin" in row.names)
            && SavedRow(m).guest == m.guest && SavedRow(m).user == m.user && SavedRow(m).admin == m.admin
            && forall n :: n in SavedRow(m).names ==> n != "team_guest" && n != "team_user" && n != "team_admin"
  {
    ExplicitNamesAre(row.names);
  }

  /** The roles read are the names of the row, and behind them those that the flags stand for and that are new. */
  lemma RolesRead(row: TeamRow, d: Defaults, n: string)
    ensures n in ReadRow(row, d).roles <==>
            n in row.names || (n == d.guest && row.guest) || (n == d.user && row.user) || (n == d.admin && row.admin)
    ensures row.names <= ReadRow(row, d).roles
    ensures (forall i, j :: 0 <= i < j < |row.names| ==> row.names[i] != row.names[j]) ==>
              forall i, j :: 0 <= i < j < |ReadRow(row, d).roles| ==>
                ReadRow(row, d).roles[i] != ReadRow(row, d).roles[j]
  {
  }

  /** So whatever the roles of a team grant to a member, the stored user still has in the channels of the team
      after leaving it, and a new session exactly if there is another reason for it. */
  lemma LeavingKeepsPermission(store: Store, s: Session, row: TeamRow, d: Defaults, now: int, channelId: string,
                               permission: string)
    requires row.teamId != "" && now != 0 && forall n :: n in row.names ==> Explicit(n)
    requires RolesGrantPermission(store, ReadRow(row, d).roles, permission)
    requires Mirrors(store, s) && channelId != "" && store.channelTeam(channelId) == Ok(row.teamId)
    requires store.teamMember(row.teamId, s.userId) == Ok(ReadRow(AfterLeaving(row, d, now), d))
    ensures HasPermissionToChannel(store, s.userId, channelId, permission)
    ensures SessionHasPermissionToChannel(store, s, channelId, permission) <==>
            MemberGrants(store, s.userId, channelId, permission) || RolesGrantPermission(store, s.roles, permission)
  {
    LeavingKeepsRoles(row, d, now);
    MemberRolesAgree(store, s, channelId, permission);
    assert TeamMemberOf(s.teamMembers, row.teamId) == Shown(store, row.teamId, s.userId);
  }

  /** A user who was in a team, with no other role, has left it. */
  function AfterLastTeam(permission: string): Store {
    var left := ReadRow(AfterLeaving(TeamRow("t", [], false, true, false, 0), SYSTEM_DEFAULTS, 1), SYSTEM_DEFAULTS);
    Store(map[TEAM_USER := Role({permission}, 0)], true, user => Ok([]),
          (team, user) => if team == "t" then Ok(left) else Err(NotFound), (channel, user) => Err(NotFound),
          user => Ok(map[]), channel => Ok("t"))
  }

  /** In the team's channels the stored user still has what the team's users have, and the session does not. */
  lemma LeftTeamStillGrants(permission: string, channelId: string)
    requires channelId != ""
    ensures var store, s := AfterLastTeam(permission), Session("u", [], []);
            Mirrors(store, s) && HasPermissionToChannel(store, "u", channelId, permission) &&
            !SessionHasPermissionToChannel(store, s, channelId, permission)
  {
    var store, s := AfterLastTeam(permission), Session("u", [], []);
    var row := TeamRow("t", [], false, true, false, 0);
    var roles := ReadRow(row, SYSTEM_DEFAULTS).roles;
    assert roles == [TEAM_USER] && RoleGrants(store, roles[0], permission);
    assert Mirrors(store, s);
    LeavingKeepsPermission(store, s, row, SYSTEM_DEFAULTS, 1, channelId, permission);
  }

  // ---------- what a grant means ----------

  /** In a session the first entry for a team counts, beside the roles of the user. */
  predicate CountsForSessionTeam(s: Session, teamId: string, name: string) {
    name in s.roles ||
    exists i :: 0 <= i < |s.teamMembers| && s.teamMembers[i].teamId == teamId && name in s.teamMembers[i].roles &&
      forall j :: 0 <= j < i ==> s.teamMembers[j].teamId != teamId
  }

  /** For a channel the member's roles count, and then those for its team, if it has one, or else those of the
      user, unless the channel is not found. */
  predicate CountsForSessionChannel(store: Store, s: Session, channelId: string, name: string) {
    var ids, team := store.channelsOfUser(s.userId), store.channelTeam(channelId);
    || (ids.Ok? && channelId in ids.value && name in ids.value[channelId])
    || (team.Ok? && team.value != "" && CountsForSessionTeam(s, team.value, name))
    || (team != Err(NotFound) && name in s.roles)
  }

  /** For a stored user nothing counts without a row in the team. */
  predicate CountsForStoredTeam(store: Store, userId: string, teamId: string, name: string) {
    var member, user := store.teamMember(teamId, userId), store.user(userId);
    teamId != "" && member.Ok? && (name in member.value.roles || (user.Ok? && name in user.value))
  }

  predicate CountsForStoredChannel(store: Store, userId: string, channelId: string, name: string) {
    var member, team, user := store.channelMember(channelId, userId), store.channelTeam(channelId), store.user(userId);
    || (member.Ok? && name in member.value)
    || (team.Ok? && CountsForStoredTeam(store, userId, team.value, name))
    || (team.Err? && user.Ok? && name in user.value)
  }

  /** A check of some roles passes if and only if one of them exists, is not deleted, and has the permission. */
  lemma GrantedByRolesIff(store: Store, names: seq<string>, permission: string)
    ensures RolesGrantPermission(store, names, permission) <==>
            store.rolesReadable &&
            exists name ::
              name in names && name in store.roles && store.roles[name].deleteAt == 0 &&
              permission in store.roles[name].permissions
  {
    forall name | name in names && RoleGrants(store, name, permission)
      ensures exists i :: 0 <= i < |names| && RoleGrants(store, names[i], permission)
    {
      var i :| 0 <= i < |names| && names[i] == name;
    }
  }

  lemma {:induction false} FirstEntryIs(members: seq<TeamMember>, teamId: string, name: string)
    ensures TeamMemberOf(members, teamId).Some? && name in TeamMemberOf(members, teamId).value.roles <==>
            exists i :: 0 <= i < |members| && members[i].teamId == teamId && name in members[i].roles &&
              forall j :: 0 <= j < i ==> members[j].teamId != teamId
  {
    if members != [] && members[0].teamId != teamId {
      var rest := members[1..];
      FirstEntryIs(rest, teamId, name);
      forall i | 0 <= i < |rest| && rest[i].teamId == teamId && name in rest[i].roles &&
                 forall j :: 0 <= j < i ==> rest[j].teamId != teamId
        ensures members[i + 1].teamId == teamId && name in members[i + 1].roles &&
                forall j :: 0 <= j < i + 1 ==> members[j].teamId != teamId
      {
        assert forall j :: 0 < j < i + 1 ==> members[j] == rest[j - 1];
      }
      forall i | 0 <= i < |members| && members[i].teamId == teamId && name in members[i].roles &&
                 forall j :: 0 <= j < i ==> members[j].teamId != teamId
        ensures rest[i - 1].teamId == teamId && name in rest[i - 1].roles &&
                forall j :: 0 <= j < i - 1 ==> rest[j].teamId != teamId
      {
        assert forall j :: 0 <= j < i - 1 ==> rest[j] == members[j + 1];
      }
    }
  }

  /** The check of a session passes if and only if a role that counts exists, is not deleted, and has the permission. */
  lemma SessionTeamGrantedIff(store: Store, s: Session, teamId: string, permission: string)
    ensures SessionHasPermissionToTeam(store, s, teamId, permission) <==>
            teamId != "" && store.rolesReadable &&
            exists name ::
              CountsForSessionTeam(s, teamId, name) &&
              name in store.roles && store.roles[name].deleteAt == 0 && permission in store.roles[name].permissions
  {
    GrantedByRolesIff(store, s.roles, permission);
    var member := TeamMemberOf(s.teamMembers, teamId);
    if member.Some? {
      GrantedByRolesIff(store, member.value.roles, permission);
    }
    forall name ensures CountsForSessionTeam(s, teamId, name) <==>
                        name in s.roles || (member.Some? && name in member.value.roles)
    {
      FirstEntryIs(s.teamMembers, teamId, name);
    }
  }

  lemma SessionChannelGrantedIff(store: Store, s: Session, channelId: string, permission: string)
    ensures SessionHasPermissionToChannel(store, s, channelId, permission) <==>
            channelId != "" && store.rolesReadable &&
            exists name ::
              CountsForSessionChannel(store, s, channelId, name) &&
              name in store.roles && store.roles[name].deleteAt == 0 && permission in store.roles[name].permissions
  {
    var ids, team := store.channelsOfUser(s.userId), store.channelTeam(channelId);
    GrantedByRolesIff(store, s.roles, permission);
    if ids.Ok? && channelId in ids.value {
      GrantedByRolesIff(store, ids.value[channelId], permission);
    }
    if team.Ok? {
      SessionTeamGrantedIff(store, s, team.value, permission);
    }
  }

  /** And likewise that of a stored user. */
  lemma StoredTeamGrantedIff(store: Store, userId: string, teamId: string, permission: string)
    ensures HasPermissionToTeam(store, userId, teamId, permission) <==>
            userId != "" && store.rolesReadable &&
            exists name ::
              CountsForStoredTeam(store, userId, teamId, name) &&
              name in store.roles && store.roles[name].deleteAt == 0 && permission in store.roles[name].permissions
  {
    if store.teamMember(teamId, userId).Ok? {
      GrantedByRolesIff(store, store.teamMember(teamId, userId).value.roles, permission);
    }
    if store.user(userId).Ok? {
      GrantedByRolesIff(store, store.user(userId).value, permission);
    }
  }

  lemma StoredChannelGrantedIff(store: Store, userId: string, channelId: string, permission: string)
    ensures HasPermissionToChannel(store, userId, channelId, permission) <==>
            userId != "" && channelId != "" && store.rolesReadable &&
            exists name ::
              CountsForStoredChannel(store, userId, channelId, name) &&
              name in store.roles && store.roles[name].deleteAt == 0 && permission in store.roles[name].permissions
  {
    var member, team := store.channelMember(channelId, userId), store.channelTeam(channelId);
    if member.Ok? {
      GrantedByRolesIff(store, member.value, permission);
    }
    if team.Ok? {
      StoredTeamGrantedIff(store, userId, team.value, permission);
    }
    if store.user(userId).Ok? {
      GrantedByRolesIff(store, store.user(userId).value, permission);
    }
  }

  /** Order, repetition, and roles that are unknown, deleted or without the permission make no difference. */
  lemma OnlyLiveRolesMatter(store: Store, a: seq<string>, b: seq<string>, permission: string)
    requires forall n ::
               n in store.roles && store.roles[n].deleteAt == 0 && permission in store.roles[n].permissions ==>
                 (n in a <==> n in b)
    ensures RolesGrantPermission(store, a, permission) <==> RolesGrantPermission(store, b, permission)
  {
    GrantedByRolesIff(store, a, permission);
    GrantedByRolesIff(store, b, permission);
  }
}
