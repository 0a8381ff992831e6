/** Channel moderation: resolving the roles of a channel through schemes, and patching what its
    members and guests may do. */
module Moderation {
  import opened Wrappers
  import opened ChannelRoles

  // ---------- permissions ----------

  const CREATE_POST := "create_post"
  const CREATE_REACTIONS := "create_reactions"
  const MANAGE_MEMBERS := "manage_members"
  const USE_CHANNEL_MENTIONS := "use_channel_mentions"

  /** The names under which permissions are moderated, in the order in which they are shown. */
  const MODERATED_NAMES := [CREATE_POST, CREATE_REACTIONS, MANAGE_MEMBERS, USE_CHANNEL_MENTIONS]

  const MODERATED: map<string, string> := map[
    "create_post" := CREATE_POST,
    "add_reaction" := CREATE_REACTIONS,
    "remove_reaction" := CREATE_REACTIONS,
    "manage_public_channel_members" := MANAGE_MEMBERS,
    "manage_private_channel_members" := MANAGE_MEMBERS,
    "use_channel_mentions" := USE_CHANNEL_MENTIONS
  ]

  /** Does a role with these permissions have one that is moderated under this name? */
  predicate Has(permissions: set<string>, name: string) {
    exists p :: p in permissions && p in MODERATED && MODERATED[p] == name
  }

  /** The permissions that are moderated, and under which names. */
  lemma ModeratedAre(p: string)
    ensures p in MODERATED <==>
            p in {"create_post", "add_reaction", "remove_reaction", "manage_public_channel_members",
                  "manage_private_channel_members", "use_channel_mentions"}
    ensures MODERATED["create_post"] == "create_post" && MODERATED["use_channel_mentions"] == "use_channel_mentions"
    ensures MODERATED["add_reaction"] == MODERATED["remove_reaction"] == "create_reactions"
    ensures MODERATED["manage_public_channel_members"] == "manage_members"
    ensures MODERATED["manage_private_channel_members"] == "manage_members"
    ensures MODERATED_NAMES == ["create_post", "create_reactions", "manage_members", "use_channel_mentions"]
  {
  }

  predicate SameModerated(some: set<string>, others: set<string>) {
    forall p :: p in MODERATED ==> (Has(some, MODERATED[p]) <==> Has(others, MODERATED[p]))
  }

  // ---------- patches ----------

  datatype Side = Members | Guests

  datatype PatchEntry = PatchEntry(name: string, members: Option<bool>, guests: Option<bool>) {
    function Wanted(side: Side): Option<bool> {
      match side
      case Members => members
      case Guests => guests
    }
  }

  type Patch = seq<PatchEntry>

  /** Does the patch ask for this value of a name? */
  predicate Asks(patch: Patch, side: Side, name: string, value: bool) {
    exists i :: 0 <= i < |patch| && patch[i].name == name && patch[i].Wanted(side) == Some(value)
  }

  /** The permissions of a role after a patch: moderated ones only, and where a patch asks for both, on wins. */
  function Patched(permissions: set<string>, patch: Patch, side: Side): set<string> {
    set p | p in MODERATED
            && ((p in permissions && !Asks(patch, side, MODERATED[p], false)) || Asks(patch, side, MODERATED[p], true))
  }

  /** What a patch does to a name. */
  lemma PatchedHas(permissions: set<string>, patch: Patch, side: Side, name: string)
    requires exists p :: p in MODERATED && MODERATED[p] == name
    ensures Has(Patched(permissions, patch, side), name)
            <==> (Has(permissions, name) && !Asks(patch, side, name, false)) || Asks(patch, side, name, true)
  {
    var after := Patched(permissions, patch, side);
    if Has(after, name) {
      var p :| p in after && p in MODERATED && MODERATED[p] == name;
      assert p in permissions ==> Has(permissions, name);
    }
    if Asks(patch, side, name, true) {
      var p :| p in MODERATED && MODERATED[p] == name;
      assert p in after;
    } else if Has(permissions, name) && !Asks(patch, side, name, false) {
      var p :| p in permissions && p in MODERATED && MODERATED[p] == name;
      assert p in after;
    }
  }

  /** Nothing that is not moderated survives a patch. */
  lemma OnlyModeratedSurvive(permissions: set<string>, patch: Patch, side: Side, p: string)
    ensures p in Patched(permissions, patch, side) ==> p in MODERATED
    ensures p in permissions && p !in MODERATED ==> p !in Patched(permissions, patch, side)
  {
  }

  /** Patching twice is patching once. */
  lemma PatchingIsIdempotent(permissions: set<string>, patch: Patch, side: Side)
    ensures Patched(Patched(permissions, patch, side), patch, side) == Patched(permissions, patch, side)
  {
    var once := Patched(permissions, patch, side);
    forall p ensures p in Patched(once, patch, side) <==> p in once {
    }
  }

  // ---------- resolution ----------

  datatype ChannelInfo = ChannelInfo(teamId: string, schemeId: string)

  /** Channels and teams with the scheme they override the default with, if any; the roles of each
      scheme; the permissions of each role. */
  datatype State = State(
    channels: map<string, ChannelInfo>,
    teamSchemes: map<string, string>,
    schemes: map<string, SchemeRoles>,
    roles: map<string, set<string>>,
    migrated: bool)

  const SYSTEM_ROLES := SchemeRoles(CHANNEL_GUEST, CHANNEL_USER, CHANNEL_ADMIN)

  /** Schemes cannot be read before the migration has completed. */
  function GetScheme(st: State, schemeId: string): Option<SchemeRoles> {
    if st.migrated && schemeId in st.schemes then Some(st.schemes[schemeId]) else None
  }

  function TeamRoles(st: State, teamId: string): Option<SchemeRoles> {
    if teamId !in st.teamSchemes then None
    else if st.teamSchemes[teamId] != "" then GetScheme(st, st.teamSchemes[teamId])
    else Some(SYSTEM_ROLES)
  }

  function ChannelSchemeRoles(st: State, channelId: string): Option<SchemeRoles> {
    if channelId !in st.channels then None
    else if st.channels[channelId].schemeId != "" then GetScheme(st, st.channels[channelId].schemeId)
    else TeamRoles(st, st.channels[channelId].teamId)
  }

  /** The permissions of members and of guests. */
  datatype Pair = Pair(members: set<string>, guests: set<string>)

  function PairOf(st: State, names: Option<SchemeRoles>): Option<Pair> {
    if names.Some? && names.value.user in st.roles && names.value.guest in st.roles
    then Some(Pair(st.roles[names.value.user], st.roles[names.value.guest]))
    else None
  }

  datatype Setting = Setting(value: bool, enabled: bool)

  datatype Moderation = Moderation(name: string, members: Setting, guests: Option<Setting>)

  function Shown(name: string, own: Pair, higher: Pair): Moderation {
    Moderation(name, Setting(Has(own.members, name), Has(higher.members, name)),
               if name == MANAGE_MEMBERS then None else Some(Setting(Has(own.guests, name), Has(higher.guests, name))))
  }

  function Built(own: Pair, higher: Pair): seq<Moderation> {
    [Shown(CREATE_POST, own, higher), Shown(CREATE_REACTIONS, own, higher), Shown(MANAGE_MEMBERS, own, higher),
     Shown(USE_CHANNEL_MENTIONS, own, higher)]
  }

  /** Reading the moderations of a channel. */
  function Moderations(st: State, channelId: string): Option<seq<Moderation>> {
    if channelId !in st.channels then None
    else
      var own := PairOf(st, ChannelSchemeRoles(st, channelId));
      var higher := PairOf(st, TeamRoles(st, st.channels[channelId].teamId));
      if own.None? || higher.None? then None else Some(Built(own.value, higher.value))
  }

  // ---------- stores as they come about ----------

  function NamesOf(scheme: SchemeRoles): set<string> {
    {scheme.guest, scheme.user, scheme.admin}
  }

  predicate ThreeNames(scheme: SchemeRoles) {
    scheme.guest != scheme.user && scheme.user != scheme.admin && scheme.guest != scheme.admin
  }

  /** Every scheme has roles of its own, and no scheme of a channel is the scheme of a team. */
  ghost predicate WellFormed(st: State) {
    && "" !in st.schemes
    && (forall s :: s in st.schemes ==>
          ThreeNames(st.schemes[s]) && NamesOf(st.schemes[s]) <= st.roles.Keys && NamesOf(st.schemes[s]) !! DEFAULTS)
    && (forall s, t :: s in st.schemes && t in st.schemes && s != t ==>
          NamesOf(st.schemes[s]) !! NamesOf(st.schemes[t]))
    && (forall c :: c in st.channels && st.channels[c].schemeId != "" ==> st.channels[c].schemeId in st.schemes)
    && (forall c, t :: c in st.channels && t in st.teamSchemes && st.channels[c].schemeId != "" ==>
          st.channels[c].schemeId != st.teamSchemes[t])
    && (forall t :: t in st.teamSchemes && st.teamSchemes[t] != "" ==> st.teamSchemes[t] in st.schemes)
  }

  /** The id and the role names of the next scheme; ids are never used twice. */
  datatype NewScheme = NewScheme(id: string, names: SchemeRoles)

  predicate Unused(st: State, newScheme: NewScheme) {
    && newScheme.id != "" && newScheme.id !in st.schemes
    && ThreeNames(newScheme.names) && NamesOf(newScheme.names) !! st.roles.Keys && NamesOf(newScheme.names) !! DEFAULTS
  }

  // ---------- what resolution gives ----------

  predicate RolesExist(st: State, scheme: SchemeRoles) {
    scheme.user in st.roles && scheme.guest in st.roles
  }

  lemma SchemeRolesExist(st: State, schemeId: string)
    requires WellFormed(st) && schemeId in st.schemes
    ensures RolesExist(st, st.schemes[schemeId])
  {
    var names := st.schemes[schemeId];
    assert names.user in NamesOf(names) && names.guest in NamesOf(names);
    assert names.user in st.roles.Keys && names.guest in st.roles.Keys;
  }

  /** The moderations of a channel can be read exactly if the channel and its team are known, the system's roles
      exist if the team has no scheme, and the migration has completed if the channel or the team has one. */
  lemma ReadableIff(st: State, channelId: string)
    requires WellFormed(st)
    ensures Moderations(st, channelId).Some? <==>
              channelId in st.channels
              && var channel := st.channels[channelId];
                 channel.teamId in st.teamSchemes
                 && (st.teamSchemes[channel.teamId] == "" ==> RolesExist(st, SYSTEM_ROLES))
                 && (st.teamSchemes[channel.teamId] != "" || channel.schemeId != "" ==> st.migrated)
  {
    if channelId in st.channels {
      var channel := st.channels[channelId];
      if channel.schemeId != "" {
        SchemeRolesExist(st, channel.schemeId);
      }
      if channel.teamId in st.teamSchemes && st.teamSchemes[channel.teamId] != "" {
        SchemeRolesExist(st, st.teamSchemes[channel.teamId]);
      }
    }
  }

  /** Channels of a team without schemes of their own resolve alike, to what the team's moderations allow in full. */
  lemma SchemelessResolveAlike(st: State, channelId: string, other: string)
    requires channelId in st.channels && other in st.channels
    requires st.channels[channelId].schemeId == "" && st.channels[other] == st.channels[channelId]
    requires Moderations(st, channelId).Some?
    ensures Moderations(st, other) == Moderations(st, channelId)
    ensures forall k :: 0 <= k < |Moderations(st, channelId).value| ==>
              var shown := Moderations(st, channelId).value[k];
              shown.members.value == shown.members.enabled
              && (shown.guests.Some? ==> shown.guests.value.value == shown.guests.value.enabled)
  {
  }

  // ---------- the patch ----------

  datatype Fault = CreateFails | DeleteFails | UpdateFails | PatchMembersFails | PatchGuestsFails

  datatype Error = NoRole | Restricted | StoreFailed(fault: Fault)

  datatype Outcome = Outcome(state: State, result: Result<seq<Moderation>, Error>)

  predicate Allowed(patch: Patch, higher: Pair) {
    forall i :: 0 <= i < |patch| ==>
      (patch[i].members == Some(true) ==> Has(higher.members, patch[i].name))
      && (patch[i].guests == Some(true) ==> Has(higher.guests, patch[i].name))
  }

  /** A new scheme for a channel: its roles start as copies of the system's, whatever the scheme of the team. */
  function SchemeCreated(st: State, channelId: string, newScheme: NewScheme): Option<State>
    requires channelId in st.channels
  {
    if st.migrated && DEFAULTS <= st.roles.Keys then
      var names := newScheme.names;
      Some(st.(roles := st.roles[names.admin := st.roles[CHANNEL_ADMIN]][names.user := st.roles[CHANNEL_USER]]
                        [names.guest := st.roles[CHANNEL_GUEST]],
               schemes := st.schemes[newScheme.id := newScheme.names],
               channels := st.channels[channelId := st.channels[channelId].(schemeId := newScheme.id)]))
    else None
  }

  /** Every channel using the scheme falls back. */
  function SchemeDropped(st: State, schemeId: string): State {
    st.(channels := map c | c in st.channels ::
          if st.channels[c].schemeId == schemeId then st.channels[c].(schemeId := "") else st.channels[c])
  }

  /** Dropping a scheme makes exactly its channels resolve as their teams do. */
  lemma DroppedResolves(st: State, schemeId: string, channelId: string)
    requires schemeId != "" && channelId in st.channels
    ensures ChannelSchemeRoles(SchemeDropped(st, schemeId), channelId) ==
            if st.channels[channelId].schemeId == schemeId then TeamRoles(st, st.channels[channelId].teamId)
            else ChannelSchemeRoles(st, channelId)
  {
  }

  /** What remains once the channel has a scheme of its own. */
  function PatchOwn(st: State, channelId: string, patch: Patch, higher: Pair, fault: Option<Fault>): Outcome
    requires channelId in st.channels
  {
    var names := ChannelSchemeRoles(st, channelId);
    var own := PairOf(st, names);
    if own.None? then Outcome(st, Err(NoRole))
    else
      var patched := Pair(Patched(own.value.members, patch, Members), Patched(own.value.guests, patch, Guests));
      if SameModerated(higher.members, patched.members) && SameModerated(higher.guests, patched.guests) then
        if fault == Some(DeleteFails) then Outcome(st, Err(Error.StoreFailed(DeleteFails)))
        else
          Outcome(SchemeDropped(st, st.channels[channelId].schemeId),
                  if fault == Some(UpdateFails) then Err(Error.StoreFailed(UpdateFails)) else Ok(Built(higher, higher)))
      else if fault == Some(PatchMembersFails) then Outcome(st, Err(Error.StoreFailed(PatchMembersFails)))
      else
        var st1 := st.(roles := st.roles[names.value.user := patched.members]);
        if fault == Some(PatchGuestsFails) then Outcome(st1, Err(Error.StoreFailed(PatchGuestsFails)))
        else Outcome(st1.(roles := st1.roles[names.value.guest := patched.guests]), Ok(Built(patched, higher)))
  }

  function PatchModerations(st: State, channelId: string, patch: Patch, newScheme: NewScheme,
                            fault: Option<Fault>): Outcome
    requires channelId in st.channels
  {
    var higher := PairOf(st, TeamRoles(st, st.channels[channelId].teamId));
    if higher.None? then Outcome(st, Err(NoRole))
    else if !Allowed(patch, higher.value) then Outcome(st, Err(Restricted))
    else if st.channels[channelId].schemeId != "" then PatchOwn(st, channelId, patch, higher.value, fault)
    else
      var created := SchemeCreated(st, channelId, newScheme);
      if fault == Some(CreateFails) || created.None? then Outcome(st, Err(Error.StoreFailed(CreateFails)))
      else PatchOwn(created.value, channelId, patch, higher.value, fault)
  }

  // ---------- what a patch achieves ----------

  /** The roles a patch starts from: the channel's own, or the system's. */
  function Base(st: State, channelId: string): Option<Pair>
    requires channelId in st.channels
  {
    PairOf(st, if st.channels[channelId].schemeId != "" then ChannelSchemeRoles(st, channelId) else Some(SYSTEM_ROLES))
  }

  function Higher(st: State, channelId: string): Option<Pair>
    requires channelId in st.channels
  {
    PairOf(st, TeamRoles(st, st.channels[channelId].teamId))
  }

  /** The roles of members and guests the patch arrives at. */
  function Target(base: Pair, patch: Patch): Pair {
    Pair(Patched(base.members, patch, Members), Patched(base.guests, patch, Guests))
  }

  predicate SamePair(some: Pair, others: Pair) {
    SameModerated(some.members, others.members) && SameModerated(some.guests, others.guests)
  }

  /** With a new scheme the channel resolves to copies of the system's roles, and the team's roles are as before. */
  lemma CreatedResolves(st: State, channelId: string, newScheme: NewScheme)
    requires channelId in st.channels && WellFormed(st) && Unused(st, newScheme)
             && SchemeCreated(st, channelId, newScheme).Some?
    ensures var created := SchemeCreated(st, channelId, newScheme).value;
            ChannelSchemeRoles(created, channelId) == Some(newScheme.names)
            && PairOf(created, Some(newScheme.names)) == PairOf(st, Some(SYSTEM_ROLES))
            && TeamRoles(created, st.channels[channelId].teamId) == TeamRoles(st, st.channels[channelId].teamId)
            && (Higher(st, channelId).Some? ==>
                     PairOf(created, TeamRoles(created, st.channels[channelId].teamId)) == Higher(st, channelId))
  {
    var created := SchemeCreated(st, channelId, newScheme).value;
    assert CHANNEL_USER in DEFAULTS && CHANNEL_GUEST in DEFAULTS;
    var team := TeamRoles(st, st.channels[channelId].teamId);
    if Higher(st, channelId).Some? {
      assert team.value.user in st.roles.Keys && team.value.guest in st.roles.Keys;
      assert team.value.user !in NamesOf(newScheme.names) && team.value.guest !in NamesOf(newScheme.names);
    }
  }

  /** The team's roles are none of the channel's own. */
  lemma TeamRolesAreOthers(st: State, channelId: string)
    requires channelId in st.channels && WellFormed(st) && st.channels[channelId].schemeId != ""
    requires ChannelSchemeRoles(st, channelId).Some? && TeamRoles(st, st.channels[channelId].teamId).Some?
    ensures NamesOf(ChannelSchemeRoles(st, channelId).value)
            !! NamesOf(TeamRoles(st, st.channels[channelId].teamId).value)
    ensures ThreeNames(ChannelSchemeRoles(st, channelId).value)
  {
    assert NamesOf(SYSTEM_ROLES) == DEFAULTS;
  }

  /** The outcome for a channel with a scheme of its own. */
  lemma PatchOwnOutcome(st: State, channelId: string, patch: Patch, higher: Pair, fault: Option<Fault>)
    requires channelId in st.channels && st.channels[channelId].schemeId != ""
    requires ChannelSchemeRoles(st, channelId).Some? && PairOf(st, ChannelSchemeRoles(st, channelId)).Some?
    requires ThreeNames(ChannelSchemeRoles(st, channelId).value)
    requires Higher(st, channelId) == Some(higher)
    requires NamesOf(ChannelSchemeRoles(st, channelId).value)
             !! NamesOf(TeamRoles(st, st.channels[channelId].teamId).value)
    requires PatchOwn(st, channelId, patch, higher, fault).result.Ok?
    ensures var target := Target(PairOf(st, ChannelSchemeRoles(st, channelId)).value, patch);
            var r := PatchOwn(st, channelId, patch, higher, fault);
            channelId in r.state.channels
            && r.state.channels[channelId].teamId == st.channels[channelId].teamId
            && Higher(r.state, channelId) == Some(higher)
            && (r.state.channels[channelId].schemeId == "" <==> SamePair(higher, target))
            && PairOf(r.state, ChannelSchemeRoles(r.state, channelId))
               == Some(if SamePair(higher, target) then higher else target)
            && r.result.value == Built(if SamePair(higher, target) then higher else target, higher)
  {
    var names := ChannelSchemeRoles(st, channelId).value;
    var team := TeamRoles(st, st.channels[channelId].teamId).value;
    assert names.user in NamesOf(names) && names.guest in NamesOf(names);
    assert team.user in NamesOf(team) && team.guest in NamesOf(team);
    assert names.user != names.guest;
  }

  /**
   * After a successful patch: the channel has a scheme of its own exactly if the roles the patch arrives at differ,
   * in some moderated name, from those of the team; it then resolves to these, and otherwise to the team's.
   */
  lemma PatchOutcome(st: State, channelId: string, patch: Patch, newScheme: NewScheme, fault: Option<Fault>)
    requires channelId in st.channels && WellFormed(st) && Unused(st, newScheme)
    requires PatchModerations(st, channelId, patch, newScheme, fault).result.Ok?
    ensures Base(st, channelId).Some? && Higher(st, channelId).Some? && Allowed(patch, Higher(st, channelId).value)
    ensures var r, higher := PatchModerations(st, channelId, patch, newScheme, fault), Higher(st, channelId).value;
            var target := Target(Base(st, channelId).value, patch);
            channelId in r.state.channels
            && (r.state.channels[channelId].schemeId == "" <==> SamePair(higher, target))
            && Higher(r.state, channelId) == Some(higher)
            && PairOf(r.state, ChannelSchemeRoles(r.state, channelId))
               == Some(if SamePair(higher, target) then higher else target)
            && r.result.value == Built(if SamePair(higher, target) then higher else target, higher)
  {
    var higher := Higher(st, channelId).value;
    if st.channels[channelId].schemeId != "" {
      TeamRolesAreOthers(st, channelId);
      PatchOwnOutcome(st, channelId, patch, higher, fault);
    } else {
      CreatedResolves(st, channelId, newScheme);
      var created := SchemeCreated(st, channelId, newScheme).value;
      var team := TeamRoles(st, st.channels[channelId].teamId).value;
      assert team.admin in NamesOf(newScheme.names) ==> team == SYSTEM_ROLES || NamesOf(team) <= st.roles.Keys;
      assert CHANNEL_ADMIN in DEFAULTS;
      PatchOwnOutcome(created, channelId, patch, higher, fault);
    }
  }

  /** The roles a patch starts from can be had: own ones, or new copies of the system's. */
  predicate Startable(st: State, channelId: string, fault: Option<Fault>)
    requires channelId in st.channels
  {
    st.migrated && (st.channels[channelId].schemeId != "" || (DEFAULTS <= st.roles.Keys && fault != Some(CreateFails)))
  }

  /** A patch succeeds exactly if the team's roles can be read, it switches on nothing that they lack, there
      are roles to start from, and whichever it comes to, dropping the scheme or writing both roles, works. */
  lemma PatchSucceedsIff(st: State, channelId: string, patch: Patch, newScheme: NewScheme, fault: Option<Fault>)
    requires channelId in st.channels && WellFormed(st) && Unused(st, newScheme)
    ensures Startable(st, channelId, fault) ==> Base(st, channelId).Some?
    ensures PatchModerations(st, channelId, patch, newScheme, fault).result.Ok? <==>
              Higher(st, channelId).Some? && Allowed(patch, Higher(st, channelId).value)
              && Startable(st, channelId, fault)
              && if SamePair(Higher(st, channelId).value, Target(Base(st, channelId).value, patch))
                 then fault != Some(DeleteFails) && fault != Some(UpdateFails)
                 else fault != Some(PatchMembersFails) && fault != Some(PatchGuestsFails)
  {
    if st.channels[channelId].schemeId != "" {
      var names := st.schemes[st.channels[channelId].schemeId];
      assert names.user in NamesOf(names) && names.guest in NamesOf(names);
      assert names.user in st.roles.Keys && names.guest in st.roles.Keys;
    } else if SchemeCreated(st, channelId, newScheme).Some? {
      assert CHANNEL_USER in st.roles.Keys && CHANNEL_GUEST in st.roles.Keys;
      CreatedResolves(st, channelId, newScheme);
    }
  }

  /** Is a name shown as one that may be switched on? */
  predicate ShownEnabled(shown: seq<Moderation>, name: string, side: Side) {
    exists k :: 0 <= k < |shown| && shown[k].name == name
                && if side.Members? then shown[k].members.enabled
                   else shown[k].guests.Some? && shown[k].guests.value.enabled
  }

  lemma EnabledIsShown(own: Pair, higher: Pair, name: string)
    ensures ShownEnabled(Built(own, higher), name, Members) <==> Has(higher.members, name)
    ensures name != MANAGE_MEMBERS ==> (ShownEnabled(Built(own, higher), name, Guests) <==> Has(higher.guests, name))
    ensures !ShownEnabled(Built(own, higher), MANAGE_MEMBERS, Guests)
  {
    var shown := Built(own, higher);
    assert shown[0].name == CREATE_POST && shown[1].name == CREATE_REACTIONS;
    assert shown[2].name == MANAGE_MEMBERS && shown[3].name == USE_CHANNEL_MENTIONS;
    if Has(higher.members, name) || Has(higher.guests, name) {
      assert name == CREATE_POST || name == CREATE_REACTIONS || name == MANAGE_MEMBERS || name == USE_CHANNEL_MENTIONS;
    }
  }

  /** Does an entry switch on what is not shown as enabled? Managing members, which is never shown for guests,
      is judged by their role in the team. */
  predicate AsksTooMuch(entry: PatchEntry, shown: seq<Moderation>, higher: Pair) {
    || (entry.members == Some(true) && !ShownEnabled(shown, entry.name, Members))
    || (entry.guests == Some(true) && !ShownEnabled(shown, entry.name, Guests)
        && !(entry.name == MANAGE_MEMBERS && Has(higher.guests, MANAGE_MEMBERS)))
  }

  lemma AsksTooMuchIff(entry: PatchEntry, own: Pair, higher: Pair)
    ensures AsksTooMuch(entry, Built(own, higher), higher) <==>
              (entry.members == Some(true) && !Has(higher.members, entry.name))
              || (entry.guests == Some(true) && !Has(higher.guests, entry.name))
  {
    EnabledIsShown(own, higher, entry.name);
  }

  /** A patch is refused exactly if it switches on a name that reading the channel's moderations does not show
      as enabled. */
  lemma RefusedPatch(st: State, channelId: string, patch: Patch, newScheme: NewScheme, fault: Option<Fault>)
    requires channelId in st.channels && Moderations(st, channelId).Some?
    ensures Higher(st, channelId).Some?
    ensures PatchModerations(st, channelId, patch, newScheme, fault).result == Err(Restricted) <==>
              exists i :: 0 <= i < |patch|
                  && AsksTooMuch(patch[i], Moderations(st, channelId).value, Higher(st, channelId).value)
  {
    var own, higher := PairOf(st, ChannelSchemeRoles(st, channelId)).value, Higher(st, channelId).value;
    forall i | 0 <= i < |patch|
      ensures AsksTooMuch(patch[i], Built(own, higher), higher) <==>
                (patch[i].members == Some(true) && !Has(higher.members, patch[i].name))
                || (patch[i].guests == Some(true) && !Has(higher.guests, patch[i].name))
    {
      AsksTooMuchIff(patch[i], own, higher);
    }
  }

  /** What a successful patch returns is what reading the channel's moderations then returns. */
  lemma ReturnedIsReread(st: State, channelId: string, patch: Patch, newScheme: NewScheme, fault: Option<Fault>)
    requires channelId in st.channels && WellFormed(st) && Unused(st, newScheme)
    requires PatchModerations(st, channelId, patch, newScheme, fault).result.Ok?
    ensures var r := PatchModerations(st, channelId, patch, newScheme, fault);
            Moderations(r.state, channelId) == Some(r.result.value)
  {
    PatchOutcome(st, channelId, patch, newScheme, fault);
  }

  function OfSide(pair: Pair, side: Side): set<string> {
    match side
    case Members => pair.members
    case Guests => pair.guests
  }

  /** The value a channel ends up with for a name. */
  lemma ValueAfterPatch(st: State, channelId: string, patch: Patch, newScheme: NewScheme, fault: Option<Fault>,
                        side: Side, p: string)
    requires channelId in st.channels && WellFormed(st) && Unused(st, newScheme) && p in MODERATED
    requires PatchModerations(st, channelId, patch, newScheme, fault).result.Ok?
    ensures Base(st, channelId).Some?
    ensures var after := PatchModerations(st, channelId, patch, newScheme, fault).state;
            var own := PairOf(after, ChannelSchemeRoles(after, channelId));
            own.Some?
            && (Has(OfSide(own.value, side), MODERATED[p]) <==>
                  (Has(OfSide(Base(st, channelId).value, side), MODERATED[p])
                          && !Asks(patch, side, MODERATED[p], false))
                  || Asks(patch, side, MODERATED[p], true))
  {
    PatchOutcome(st, channelId, patch, newScheme, fault);
    PatchedHas(OfSide(Base(st, channelId).value, side), patch, side, MODERATED[p]);
  }

  /**
   * A patch itself switches on only what the team allows. Still a channel is left with a name its team does not
   * allow exactly if the role it started from had it and the patch does not switch it off; for a channel without a
   * scheme of its own that role is the system's, so that any patch can bring it back.
   */
  lemma BeyondTheTeam(st: State, channelId: string, patch: Patch, newScheme: NewScheme, fault: Option<Fault>,
                      side: Side, p: string)
    requires channelId in st.channels && WellFormed(st) && Unused(st, newScheme) && p in MODERATED
    requires PatchModerations(st, channelId, patch, newScheme, fault).result.Ok?
    ensures Base(st, channelId).Some? && Higher(st, channelId).Some?
    ensures Asks(patch, side, MODERATED[p], true) ==> Has(OfSide(Higher(st, channelId).value, side), MODERATED[p])
    ensures !Has(OfSide(Higher(st, channelId).value, side), MODERATED[p]) ==>
              var after := PatchModerations(st, channelId, patch, newScheme, fault).state;
              var own := PairOf(after, ChannelSchemeRoles(after, channelId));
              own.Some?
              && (Has(OfSide(own.value, side), MODERATED[p]) <==>
                    Has(OfSide(Base(st, channelId).value, side), MODERATED[p])
                        && !Asks(patch, side, MODERATED[p], false))
  {
    ValueAfterPatch(st, channelId, patch, newScheme, fault, side, p);
    PatchOutcome(st, channelId, patch, newScheme, fault);
  }

  /** Below the names, switching on the management of members gives both permissions, even where the team gives one. */
  lemma SwitchingOnGivesAll(permissions: set<string>, patch: Patch, side: Side, p: string)
    requires p in MODERATED && Asks(patch, side, MODERATED[p], true)
    ensures forall q :: q in MODERATED && MODERATED[q] == MODERATED[p] ==> q in Patched(permissions, patch, side)
  {
  }

  /** Channels with another scheme, and those without one, keep the roles they resolve to. */
  lemma OthersUnaffected(st: State, channelId: string, patch: Patch, newScheme: NewScheme, fault: Option<Fault>,
                         other: string)
    requires channelId in st.channels && WellFormed(st) && Unused(st, newScheme)
    requires other in st.channels && other != channelId
    requires st.channels[other].schemeId == "" || st.channels[other].schemeId != st.channels[channelId].schemeId
    requires PairOf(st, ChannelSchemeRoles(st, other)).Some?
    ensures var after := PatchModerations(st, channelId, patch, newScheme, fault).state;
            PairOf(after, ChannelSchemeRoles(after, other)) == PairOf(st, ChannelSchemeRoles(st, other))
  {
    var others := ChannelSchemeRoles(st, other).value;
    assert others.user in NamesOf(others) && others.guest in NamesOf(others);
    if Higher(st, channelId).Some? {
      if st.channels[channelId].schemeId != "" {
        PatchOwnKeepsOthers(st, channelId, patch, Higher(st, channelId).value, fault, other);
      } else if SchemeCreated(st, channelId, newScheme).Some? {
        CreatedKeepsOthers(st, channelId, newScheme, other);
        PatchOwnKeepsOthers(SchemeCreated(st, channelId, newScheme).value, channelId, patch,
                Higher(st, channelId).value, fault, other);
      }
    }
  }

  lemma CreatedKeepsOthers(st: State, channelId: string, newScheme: NewScheme, other: string)
    requires channelId in st.channels && WellFormed(st) && Unused(st, newScheme)
             && SchemeCreated(st, channelId, newScheme).Some?
    requires other in st.channels && other != channelId && PairOf(st, ChannelSchemeRoles(st, other)).Some?
    ensures var created := SchemeCreated(st, channelId, newScheme).value;
            ChannelSchemeRoles(created, other) == ChannelSchemeRoles(st, other)
            && PairOf(created, ChannelSchemeRoles(created, other)) == PairOf(st, ChannelSchemeRoles(st, other))
            && ChannelSchemeRoles(created, channelId) == Some(newScheme.names)
            && ChannelSchemeRoles(st, other).value.user !in NamesOf(newScheme.names)
            && ChannelSchemeRoles(st, other).value.guest !in NamesOf(newScheme.names)
  {
    var others := ChannelSchemeRoles(st, other).value;
    assert others.user in st.roles.Keys && others.guest in st.roles.Keys;
  }

  lemma PatchOwnKeepsOthers(st: State, channelId: string, patch: Patch, higher: Pair, fault: Option<Fault>,
                            other: string)
    requires channelId in st.channels && other in st.channels && other != channelId
    requires st.channels[channelId].schemeId != "" && st.channels[channelId].schemeId != st.channels[other].schemeId
    requires ChannelSchemeRoles(st, other).Some?
    requires ChannelSchemeRoles(st, channelId).Some? ==>
               ChannelSchemeRoles(st, other).value.user !in NamesOf(ChannelSchemeRoles(st, channelId).value)
               && ChannelSchemeRoles(st, other).value.guest !in NamesOf(ChannelSchemeRoles(st, channelId).value)
    ensures var after := PatchOwn(st, channelId, patch, higher, fault).state;
            PairOf(after, ChannelSchemeRoles(after, other)) == PairOf(st, ChannelSchemeRoles(st, other))
  {
    var after := PatchOwn(st, channelId, patch, higher, fault).state;
    assert after.channels[other] == st.channels[other];
    assert ChannelSchemeRoles(after, other) == ChannelSchemeRoles(st, other);
    if ChannelSchemeRoles(st, channelId).Some? {
      var names := ChannelSchemeRoles(st, channelId).value;
      assert names.user in NamesOf(names) && names.guest in NamesOf(names);
    }
  }

  /** The role of the admins of a channel. */
  function AdminRole(st: State, channelId: string): Option<set<string>> {
    var names := ChannelSchemeRoles(st, channelId);
    if names.Some? && names.value.admin in st.roles then Some(st.roles[names.value.admin]) else None
  }

  lemma PatchOwnKeepsAdmins(st: State, channelId: string, patch: Patch, higher: Pair, fault: Option<Fault>)
    requires channelId in st.channels && st.channels[channelId].schemeId != ""
    requires ChannelSchemeRoles(st, channelId).Some? && ThreeNames(ChannelSchemeRoles(st, channelId).value)
    ensures var after := PatchOwn(st, channelId, patch, higher, fault).state;
            channelId in after.channels &&
            (after.channels[channelId].schemeId != "" ==> AdminRole(after, channelId) == AdminRole(st, channelId))
  {
  }

  lemma CreatedAdmins(st: State, channelId: string, newScheme: NewScheme)
    requires channelId in st.channels && Unused(st, newScheme) && SchemeCreated(st, channelId, newScheme).Some?
    ensures CHANNEL_ADMIN in st.roles
    ensures var created := SchemeCreated(st, channelId, newScheme).value;
            channelId in created.channels && created.channels[channelId].schemeId == newScheme.id
            && ChannelSchemeRoles(created, channelId) == Some(newScheme.names)
            && AdminRole(created, channelId) == Some(st.roles[CHANNEL_ADMIN])
  {
    assert CHANNEL_ADMIN in DEFAULTS;
  }

  /** Whether or not a patch succeeds, a channel with a scheme of its own afterwards has for its admins the role it had
      before, or with a new scheme a copy of that of the system's channel admins. */
  lemma AdminsUnaffected(st: State, channelId: string, patch: Patch, newScheme: NewScheme, fault: Option<Fault>)
    requires channelId in st.channels && WellFormed(st) && Unused(st, newScheme)
    ensures var after := PatchModerations(st, channelId, patch, newScheme, fault).state;
            channelId in after.channels &&
            (after.channels[channelId].schemeId != "" ==>
               if st.channels[channelId].schemeId != "" then AdminRole(after, channelId) == AdminRole(st, channelId)
               else CHANNEL_ADMIN in st.roles && AdminRole(after, channelId) == Some(st.roles[CHANNEL_ADMIN]))
  {
    var higher := Higher(st, channelId);
    if higher.Some? {
      if st.channels[channelId].schemeId != "" {
        if ChannelSchemeRoles(st, channelId).Some? {
          PatchOwnKeepsAdmins(st, channelId, patch, higher.value, fault);
        }
      } else if SchemeCreated(st, channelId, newScheme).Some? {
        var created := SchemeCreated(st, channelId, newScheme).value;
        CreatedAdmins(st, channelId, newScheme);
        PatchOwnKeepsAdmins(created, channelId, patch, higher.value, fault);
      }
    }
  }

  // ---------- runs of patches ----------

  lemma CreatedWellFormed(st: State, channelId: string, newScheme: NewScheme)
    requires channelId in st.channels && WellFormed(st) && Unused(st, newScheme)
             && SchemeCreated(st, channelId, newScheme).Some?
    ensures WellFormed(SchemeCreated(st, channelId, newScheme).value)
  {
    var created := SchemeCreated(st, channelId, newScheme).value;
    assert NamesOf(newScheme.names) <= created.roles.Keys;
    forall s | s in st.schemes ensures NamesOf(st.schemes[s]) !! NamesOf(newScheme.names) {
      assert NamesOf(st.schemes[s]) <= st.roles.Keys;
    }
    assert st.roles.Keys <= created.roles.Keys;
  }

  lemma DroppedWellFormed(st: State, schemeId: string)
    requires WellFormed(st)
    ensures WellFormed(SchemeDropped(st, schemeId))
  {
  }

  lemma MoreRolesWellFormed(st: State, name: string, permissions: set<string>)
    requires WellFormed(st)
    ensures WellFormed(st.(roles := st.roles[name := permissions]))
  {
    var after := st.(roles := st.roles[name := permissions]);
    assert st.roles.Keys <= after.roles.Keys;
  }

  lemma PatchOwnWellFormed(st: State, channelId: string, patch: Patch, higher: Pair, fault: Option<Fault>)
    requires channelId in st.channels && WellFormed(st)
    ensures WellFormed(PatchOwn(st, channelId, patch, higher, fault).state)
  {
    var names := ChannelSchemeRoles(st, channelId);
    var own := PairOf(st, names);
    if own.Some? {
      DroppedWellFormed(st, st.channels[channelId].schemeId);
      var members := Patched(own.value.members, patch, Members);
      MoreRolesWellFormed(st, names.value.user, members);
      var st1 := st.(roles := st.roles[names.value.user := members]);
      MoreRolesWellFormed(st1, names.value.guest, Patched(own.value.guests, patch, Guests));
    }
  }

  /** Every patch, successful or not, leads from a well-formed store to a well-formed one. */
  lemma PatchKeepsWellFormed(st: State, channelId: string, patch: Patch, newScheme: NewScheme, fault: Option<Fault>)
    requires channelId in st.channels && WellFormed(st) && Unused(st, newScheme)
    ensures WellFormed(PatchModerations(st, channelId, patch, newScheme, fault).state)
  {
    var higher := Higher(st, channelId);
    if higher.Some? {
      PatchOwnWellFormed(st, channelId, patch, higher.value, fault);
      if SchemeCreated(st, channelId, newScheme).Some? {
        CreatedWellFormed(st, channelId, newScheme);
        PatchOwnWellFormed(SchemeCreated(st, channelId, newScheme).value, channelId, patch, higher.value, fault);
      }
    }
  }

  /** One call, with the scheme it would create and what fails. */
  datatype Call = Call(channelId: string, patch: Patch, newScheme: NewScheme, fault: Option<Fault>)

  /** A call for a known channel, with ids that were never used. */
  predicate Callable(st: State, call: Call) {
    call.channelId in st.channels && Unused(st, call.newScheme)
  }

  /** The store after some calls; one that cannot be made leaves it as it is. */
  function AfterCalls(st: State, calls: seq<Call>): State {
    if |calls| == 0 then st
    else
      var before, last := AfterCalls(st, calls[..|calls| - 1]), calls[|calls| - 1];
      if !Callable(before, last) then before
      else PatchModerations(before, last.channelId, last.patch, last.newScheme, last.fault).state
  }

  /** Over any run of patches, whatever fails, schemes keep roles of their own. */
  lemma {:induction false} RunKeepsWellFormed(st: State, calls: seq<Call>)
    requires WellFormed(st)
    ensures WellFormed(AfterCalls(st, calls))
  {
    if |calls| > 0 {
      var init, last := calls[..|calls| - 1], calls[|calls| - 1];
      RunKeepsWellFormed(st, init);
      var before := AfterCalls(st, init);
      if Callable(before, last) {
        PatchKeepsWellFormed(before, last.channelId, last.patch, last.newScheme, last.fault);
      }
    }
  }

  /** So after any run a patch that succeeds returns what is read next. */
  lemma ReturnedIsRereadAfterRuns(st: State, calls: seq<Call>, call: Call)
    requires WellFormed(st) && Callable(AfterCalls(st, calls), call)
    ensures var r := PatchModerations(AfterCalls(st, calls), call.channelId, call.patch, call.newScheme, call.fault);
            r.result.Ok? ==> Moderations(r.state, call.channelId) == Some(r.result.value)
  {
    RunKeepsWellFormed(st, calls);
    if PatchModerations(AfterCalls(st, calls), call.channelId, call.patch, call.newScheme, call.fault).result.Ok? {
      ReturnedIsReread(AfterCalls(st, calls), call.channelId, call.patch, call.newScheme, call.fault);
    }
  }

  /**
   * Repeating a patch: a scheme that was kept is kept with the same result. One that was dropped starts over
   * from the system's roles, and comes back exactly if these, patched, differ from the team's.
   */
  lemma RepeatedPatch(st: State, channelId: string, patch: Patch, newScheme: NewScheme, next: NewScheme)
    requires channelId in st.channels && WellFormed(st) && Unused(st, newScheme)
    requires PatchModerations(st, channelId, patch, newScheme, None).result.Ok?
    requires var once := PatchModerations(st, channelId, patch, newScheme, None).state;
             channelId in once.channels && Unused(once, next)
                 && PatchModerations(once, channelId, patch, next, None).result.Ok?
    ensures var once := PatchModerations(st, channelId, patch, newScheme, None);
            var twice := PatchModerations(once.state, channelId, patch, next, None);
            channelId in twice.state.channels && Higher(st, channelId).Some?
            && (once.state.channels[channelId].schemeId != "" ==>
                  twice.state.channels[channelId].schemeId != "" && twice.result == once.result)
            && (once.state.channels[channelId].schemeId == "" ==>
                  PairOf(once.state, Some(SYSTEM_ROLES)).Some?
                  && (twice.state.channels[channelId].schemeId == ""
                      <==> SamePair(Higher(st, channelId).value,
                              Target(PairOf(once.state, Some(SYSTEM_ROLES)).value, patch))))
  {
    var once := PatchModerations(st, channelId, patch, newScheme, None);
    PatchOutcome(st, channelId, patch, newScheme, None);
    PatchKeepsWellFormed(st, channelId, patch, newScheme, None);
    PatchOutcome(once.state, channelId, patch, next, None);
    var base := Base(st, channelId).value;
    PatchingIsIdempotent(base.members, patch, Members);
    PatchingIsIdempotent(base.guests, patch, Guests);
  }

  // ---------- two examples ----------

  const POSTING: set<string> := {CREATE_POST}

  /** The names of three schemes' roles: of the team, of the channel, and of the next scheme. */
  predicate Apart(team: SchemeRoles, own: SchemeRoles, next: SchemeRoles) {
    && ThreeNames(team) && ThreeNames(own) && ThreeNames(next)
    && NamesOf(team) !! NamesOf(own) !! NamesOf(next) !! DEFAULTS
  }

  /** A team whose scheme takes the right to post from its members, and a channel, with or without a scheme like it. */
  function QuietTeam(schemeId: string, team: SchemeRoles, own: SchemeRoles): State {
    State(map["c" := ChannelInfo("t", schemeId)], map["t" := "team"], map["team" := team, "own" := own],
          map[CHANNEL_GUEST := POSTING, CHANNEL_USER := POSTING, CHANNEL_ADMIN := {},
              team.guest := POSTING, team.user := {}, team.admin := {},
              own.guest := POSTING, own.user := {}, own.admin := {}],
          true)
  }

  lemma QuietTeamRoles(schemeId: string, team: SchemeRoles, own: SchemeRoles, next: SchemeRoles)
    requires (schemeId == "" || schemeId == "own") && Apart(team, own, next)
    ensures var st := QuietTeam(schemeId, team, own);
            && st.roles.Keys == DEFAULTS + NamesOf(team) + NamesOf(own)
            && st.roles[CHANNEL_USER] == POSTING && st.roles[CHANNEL_GUEST] == POSTING
            && st.roles[team.user] == {} && st.roles[team.guest] == POSTING
            && st.roles[own.user] == {} && st.roles[own.guest] == POSTING
  {
    assert NamesOf(team) !! DEFAULTS && NamesOf(own) !! DEFAULTS;
    assert team.user in NamesOf(team) && team.guest in NamesOf(team) && team.admin in NamesOf(team);
    assert own.user in NamesOf(own) && own.guest in NamesOf(own) && own.admin in NamesOf(own);
    assert CHANNEL_USER in DEFAULTS && CHANNEL_GUEST in DEFAULTS && CHANNEL_ADMIN in DEFAULTS;
  }

  lemma QuietTeamIsWellFormed(schemeId: string, team: SchemeRoles, own: SchemeRoles, next: SchemeRoles)
    requires (schemeId == "" || schemeId == "own") && Apart(team, own, next)
    ensures WellFormed(QuietTeam(schemeId, team, own))
            && Unused(QuietTeam(schemeId, team, own), NewScheme("next", next))
  {
    var st := QuietTeam(schemeId, team, own);
    QuietTeamRoles(schemeId, team, own, next);
    assert NamesOf(team) !! NamesOf(own) && NamesOf(team) <= st.roles.Keys && NamesOf(own) <= st.roles.Keys;
    assert st.schemes.Keys == {"team", "own"} && st.schemes["team"] == team && st.schemes["own"] == own;
    assert st.channels.Keys == {"c"} && st.teamSchemes.Keys == {"t"};
  }

  lemma EmptyPatchKeeps(permissions: set<string>, side: Side)
    requires permissions == {} || permissions == POSTING
    ensures Patched(permissions, [], side) == permissions
  {
    assert CREATE_POST in MODERATED;
  }

  lemma PostingDiffers()
    ensures Has(POSTING, CREATE_POST) && !Has({}, CREATE_POST) && !SameModerated({}, POSTING)
  {
    assert CREATE_POST in POSTING && CREATE_POST in MODERATED && MODERATED[CREATE_POST] == CREATE_POST;
  }

  /** Without a scheme of its own, the channel gets back the right to post by a patch that asks for nothing. */
  lemma EmptyPatchBringsBack(team: SchemeRoles, own: SchemeRoles, next: SchemeRoles)
    requires Apart(team, own, next)
    ensures var st := QuietTeam("", team, own);
            var r := PatchModerations(st, "c", [], NewScheme("next", next), None);
            && r.result.Ok? && "c" in r.state.channels && r.state.channels["c"].schemeId != ""
            && PairOf(st, ChannelSchemeRoles(st, "c")) == Some(Pair({}, POSTING)) && !Has({}, CREATE_POST)
            && PairOf(r.state, ChannelSchemeRoles(r.state, "c")) == Some(Pair(POSTING, POSTING))
               && Has(POSTING, CREATE_POST)
  {
    var st, newScheme := QuietTeam("", team, own), NewScheme("next", next);
    QuietTeamRoles("", team, own, next);
    QuietTeamIsWellFormed("", team, own, next);
    PostingDiffers();
    assert Base(st, "c") == Some(Pair(POSTING, POSTING)) && Higher(st, "c") == Some(Pair({}, POSTING));
    EmptyPatchKeeps(POSTING, Members);
    EmptyPatchKeeps(POSTING, Guests);
    assert !SamePair(Pair({}, POSTING), Pair(POSTING, POSTING));
    PatchSucceedsIff(st, "c", [], newScheme, None);
    PatchOutcome(st, "c", [], newScheme, None);
  }

  /** With a scheme of its own like the team's, such a patch first drops it; the same patch again is the one above. */
  lemma EmptyPatchDrops(team: SchemeRoles, own: SchemeRoles, next: SchemeRoles)
    requires Apart(team, own, next)
    ensures var r := PatchModerations(QuietTeam("own", team, own), "c", [], NewScheme("next", next), None);
            r.result.Ok? && r.state == QuietTeam("", team, own)
  {
    var st, newScheme := QuietTeam("own", team, own), NewScheme("next", next);
    QuietTeamRoles("own", team, own, next);
    assert PairOf(st, ChannelSchemeRoles(st, "c")) == Some(Pair({}, POSTING))
           && Higher(st, "c") == Some(Pair({}, POSTING));
    EmptyPatchKeeps({}, Members);
    EmptyPatchKeeps(POSTING, Guests);
    assert SchemeDropped(st, "own").channels == QuietTeam("", team, own).channels;
  }

  // ---------- the operations, step by step ----------

  method ModeratedPermissions(permissions: set<string>) returns (names: set<string>)
    ensures forall name :: name in names <==> Has(permissions, name)
  {
    names := {};
    var todo := permissions;
    while todo != {}
      invariant todo <= permissions
      invariant forall name :: name in names <==> Has(permissions - todo, name)
    {
      var p :| p in todo;
      forall name ensures Has(permissions - (todo - {p}), name) <==>
        Has(permissions - todo, name) || (p in MODERATED && MODERATED[p] == name) {
        HasOneMore(permissions - todo, p, name);
        assert permissions - (todo - {p}) == permissions - todo + {p};
      }
      if p in MODERATED {
        names := names + {MODERATED[p]};
      }
      todo := todo - {p};
    }
    assert permissions - todo == permissions;
  }

  lemma HasOneMore(permissions: set<string>, p: string, name: string)
    ensures Has(permissions + {p}, name) <==> Has(permissions, name) || (p in MODERATED && MODERATED[p] == name)
  {
    if Has(permissions + {p}, name) {
      var q :| q in permissions + {p} && q in MODERATED && MODERATED[q] == name;
      assert q in permissions ==> Has(permissions, name);
    }
    if Has(permissions, name) {
      var q :| q in permissions && q in MODERATED && MODERATED[q] == name;
      assert q in permissions + {p};
    }
    if p in MODERATED && MODERATED[p] == name {
      assert p in permissions + {p};
    }
  }

  /** The names on one side only. */
  method ModeratedChanged(some: set<string>, others: set<string>) returns (changed: set<string>)
    ensures changed == {} <==> SameModerated(some, others)
  {
    var before := ModeratedPermissions(some);
    var after := ModeratedPermissions(others);
    changed := (before - after) + (after - before);
    if SameModerated(some, others) {
      forall name ensures name in before <==> name in after {
        if name in before {
          var p :| p in some && p in MODERATED && MODERATED[p] == name;
        }
        if name in after {
          var p :| p in others && p in MODERATED && MODERATED[p] == name;
        }
      }
    }
    if changed == {} {
      forall p | p in MODERATED ensures Has(some, MODERATED[p]) <==> Has(others, MODERATED[p]) {
        assert MODERATED[p] !in changed;
      }
    }
  }

  /** Is the permission still on, as far as switching off goes? */
  method StillOn(patch: Patch, side: Side, name: string) returns (on: bool)
    ensures on <==> !Asks(patch, side, name, false)
  {
    on := true;
    for i := 0 to |patch|
      invariant on <==> !Asks(patch[..i], side, name, false)
    {
      AsksOneMore(patch, i, side, name, false);
      if patch[i].name == name && patch[i].Wanted(side) == Some(false) {
        on := false;
      }
    }
    assert patch[..|patch|] == patch;
  }

  lemma AsksOneMore(patch: Patch, i: nat, side: Side, name: string, value: bool)
    requires i < |patch|
    ensures Asks(patch[..i + 1], side, name, value) <==>
              Asks(patch[..i], side, name, value) || (patch[i].name == name && patch[i].Wanted(side) == Some(value))
  {
    if Asks(patch[..i + 1], side, name, value) {
      var k :| 0 <= k < |patch[..i + 1]| && patch[..i + 1][k].name == name
          && patch[..i + 1][k].Wanted(side) == Some(value);
      assert k < i ==> patch[..i][k] == patch[k];
    }
    if Asks(patch[..i], side, name, value) {
      var k :| 0 <= k < |patch[..i]| && patch[..i][k].name == name && patch[..i][k].Wanted(side) == Some(value);
      assert patch[..i + 1][k] == patch[k];
    }
    if patch[i].name == name && patch[i].Wanted(side) == Some(value) {
      assert patch[..i + 1][i] == patch[i];
    }
  }

  /** What the first entries of a patch switch on. */
  function SwitchedOn(patch: Patch, n: nat, side: Side): set<string>
    requires n <= |patch|
  {
    set p | p in MODERATED && Asks(patch[..n], side, MODERATED[p], true)
  }

  lemma SwitchedOnOneMore(patch: Patch, i: nat, side: Side)
    requires i < |patch|
    ensures SwitchedOn(patch, i + 1, side) ==
            SwitchedOn(patch, i, side) +
            if patch[i].Wanted(side) == Some(true) then set p | p in MODERATED && MODERATED[p] == patch[i].name else {}
  {
    forall p | p in MODERATED
      ensures p in SwitchedOn(patch, i + 1, side) <==>
                p in SwitchedOn(patch, i, side)
                    || (patch[i].name == MODERATED[p] && patch[i].Wanted(side) == Some(true))
    {
      AsksOneMore(patch, i, side, MODERATED[p], true);
    }
  }

  /** The permissions of a role after a patch: first what is kept, then what is added. */
  method RolePatch(permissions: set<string>, patch: Patch, side: Side) returns (result: set<string>)
    ensures result == Patched(permissions, patch, side)
  {
    result := {};
    var todo := permissions;
    while todo != {}
      invariant todo <= permissions
      invariant result == set p | p in MODERATED && p in permissions - todo && !Asks(patch, side, MODERATED[p], false)
    {
      var p :| p in todo;
      if p in MODERATED {
        var on := StillOn(patch, side, MODERATED[p]);
        if on {
          result := result + {p};
        }
      }
      todo := todo - {p};
    }
    ghost var kept := result;
    assert kept + SwitchedOn(patch, 0, side) == kept;
    for i := 0 to |patch|
      invariant result == kept + SwitchedOn(patch, i, side)
    {
      SwitchedOnOneMore(patch, i, side);
      if patch[i].Wanted(side) == Some(true) {
        result := result + set p | p in MODERATED && MODERATED[p] == patch[i].name;
      }
    }
    assert patch[..|patch|] == patch;
  }

  method BuildModerations(own: Pair, higher: Pair) returns (moderations: seq<Moderation>)
    ensures moderations == Built(own, higher)
  {
    var members := ModeratedPermissions(own.members);
    var guests := ModeratedPermissions(own.guests);
    var higherMembers := ModeratedPermissions(higher.members);
    var higherGuests := ModeratedPermissions(higher.guests);
    moderations := [];
    for i := 0 to |MODERATED_NAMES|
      invariant moderations == Built(own, higher)[..i]
    {
      var name := MODERATED_NAMES[i];
      var setting := Setting(name in members, name in higherMembers);
      if name == MANAGE_MEMBERS {
        moderations := moderations + [Moderation(name, setting, None)];
      } else {
        moderations := moderations + [Moderation(name, setting, Some(Setting(name in guests, name in higherGuests)))];
      }
    }
  }

  class PermissionStore {
    var channels: map<string, ChannelInfo>
    const teamSchemes: map<string, string>
    var schemes: map<string, SchemeRoles>
    var roles: map<string, set<string>>
    const migrated: bool

    ghost function Current(): State
      reads this
    {
      State(channels, teamSchemes, schemes, roles, migrated)
    }

    constructor (st: State)
      ensures Current() == st
    {
      channels, teamSchemes, schemes, roles, migrated := st.channels, st.teamSchemes, st.schemes, st.roles, st.migrated;
    }

    function SchemeById(schemeId: string): (r: Option<SchemeRoles>)
      reads this
      ensures r == GetScheme(Current(), schemeId)
    {
      if !migrated then None else if schemeId in schemes then Some(schemes[schemeId]) else None
    }

    function GetTeamSchemeChannelRoles(teamId: string): (r: Option<SchemeRoles>)
      reads this
      ensures r == TeamRoles(Current(), teamId)
    {
      if teamId !in teamSchemes then None
      else if teamSchemes[teamId] != "" then SchemeById(teamSchemes[teamId])
      else Some(SYSTEM_ROLES)
    }

    function GetSchemeRolesForChannel(channelId: string): (r: Option<SchemeRoles>)
      reads this
      ensures r == ChannelSchemeRoles(Current(), channelId)
    {
      if channelId !in channels then None
      else if channels[channelId].schemeId != "" then SchemeById(channels[channelId].schemeId)
      else GetTeamSchemeChannelRoles(channels[channelId].teamId)
    }

    function RolesByName(names: Option<SchemeRoles>): (r: Option<Pair>)
      reads this
      ensures r == PairOf(Current(), names)
    {
      if names.None? then None
      else if names.value.user !in roles then None
      else if names.value.guest !in roles then None
      else Some(Pair(roles[names.value.user], roles[names.value.guest]))
    }

    method GetChannelModerationsForChannel(channelId: string) returns (r: Option<seq<Moderation>>)
      ensures r == Moderations(Current(), channelId)
    {
      if channelId !in channels {
        return None;
      }
      var own := RolesByName(GetSchemeRolesForChannel(channelId));
      var higher := RolesByName(GetTeamSchemeChannelRoles(channels[channelId].teamId));
      if own.None? || higher.None? {
        return None;
      }
      var built := BuildModerations(own.value, higher.value);
      r := Some(built);
    }

    method CheckAllowed(patch: Patch, higher: Pair) returns (ok: bool)
      ensures ok <==> Allowed(patch, higher)
    {
      var higherMembers := ModeratedPermissions(higher.members);
      var higherGuests := ModeratedPermissions(higher.guests);
      for i := 0 to |patch|
        invariant Allowed(patch[..i], higher)
      {
        if (patch[i].members == Some(true) && patch[i].name !in higherMembers)
           || (patch[i].guests == Some(true) && patch[i].name !in higherGuests) {
          return false;
        }
        assert patch[..i + 1] == patch[..i] + [patch[i]];
      }
      assert patch[..|patch|] == patch;
      ok := true;
    }

    method CreateChannelScheme(channelId: string, newScheme: NewScheme) returns (ok: bool)
      requires channelId in channels
      modifies this
      ensures ok <==> SchemeCreated(old(Current()), channelId, newScheme).Some?
      ensures Current() == if ok then SchemeCreated(old(Current()), channelId, newScheme).value else old(Current())
    {
      if !migrated || !(DEFAULTS <= roles.Keys) {
        return false;
      }
      var admin, user, guest := roles[CHANNEL_ADMIN], roles[CHANNEL_USER], roles[CHANNEL_GUEST];
      roles := roles[newScheme.names.admin := admin];
      roles := roles[newScheme.names.user := user];
      roles := roles[newScheme.names.guest := guest];
      schemes := schemes[newScheme.id := newScheme.names];
      channels := channels[channelId := channels[channelId].(schemeId := newScheme.id)];
      ok := true;
    }

    method DeleteChannelScheme(schemeId: string)
      modifies this`channels
      ensures schemeId != "" ==> forall c :: c in channels ==> channels[c].schemeId != schemeId
      ensures Current() == SchemeDropped(old(Current()), schemeId)
    {
      channels := map c | c in channels ::
        if channels[c].schemeId == schemeId then channels[c].(schemeId := "") else channels[c];
    }

    method PatchChannelModerationsForChannel(channelId: string, patch: Patch, newScheme: NewScheme,
                                             fault: Option<Fault>)
      returns (result: Result<seq<Moderation>, Error>)
      requires channelId in channels
      modifies this
      ensures Outcome(Current(), result) == PatchModerations(old(Current()), channelId, patch, newScheme, fault)
    {
      var found := RolesByName(GetTeamSchemeChannelRoles(channels[channelId].teamId));
      if found.None? {
        return Err(NoRole);
      }
      var higher := found.value;
      var ok := CheckAllowed(patch, higher);
      if !ok {
        return Err(Restricted);
      }
      if channels[channelId].schemeId == "" {
        if fault == Some(CreateFails) {
          return Err(Error.StoreFailed(CreateFails));
        }
        var created := CreateChannelScheme(channelId, newScheme);
        if !created {
          return Err(Error.StoreFailed(CreateFails));
        }
      }
      result := PatchOwnScheme(channelId, patch, higher, fault);
    }

    /** The rest of the patch, once the channel has a scheme. */
    method PatchOwnScheme(channelId: string, patch: Patch, higher: Pair, fault: Option<Fault>)
      returns (result: Result<seq<Moderation>, Error>)
      requires channelId in channels
      modifies this`roles, this`channels
      ensures Outcome(Current(), result) == PatchOwn(old(Current()), channelId, patch, higher, fault)
    {
      var names := GetSchemeRolesForChannel(channelId);
      var own := RolesByName(names);
      if own.None? {
        return Err(NoRole);
      }
      var members := RolePatch(own.value.members, patch, Members);
      var guests := RolePatch(own.value.guests, patch, Guests);
      var membersChanged := ModeratedChanged(higher.members, members);
      var guestsChanged := ModeratedChanged(higher.guests, guests);
      var shown := higher;
      if membersChanged == {} && guestsChanged == {} {
        if fault == Some(DeleteFails) {
          return Err(Error.StoreFailed(DeleteFails));
        }
        DeleteChannelScheme(channels[channelId].schemeId);
        if fault == Some(UpdateFails) {
          return Err(Error.StoreFailed(UpdateFails));
        }
      } else {
        if fault == Some(PatchMembersFails) {
          return Err(Error.StoreFailed(PatchMembersFails));
        }
        roles := roles[names.value.user := members];
        if fault == Some(PatchGuestsFails) {
          return Err(Error.StoreFailed(PatchGuestsFails));
        }
        roles := roles[names.value.guest := guests];
        shown := Pair(members, guests);
      }
      var built := BuildModerations(shown, higher);
      result := Ok(built);
    }
  }
}
