/** Who is a member of which channel, what the membership history says, and who is in which team. */
module Membership {
  import opened Lists
  import opened Wrappers
  import opened ChannelRoles

  const DEFAULT_CHANNEL := "town-square"
  const GROUP_MIN_USERS := 3
  const GROUP_MAX_USERS := 8

  /** A clock reading; never zero, which stands for "not deleted". */
  type Millis = x: int | 0 < x witness 1

  datatype User = User(guest: bool, bot: bool)

  datatype Kind = Open | Private | Direct | Group

  /** A channel; direct and group channels have no team. */
  datatype Channel = Channel(teamId: string, name: string, kind: Kind, groupConstrained: bool)

  datatype TeamKey = TeamKey(teamId: string, userId: string)

  /** A row of the membership history; open until the user leaves. */
  datatype Stay = Stay(joinTime: Millis, leaveTime: Option<Millis>)

  /** Team members carry the time they left, or zero. The history rows of a pair are in the order
      in which they were written. */
  datatype State = State(users: map<string, User>, channels: map<string, Channel>, teams: map<TeamKey, nat>,
                         rows: map<Key, Row>, history: map<Key, seq<Stay>>)

  /** The calls that can fail. */
  datatype Call =
    | GetUser | GetProfiles | SaveChannel | GetTeamMember | GetMember | FilterGroups | AdminGroups
    | SaveMember | LogJoin | RemoveMember | LogLeave
    | GetMembersForUser | GetUserAgain | UpdateTeamMember | AfterTeamUpdate

  /** An operation ends at the first call that fails; a call in a loop is told by its round. */
  datatype Fault = Fault(call: Call, round: nat)

  /** The clock, the failure if any, and the answers of the group lookups. */
  datatype Env = Env(now: Millis, fault: Option<Fault>, inGroups: bool, inAdminGroups: bool)

  datatype Error = StoreFailed(call: Call) | WrongKind | NoTeamMember | LeftTeam | DeniedByGroups | NoUser
                 | FromDefaultChannel | NoMember | BadSize | BadUsers

  datatype Outcome = Outcome(state: State, error: Option<Error>)

  predicate Fails(env: Env, call: Call, round: nat) {
    env.fault == Some(Fault(call, round))
  }

  function Failed(state: State, call: Call): Outcome {
    Outcome(state, Some(Error.StoreFailed(call)))
  }

  // ---------- the history ----------

  function Stays(st: State, key: Key): seq<Stay> {
    if key in st.history then st.history[key] else []
  }

  /** The table's key is the pair and the join time. */
  predicate JoinedAt(stays: seq<Stay>, now: Millis) {
    exists i :: 0 <= i < |stays| && stays[i].joinTime == now
  }

  /** Leaving closes every open row. */
  function Closed(stays: seq<Stay>, now: Millis): seq<Stay> {
    seq(|stays|, i requires 0 <= i < |stays| =>
      if stays[i].leaveTime.None? then Stay(stays[i].joinTime, Some(now)) else stays[i])
  }

  predicate TimesOk(stay: Stay, clock: int) {
    stay.joinTime <= clock && (stay.leaveTime.Some? ==> stay.joinTime <= stay.leaveTime.value <= clock)
  }

  predicate EndsBefore(stay: Stay, next: Stay) {
    stay.leaveTime.Some? && stay.leaveTime.value <= next.joinTime
  }

  /** Joins and leaves alternate in time, and the last stay is open exactly for a member. */
  predicate Tidy(stays: seq<Stay>, member: bool, clock: int) {
    && (forall i :: 0 <= i < |stays| ==> TimesOk(stays[i], clock))
    && (forall i :: 0 <= i < |stays| - 1 ==> EndsBefore(stays[i], stays[i + 1]))
    && (member <==> |stays| > 0 && stays[|stays| - 1].leaveTime.None?)
  }

  ghost predicate Consistent(st: State, clock: int) {
    forall key :: Tidy(Stays(st, key), key in st.rows, clock)
  }

  lemma JoinKeepsTidy(stays: seq<Stay>, clock: int, now: Millis)
    requires Tidy(stays, false, clock) && clock <= now
    ensures Tidy(stays + [Stay(now, None)], true, now)
    ensures !Tidy(stays, true, now)
  {
    var after := stays + [Stay(now, None)];
    forall i | 0 <= i < |after| - 1 ensures EndsBefore(after[i], after[i + 1]) {
      assert after[i] == stays[i];
      assert TimesOk(stays[i], clock);
      if i + 1 < |stays| {
        assert EndsBefore(stays[i], stays[i + 1]);
      }
    }
  }

  lemma LeaveKeepsTidy(stays: seq<Stay>, clock: int, now: Millis)
    requires Tidy(stays, true, clock) && clock <= now
    ensures Tidy(Closed(stays, now), false, now)
    ensures !Tidy(stays, false, now)
  {
    var after := Closed(stays, now);
    forall i | 0 <= i < |after| ensures TimesOk(after[i], now) {
      assert TimesOk(stays[i], clock);
    }
    forall i | 0 <= i < |after| - 1 ensures EndsBefore(after[i], after[i + 1]) {
      assert EndsBefore(stays[i], stays[i + 1]);
    }
  }

  /** Joining again is refused by the history exactly within the millisecond of the last join. */
  lemma {:induction false} LastJoinIsLatest(stays: seq<Stay>, member: bool, clock: int, now: Millis, i: nat)
    requires Tidy(stays, member, clock) && clock <= now && i < |stays|
    ensures stays[i].joinTime <= stays[|stays| - 1].joinTime
    ensures JoinedAt(stays, now) <==> stays[|stays| - 1].joinTime == now
    decreases |stays| - i
  {
    assert TimesOk(stays[i], clock) && TimesOk(stays[|stays| - 1], clock);
    if i < |stays| - 1 {
      assert EndsBefore(stays[i], stays[i + 1]);
      LastJoinIsLatest(stays, member, clock, now, i + 1);
    }
    if i == |stays| - 1 && JoinedAt(stays, now) {
      var j :| 0 <= j < |stays| && stays[j].joinTime == now;
      assert TimesOk(stays[j], clock);
      if j < |stays| - 1 {
        LaterJoins(stays, member, clock, j);
      }
    }
  }

  lemma {:induction false} LaterJoins(stays: seq<Stay>, member: bool, clock: int, i: nat)
    requires Tidy(stays, member, clock) && i < |stays|
    ensures stays[i].joinTime <= stays[|stays| - 1].joinTime
    decreases |stays| - i
  {
    if i < |stays| - 1 {
      assert EndsBefore(stays[i], stays[i + 1]) && TimesOk(stays[i], clock);
      LaterJoins(stays, member, clock, i + 1);
    }
  }

  // ---------- joining ----------

  function NewMember(user: User, admin: bool): Member {
    Member([], user.guest, !user.guest, admin)
  }

  /** The member is inserted and then the history is written; a failure in between leaves the member in place. */
  function SaveAndLog(st: State, key: Key, member: Member, env: Env, round: nat): Outcome {
    if Fails(env, SaveMember, round) || key in st.rows then Failed(st, SaveMember)
    else
      var saved := st.(rows := st.rows[key := Stored(member)]);
      if Fails(env, LogJoin, round) || JoinedAt(Stays(st, key), env.now) then Failed(saved, LogJoin)
      else Outcome(saved.(history := st.history[key := Stays(st, key) + [Stay(env.now, None)]]), None)
  }

  function ChannelCreated(st: State, channelId: string, channel: Channel, creatorId: string, addMember: bool,
                          env: Env): Outcome
  {
    if Fails(env, SaveChannel, 0) || channelId in st.channels then Failed(st, SaveChannel)
    else
      var created := st.(channels := st.channels[channelId := channel]);
      if !addMember then Outcome(created, None)
      else if Fails(env, GetUser, 0) then Failed(created, GetUser)
      else if creatorId !in st.users then Outcome(created, Some(NoUser))
      else SaveAndLog(created, Key(channelId, creatorId), NewMember(st.users[creatorId], true), env, 0)
  }

  /** All users of a group, one after the other, up to the first failure. */
  function JoinAll(st: State, channelId: string, userIds: seq<string>, env: Env): Outcome
    requires forall i :: 0 <= i < |userIds| ==> userIds[i] in st.users
    ensures JoinAll(st, channelId, userIds, env).state.users == st.users
    ensures JoinAll(st, channelId, userIds, env).state.channels == st.channels
  {
    if |userIds| == 0 then Outcome(st, None)
    else
      var last := userIds[|userIds| - 1];
      var r := JoinAll(st, channelId, userIds[..|userIds| - 1], env);
      if r.error.Some? then r
      else SaveAndLog(r.state, Key(channelId, last), NewMember(st.users[last], false), env, |userIds| - 1)
  }

  /** The ids found in the cache, in order and as often as they are asked for. */
  function Hits(ids: seq<string>, cached: set<string>): seq<string> {
    if |ids| == 0 then []
    else
      var last := ids[|ids| - 1];
      Hits(ids[..|ids| - 1], cached) + (if last in cached then [last] else [])
  }

  /** What the database finds for some ids: each known user among them once, in any order. */
  predicate AreFound(users: map<string, User>, ids: seq<string>, found: seq<string>) {
    && Distinct(found)
    && (forall i :: 0 <= i < |found| ==> found[i] in users && found[i] in ids)
    && (forall i :: 0 <= i < |ids| && ids[i] in users ==> ids[i] in found)
  }

  /** The profiles found for some ids: first those in the cache, repeated if asked for repeatedly, then
      what the database finds for the others. The cache holds known users. */
  predicate AreProfiles(users: map<string, User>, userIds: seq<string>, cached: set<string>, profiles: seq<string>) {
    && (forall i :: 0 <= i < |userIds| && userIds[i] in cached ==> userIds[i] in users)
    && Hits(userIds, cached) <= profiles
    && AreFound(users, Removed(userIds, cached), profiles[|Hits(userIds, cached)|..])
  }

  lemma {:induction false} HitsAre(ids: seq<string>, cached: set<string>, id: string)
    ensures id in Hits(ids, cached) <==> id in ids && id in cached
  {
    if |ids| > 0 {
      var init, last := ids[..|ids| - 1], ids[|ids| - 1];
      HitsAre(init, cached, id);
      assert ids == init + [last];
    }
  }

  lemma {:induction false} HitsAndMisses(ids: seq<string>, cached: set<string>)
    ensures |Hits(ids, cached)| + |Removed(ids, cached)| == |ids|
  {
    if |ids| > 0 {
      HitsAndMisses(ids[..|ids| - 1], cached);
    }
  }

  lemma MissesAre(ids: seq<string>, cached: set<string>, id: string)
    ensures id in Removed(ids, cached) <==> id in ids && id !in cached
  {
    RemovedIs(ids, cached, id);
    assert Names(Removed(ids, cached), id) <==> id in Removed(ids, cached);
    assert Names(ids, id) <==> id in ids;
  }

  lemma ProfilesAreKnown(users: map<string, User>, userIds: seq<string>, cached: set<string>, profiles: seq<string>)
    requires AreProfiles(users, userIds, cached, profiles)
    ensures forall i :: 0 <= i < |profiles| ==> profiles[i] in users
  {
    var hits := Hits(userIds, cached);
    forall i | 0 <= i < |profiles| ensures profiles[i] in users {
      if i < |hits| {
        assert hits[i] == profiles[i];
        HitsAre(userIds, cached, profiles[i]);
        var j :| 0 <= j < |userIds| && userIds[j] == profiles[i];
      } else {
        assert profiles[|hits|..][i - |hits|] == profiles[i];
      }
    }
  }

  function CreateGroup(st: State, channelId: string, name: string, userIds: seq<string>, cached: set<string>,
                       profiles: seq<string>, env: Env): Outcome
    requires AreProfiles(st.users, userIds, cached, profiles)
  {
    ProfilesAreKnown(st.users, userIds, cached, profiles);
    if |userIds| > GROUP_MAX_USERS || |userIds| < GROUP_MIN_USERS then Outcome(st, Some(BadSize))
    else if Fails(env, GetProfiles, 0) then Failed(st, GetProfiles)
    else if |profiles| != |userIds| then Outcome(st, Some(BadUsers))
    else if Fails(env, SaveChannel, 0) || channelId in st.channels then Failed(st, SaveChannel)
    else JoinAll(st.(channels := st.channels[channelId := Channel("", name, Group, false)]), channelId, profiles, env)
  }

  function AddMember(st: State, userId: string, channelId: string, env: Env): Outcome
    requires userId in st.users && channelId in st.channels
  {
    var user, channel, key := st.users[userId], st.channels[channelId], Key(channelId, userId);
    if channel.kind != Open && channel.kind != Private then Outcome(st, Some(WrongKind))
    else if Fails(env, GetMember, 0) then Failed(st, GetMember)
    else if key in st.rows then Outcome(st, None)
    else if channel.groupConstrained && Fails(env, FilterGroups, 0) then Failed(st, FilterGroups)
    else if channel.groupConstrained && !env.inGroups then Outcome(st, Some(DeniedByGroups))
    else if !user.guest && Fails(env, AdminGroups, 0) then Failed(st, AdminGroups)
    else SaveAndLog(st, key, NewMember(user, !user.guest && env.inAdminGroups), env, 0)
  }

  function AddUser(st: State, userId: string, channelId: string, env: Env): Outcome
    requires userId in st.users && channelId in st.channels
  {
    var team := TeamKey(st.channels[channelId].teamId, userId);
    if Fails(env, GetTeamMember, 0) then Failed(st, GetTeamMember)
    else if team !in st.teams then Outcome(st, Some(NoTeamMember))
    else if st.teams[team] > 0 then Outcome(st, Some(LeftTeam))
    else AddMember(st, userId, channelId, env)
  }

  // ---------- leaving ----------

  predicate HasChannelIn(st: State, userId: string, teamId: string) {
    exists channelId :: channelId in st.channels && st.channels[channelId].teamId == teamId
        && Key(channelId, userId) in st.rows
  }

  predicate InTeam(st: State, userId: string, teamId: string) {
    TeamKey(teamId, userId) in st.teams && st.teams[TeamKey(teamId, userId)] == 0
  }

  /** A guest with no channel left leaves the team; channels without a team count for every team. */
  function LeaveTeamIfAlone(st: State, userId: string, teamId: string, env: Env): Outcome {
    var team := TeamKey(teamId, userId);
    if Fails(env, GetMembersForUser, 0) then Failed(st, GetMembersForUser)
    else if HasChannelIn(st, userId, teamId) || HasChannelIn(st, userId, "") then Outcome(st, None)
    else if Fails(env, GetTeamMember, 0) || team !in st.teams then Outcome(st, Some(NoTeamMember))
    else if Fails(env, GetUserAgain, 0) then Failed(st, GetUserAgain)
    else if Fails(env, UpdateTeamMember, 0) then Failed(st, UpdateTeamMember)
    else
      var left := st.(teams := st.teams[team := env.now]);
      if Fails(env, AfterTeamUpdate, 0) then Failed(left, AfterTeamUpdate) else Outcome(left, None)
  }

  function RemoveUser(st: State, userId: string, removerId: string, channelId: string, env: Env): Outcome
    requires channelId in st.channels
  {
    var channel, key := st.channels[channelId], Key(channelId, userId);
    if Fails(env, GetUser, 0) then Failed(st, GetUser)
    else if userId !in st.users then Outcome(st, Some(NoUser))
    else
      var user := st.users[userId];
      var constrained := channel.groupConstrained && userId != removerId && !user.bot;
      if channel.name == DEFAULT_CHANNEL && !user.guest then Outcome(st, Some(FromDefaultChannel))
      else if constrained && Fails(env, FilterGroups, 0) then Failed(st, FilterGroups)
      else if constrained && env.inGroups then Outcome(st, Some(DeniedByGroups))
      else if Fails(env, GetMember, 0) then Failed(st, GetMember)
      else if key !in st.rows then Outcome(st, Some(NoMember))
      else if Fails(env, RemoveMember, 0) then Failed(st, RemoveMember)
      else
        var removed := st.(rows := st.rows - {key});
        if Fails(env, LogLeave, 0) then Failed(removed, LogLeave)
        else
          var logged := removed.(history := st.history[key := Closed(Stays(st, key), env.now)]);
          if user.guest then LeaveTeamIfAlone(logged, userId, channel.teamId, env) else Outcome(logged, None)
  }

  // ---------- runs ----------

  datatype Event =
    | Created(channelId: string, channel: Channel, creatorId: string, addMember: bool)
    | GroupCreated(channelId: string, name: string, userIds: seq<string>, cached: set<string>, profiles: seq<string>)
    | Added(userId: string, channelId: string)
    | Taken(userId: string, removerId: string, channelId: string)
    | RolesChanged(key: Key, tokens: seq<string>, scheme: Option<SchemeRoles>, write: Write)
    | SchemeRolesChanged(key: Key, guest: bool, user: bool, admin: bool, migrated: bool, write: Write)

  /** One operation; one that cannot be called leaves everything as it is. */
  function Step(st: State, event: Event, env: Env, known: Catalogue): Outcome {
    match event
    case Created(id, channel, creator, addMember) => ChannelCreated(st, id, channel, creator, addMember, env)
    case GroupCreated(id, name, userIds, cached, profiles) =>
      if AreProfiles(st.users, userIds, cached, profiles)
          then CreateGroup(st, id, name, userIds, cached, profiles, env) else Outcome(st, None)
    case Added(userId, id) =>
      if userId in st.users && id in st.channels then AddUser(st, userId, id, env) else Outcome(st, None)
    case Taken(userId, remover, id) =>
      if id in st.channels then RemoveUser(st, userId, remover, id, env) else Outcome(st, None)
    case RolesChanged(key, tokens, scheme, write) =>
      Outcome(st.(rows := RolesUpdate(st.rows, key, tokens, known, scheme, write).0), None)
    case SchemeRolesChanged(key, guest, user, admin, migrated, write) =>
      Outcome(st.(rows := SchemeRolesUpdate(st.rows, key, guest, user, admin, migrated, write).0), None)
  }

  function Run(st: State, events: seq<(Event, Env)>, known: Catalogue): State {
    if |events| == 0 then st
    else
      var last := events[|events| - 1];
      Step(Run(st, events[..|events| - 1], known), last.0, last.1, known).state
  }

  /** The time after a run. */
  function TimeAfter(events: seq<(Event, Env)>, clock: int): int {
    if |events| == 0 then clock else events[|events| - 1].1.now
  }

  predicate Timely(events: seq<(Event, Env)>, clock: int) {
    forall i :: 0 <= i < |events| ==> TimeAfter(events[..i], clock) <= events[i].1.now
  }

  /** Did the operation fail to write the history? */
  predicate Unlogged(r: Outcome) {
    r.error == Some(Error.StoreFailed(LogJoin)) || r.error == Some(Error.StoreFailed(LogLeave))
  }

  // ---------- the history agrees with the members ----------

  lemma LaterStillTidy(st: State, clock: int, now: int)
    requires Consistent(st, clock) && clock <= now
    ensures Consistent(st, now)
  {
    forall key ensures Tidy(Stays(st, key), key in st.rows, now) {
      assert Tidy(Stays(st, key), key in st.rows, clock);
    }
  }

  /** A change at one pair decides whether everything is still consistent. */
  lemma ConsistentAt(st: State, st': State, key: Key, clock: int, now: int)
    requires Consistent(st, clock) && clock <= now
    requires forall other :: other != key ==>
               Stays(st', other) == Stays(st, other) && (other in st'.rows <==> other in st.rows)
    ensures Consistent(st', now) <==> Tidy(Stays(st', key), key in st'.rows, now)
  {
    if Tidy(Stays(st', key), key in st'.rows, now) {
      forall other ensures Tidy(Stays(st', other), other in st'.rows, now) {
        if other != key {
          assert Tidy(Stays(st, other), other in st.rows, clock);
        }
      }
    }
  }

  /** Saving either changes nothing, or inserts the member and writes the history unless it says otherwise. */
  lemma SaveEffects(st: State, key: Key, member: Member, env: Env, round: nat)
    ensures var r := SaveAndLog(st, key, member, env, round);
            if r.state.rows == st.rows then r.state == st && !Unlogged(r)
            else
              && key !in st.rows && r.state.rows == st.rows[key := Stored(member)]
              && r.state.history == if Unlogged(r) then st.history
                 else st.history[key := Stays(st, key) + [Stay(env.now, None)]]
  {
    assert key in st.rows[key := Stored(member)];
  }

  lemma SaveAndLogHistory(st: State, key: Key, member: Member, env: Env, round: nat, clock: int)
    requires Consistent(st, clock) && clock <= env.now
    ensures Consistent(SaveAndLog(st, key, member, env, round).state, env.now) <==>
              !Unlogged(SaveAndLog(st, key, member, env, round))
  {
    var r := SaveAndLog(st, key, member, env, round);
    SaveEffects(st, key, member, env, round);
    if r.state.rows == st.rows {
      LaterStillTidy(st, clock, env.now);
    } else {
      assert Tidy(Stays(st, key), key in st.rows, clock);
      JoinKeepsTidy(Stays(st, key), clock, env.now);
      ConsistentAt(st, r.state, key, clock, env.now);
    }
  }

  lemma {:induction false} JoinAllHistory(st: State, channelId: string, userIds: seq<string>, env: Env, clock: int)
    requires forall i :: 0 <= i < |userIds| ==> userIds[i] in st.users
    requires Consistent(st, clock) && clock <= env.now
    ensures Consistent(JoinAll(st, channelId, userIds, env).state, env.now) <==>
              !Unlogged(JoinAll(st, channelId, userIds, env))
  {
    if |userIds| == 0 {
      LaterStillTidy(st, clock, env.now);
    } else {
      var last := userIds[|userIds| - 1];
      JoinAllHistory(st, channelId, userIds[..|userIds| - 1], env, clock);
      var r := JoinAll(st, channelId, userIds[..|userIds| - 1], env);
      if r.error.None? {
        SaveAndLogHistory(r.state, Key(channelId, last), NewMember(st.users[last], false), env, |userIds| - 1, env.now);
      }
    }
  }

  lemma SameMembersSameHistory(st: State, st': State, clock: int, now: int)
    requires Consistent(st, clock) && clock <= now
    requires st'.rows.Keys == st.rows.Keys && st'.history == st.history
    ensures Consistent(st', now)
  {
    forall key ensures Tidy(Stays(st', key), key in st'.rows, now) {
      assert Tidy(Stays(st, key), key in st.rows, clock);
      assert key in st'.rows <==> key in st.rows.Keys;
    }
  }

  /** A guest's leaving the team touches neither members nor history. */
  lemma LeavingTeamEffects(st: State, userId: string, teamId: string, env: Env)
    ensures var r := LeaveTeamIfAlone(st, userId, teamId, env);
            r.state.rows == st.rows && r.state.history == st.history && r.state.channels == st.channels && !Unlogged(r)
  {
  }

  /** The members and the history after a removal. */
  lemma RemoveEffects(st: State, userId: string, removerId: string, channelId: string, env: Env)
    requires channelId in st.channels
    ensures var r, key := RemoveUser(st, userId, removerId, channelId, env), Key(channelId, userId);
            if r.state.rows == st.rows then r.state == st && !Unlogged(r)
            else
              && key in st.rows && r.state.rows == st.rows - {key}
              && r.state.history == if Unlogged(r) then st.history
                 else st.history[key := Closed(Stays(st, key), env.now)]
  {
    var key := Key(channelId, userId);
    assert key in st.rows ==> key !in st.rows - {key};
    var logged := st.(rows := st.rows - {key}, history := st.history[key := Closed(Stays(st, key), env.now)]);
    LeavingTeamEffects(logged, userId, st.channels[channelId].teamId, env);
  }

  lemma RemoveHistory(st: State, userId: string, removerId: string, channelId: string, env: Env, clock: int)
    requires channelId in st.channels
    requires Consistent(st, clock) && clock <= env.now
    ensures Consistent(RemoveUser(st, userId, removerId, channelId, env).state, env.now)
            <==> !Unlogged(RemoveUser(st, userId, removerId, channelId, env))
  {
    RemoveEffects(st, userId, removerId, channelId, env);
    var r := RemoveUser(st, userId, removerId, channelId, env);
    var key := Key(channelId, userId);
    if r.state == st {
      LaterStillTidy(st, clock, env.now);
    } else {
      assert Tidy(Stays(st, key), key in st.rows, clock);
      LeaveKeepsTidy(Stays(st, key), clock, env.now);
      ConsistentAt(st, r.state, key, clock, env.now);
    }
  }

  lemma CreateHistory(st: State, channelId: string, channel: Channel, creatorId: string, addMember: bool, env: Env,
                      clock: int)
    requires Consistent(st, clock) && clock <= env.now
    ensures Consistent(ChannelCreated(st, channelId, channel, creatorId, addMember, env).state, env.now)
            <==> !Unlogged(ChannelCreated(st, channelId, channel, creatorId, addMember, env))
  {
    var created := st.(channels := st.channels[channelId := channel]);
    LaterStillTidy(st, clock, env.now);
    SameMembersSameHistory(st, created, clock, env.now);
    if creatorId in st.users {
      SaveAndLogHistory(created, Key(channelId, creatorId), NewMember(st.users[creatorId], true), env, 0, env.now);
    }
  }

  lemma GroupHistory(st: State, channelId: string, name: string, userIds: seq<string>, cached: set<string>,
                     profiles: seq<string>, env: Env, clock: int)
    requires AreProfiles(st.users, userIds, cached, profiles)
    requires Consistent(st, clock) && clock <= env.now
    ensures Consistent(CreateGroup(st, channelId, name, userIds, cached, profiles, env).state, env.now)
            <==> !Unlogged(CreateGroup(st, channelId, name, userIds, cached, profiles, env))
  {
    var created := st.(channels := st.channels[channelId := Channel("", name, Group, false)]);
    LaterStillTidy(st, clock, env.now);
    SameMembersSameHistory(st, created, clock, env.now);
    ProfilesAreKnown(st.users, userIds, cached, profiles);
    JoinAllHistory(created, channelId, profiles, env, env.now);
  }

  /** Adding either saves a new member of somebody in the team or changes nothing. */
  lemma AddCases(st: State, userId: string, channelId: string, env: Env)
    requires userId in st.users && channelId in st.channels
    ensures var r, user := AddUser(st, userId, channelId, env), st.users[userId];
            (r == SaveAndLog(st, Key(channelId, userId), NewMember(user, !user.guest && env.inAdminGroups), env, 0)
              && InTeam(st, userId, st.channels[channelId].teamId) && Key(channelId, userId) !in st.rows)
            || (r.state == st && !Unlogged(r))
  {
  }

  lemma AddHistory(st: State, userId: string, channelId: string, env: Env, clock: int)
    requires userId in st.users && channelId in st.channels
    requires Consistent(st, clock) && clock <= env.now
    ensures Consistent(AddUser(st, userId, channelId, env).state, env.now) <==>
              !Unlogged(AddUser(st, userId, channelId, env))
  {
    var user := st.users[userId];
    AddCases(st, userId, channelId, env);
    if AddUser(st, userId, channelId, env).state == st && !Unlogged(AddUser(st, userId, channelId, env)) {
      LaterStillTidy(st, clock, env.now);
    } else {
      SaveAndLogHistory(st, Key(channelId, userId), NewMember(user, !user.guest && env.inAdminGroups), env, 0, clock);
    }
  }

  /** Updating roles never adds or removes a member. */
  lemma RolesKeepMembers(st: State, event: Event, env: Env, known: Catalogue)
    requires event.RolesChanged? || event.SchemeRolesChanged?
    ensures Step(st, event, env, known).state.rows.Keys == st.rows.Keys
    ensures Step(st, event, env, known).state == st.(rows := Step(st, event, env, known).state.rows)
    ensures Step(st, event, env, known).error.None?
  {
  }

  /** Any operation keeps the agreement exactly if it does not report that writing the history failed. */
  lemma StepReportsHistory(st: State, event: Event, env: Env, known: Catalogue, clock: int)
    requires Consistent(st, clock) && clock <= env.now
    ensures Consistent(Step(st, event, env, known).state, env.now) <==> !Unlogged(Step(st, event, env, known))
  {
    match event {
      case Created(id, channel, creator, addMember) =>
        CreateHistory(st, id, channel, creator, addMember, env, clock);
      case GroupCreated(id, name, userIds, cached, profiles) =>
        if AreProfiles(st.users, userIds, cached, profiles) {
          GroupHistory(st, id, name, userIds, cached, profiles, env, clock);
        } else {
          LaterStillTidy(st, clock, env.now);
        }
      case Added(userId, id) =>
        if userId in st.users && id in st.channels {
          AddHistory(st, userId, id, env, clock);
        } else {
          LaterStillTidy(st, clock, env.now);
        }
      case Taken(userId, remover, id) =>
        if id in st.channels {
          RemoveHistory(st, userId, remover, id, env, clock);
        } else {
          LaterStillTidy(st, clock, env.now);
        }
      case RolesChanged(_, _, _, _) =>
        RolesKeepMembers(st, event, env, known);
        SameMembersSameHistory(st, Step(st, event, env, known).state, clock, env.now);
      case SchemeRolesChanged(_, _, _, _, _, _) =>
        RolesKeepMembers(st, event, env, known);
        SameMembersSameHistory(st, Step(st, event, env, known).state, clock, env.now);
    }
  }

  // ---------- the members of new channels ----------

  /** Members and history only speak of channels that exist. */
  predicate Wired(st: State) {
    && (forall key :: key in st.rows ==> key.channelId in st.channels)
    && (forall key :: key in st.history ==> key.channelId in st.channels)
  }

  /** A row that reads as a member without explicit roles: a guest as a guest, anybody else as a user. */
  predicate IsNew(row: Row, user: User, admin: bool) {
    Read(row) == Member([], user.guest, !user.guest, admin)
  }

  lemma NewIsNew(user: User, admin: bool)
    ensures IsNew(Stored(NewMember(user, admin)), user, admin)
  {
    ReadingUndoesStoring(NewMember(user, admin));
  }

  /** Creating a channel for a known creator makes the creator, guest or not, its only member, as an admin. */
  lemma CreatorIsAdmin(st: State, channelId: string, channel: Channel, creatorId: string, env: Env, userId: string)
    requires Wired(st)
    ensures var r := ChannelCreated(st, channelId, channel, creatorId, true, env);
            (r.error.None? <==> channelId !in st.channels && creatorId in st.users && !Fails(env, SaveChannel, 0)
                                && !Fails(env, GetUser, 0) && !Fails(env, SaveMember, 0) && !Fails(env, LogJoin, 0))
            && (r.error.None? ==>
                  (Key(channelId, userId) in r.state.rows <==> userId == creatorId)
                  && IsNew(r.state.rows[Key(channelId, creatorId)], st.users[creatorId], true)
                  && r.state == st.(channels := st.channels[channelId := channel], rows := r.state.rows,
                                    history := st.history[Key(channelId, creatorId) := [Stay(env.now, None)]]))
  {
    if channelId !in st.channels && creatorId in st.users {
      NewIsNew(st.users[creatorId], true);
      assert Stays(st, Key(channelId, creatorId)) + [Stay(env.now, None)] == [Stay(env.now, None)];
    }
  }

  predicate AllKnown(users: map<string, User>, ids: seq<string>) {
    forall i :: 0 <= i < |ids| ==> ids[i] in users
  }

  lemma FoundMatch(users: map<string, User>, ids: seq<string>, found: seq<string>)
    requires AreFound(users, ids, found)
    ensures |found| == |ids| <==> Distinct(ids) && AllKnown(users, ids)
    ensures |found| == |ids| ==> Elements(found) == Elements(ids)
  {
    ElementCount(found);
    ElementCount(ids);
    forall id | id in Elements(found) ensures id in Elements(ids) {
      var i :| 0 <= i < |found| && found[i] == id;
      assert found[i] in ids;
    }
    SubsetSize(Elements(found), Elements(ids));
    if |found| == |ids| {
      SubsetOfSameSize(Elements(found), Elements(ids));
      forall i | 0 <= i < |ids| ensures ids[i] in users {
        assert ids[i] in Elements(ids);
      }
    }
    if Distinct(ids) && AllKnown(users, ids) {
      forall id | id in Elements(ids) ensures id in Elements(found) {
        var i :| 0 <= i < |ids| && ids[i] == id;
        assert ids[i] in found;
      }
      assert Elements(found) == Elements(ids);
    }
  }

  lemma ElementsAre(ids: seq<string>, id: string)
    ensures id in Elements(ids) <==> id in ids
  {
  }

  /** The profiles are as many as the ids exactly if the ids that are not in the cache are distinct and known. */
  lemma ProfilesMatch(users: map<string, User>, userIds: seq<string>, cached: set<string>, profiles: seq<string>)
    requires AreProfiles(users, userIds, cached, profiles)
    ensures |profiles| == |userIds| <==> Distinct(Removed(userIds, cached)) && AllKnown(users, Removed(userIds, cached))
    ensures |profiles| == |userIds| ==> Elements(profiles) == Elements(userIds) && AllKnown(users, userIds)
  {
    var hits, misses := Hits(userIds, cached), Removed(userIds, cached);
    var found := profiles[|hits|..];
    HitsAndMisses(userIds, cached);
    FoundMatch(users, misses, found);
    if |profiles| == |userIds| {
      assert profiles == hits + found;
      forall id ensures id in Elements(profiles) <==> id in Elements(userIds) {
        ElementsAre(profiles, id);
        ElementsAre(userIds, id);
        ElementsAre(found, id);
        ElementsAre(misses, id);
        HitsAre(userIds, cached, id);
        MissesAre(userIds, cached, id);
      }
      forall i | 0 <= i < |userIds| ensures userIds[i] in users {
        if userIds[i] !in cached {
          MissesAre(userIds, cached, userIds[i]);
          var j :| 0 <= j < |misses| && misses[j] == userIds[i];
        }
      }
    }
  }

  /** No failure while the first users join. */
  predicate JoinsWork(env: Env, n: nat) {
    env.fault.Some? && (env.fault.value.call == SaveMember || env.fault.value.call == LogJoin) ==>
          env.fault.value.round >= n
  }

  predicate Joiner(key: Key, channelId: string, userIds: seq<string>) {
    key.channelId == channelId && key.userId in Elements(userIds)
  }

  lemma {:induction false} JoinAllAdds(st: State, channelId: string, userIds: seq<string>, env: Env, key: Key)
    requires AllKnown(st.users, userIds)
    requires JoinAll(st, channelId, userIds, env).error.None?
    ensures key in JoinAll(st, channelId, userIds, env).state.rows <==>
              key in st.rows || Joiner(key, channelId, userIds)
    ensures key in JoinAll(st, channelId, userIds, env).state.history <==>
              key in st.history || Joiner(key, channelId, userIds)
  {
    if |userIds| > 0 {
      var init, last := userIds[..|userIds| - 1], userIds[|userIds| - 1];
      assert AllKnown(st.users, init);
      JoinAllAdds(st, channelId, init, env, key);
      assert Elements(userIds) == Elements(init) + {last};
    } else {
      assert Elements(userIds) == {};
    }
  }

  /** One user's joining adds at most a row that reads as this new member. */
  ghost predicate AddsNew(before: map<Key, Row>, after: map<Key, Row>, channelId: string, users: map<string, User>,
                          key: Key)
  {
    if key in before then key in after && after[key] == before[key]
    else key in after ==>
      key.channelId == channelId && key.userId in users && IsNew(after[key], users[key.userId], false)
  }

  lemma SaveMakesNew(st: State, channelId: string, userId: string, env: Env, round: nat, key: Key)
    requires userId in st.users
    ensures var after := SaveAndLog(st, Key(channelId, userId), NewMember(st.users[userId], false), env, round).state;
            after.teams == st.teams && AddsNew(st.rows, after.rows, channelId, st.users, key)
  {
    NewIsNew(st.users[userId], false);
  }

  /** Whoever joins, up to the first failure, is a new member and no admin; others and the teams are as before. */
  lemma {:induction false} JoinAllMakesNew(st: State, channelId: string, userIds: seq<string>, env: Env, key: Key)
    requires AllKnown(st.users, userIds)
    ensures var after := JoinAll(st, channelId, userIds, env).state;
            after.teams == st.teams && AddsNew(st.rows, after.rows, channelId, st.users, key)
  {
    if |userIds| > 0 {
      var init, last := userIds[..|userIds| - 1], userIds[|userIds| - 1];
      assert AllKnown(st.users, init);
      JoinAllMakesNew(st, channelId, init, env, key);
      var r := JoinAll(st, channelId, init, env);
      SaveMakesNew(r.state, channelId, last, env, |init|, key);
    }
  }

  lemma {:induction false} JoinAllWorks(st: State, channelId: string, userIds: seq<string>, env: Env)
    requires AllKnown(st.users, userIds) && Distinct(userIds)
    requires forall k :: k in st.rows || k in st.history ==> k.channelId != channelId
    ensures JoinAll(st, channelId, userIds, env).error.None? <==> JoinsWork(env, |userIds|)
  {
    if |userIds| > 0 {
      var init, last := userIds[..|userIds| - 1], userIds[|userIds| - 1];
      assert AllKnown(st.users, init);
      JoinAllWorks(st, channelId, init, env);
      var r := JoinAll(st, channelId, init, env);
      if r.error.None? {
        assert last !in Elements(init);
        JoinAllAdds(st, channelId, init, env, Key(channelId, last));
        FirstJoinWorks(r.state, Key(channelId, last), NewMember(st.users[last], false), env, |init|);
      }
    }
  }

  /** Nobody can join twice. */
  lemma {:induction false} JoinAllOnce(st: State, channelId: string, userIds: seq<string>, env: Env)
    requires AllKnown(st.users, userIds)
    ensures JoinAll(st, channelId, userIds, env).error.None? ==> Distinct(userIds)
  {
    if |userIds| > 0 {
      var init, last := userIds[..|userIds| - 1], userIds[|userIds| - 1];
      assert AllKnown(st.users, init);
      JoinAllOnce(st, channelId, init, env);
      if JoinAll(st, channelId, userIds, env).error.None? {
        JoinAllAdds(st, channelId, init, env, Key(channelId, last));
        assert last !in Elements(init);
        forall i, j | 0 <= i < j < |userIds| ensures userIds[i] != userIds[j] {
          assert init[i] == userIds[i];
        }
      }
    }
  }

  lemma FirstJoinWorks(st: State, key: Key, member: Member, env: Env, round: nat)
    requires key !in st.rows && key !in st.history
    ensures SaveAndLog(st, key, member, env, round).error.None? <==>
              !Fails(env, SaveMember, round) && !Fails(env, LogJoin, round)
  {
    assert Stays(st, key) == [];
  }

  /**
   * Creating a group succeeds exactly for three to eight distinct known users, a fresh id and a store
   * that works; its members are then exactly these users.
   */
  lemma GroupOutcome(st: State, channelId: string, name: string, userIds: seq<string>, cached: set<string>,
                     profiles: seq<string>, env: Env, key: Key)
    requires Wired(st) && AreProfiles(st.users, userIds, cached, profiles)
    ensures var r := CreateGroup(st, channelId, name, userIds, cached, profiles, env);
            (r.error.None? <==>
               3 <= |userIds| <= 8 && Distinct(userIds) && AllKnown(st.users, userIds)
               && channelId !in st.channels && !Fails(env, GetProfiles, 0) && !Fails(env, SaveChannel, 0)
               && JoinsWork(env, |userIds|))
            && (r.error.None? ==> (key in r.state.rows <==> key in st.rows || Joiner(key, channelId, userIds)))
            && AddsNew(st.rows, r.state.rows, channelId, st.users, key)
            && (r.error.None? ==>
                  r.state.channels == st.channels[channelId := Channel("", name, Group, false)]
                  && r.state.teams == st.teams && r.state.users == st.users)
  {
    ProfilesAreKnown(st.users, userIds, cached, profiles);
    ProfilesMatch(st.users, userIds, cached, profiles);
    if Distinct(userIds) && AllKnown(st.users, userIds) {
      MissesOfDistinct(st.users, userIds, cached);
    }
    if channelId !in st.channels && |profiles| == |userIds| {
      ElementCount(profiles);
      ElementCount(userIds);
      var created := st.(channels := st.channels[channelId := Channel("", name, Group, false)]);
      JoinAllMakesNew(created, channelId, profiles, env, key);
      JoinAllOnce(created, channelId, profiles, env);
      if Distinct(profiles) {
        JoinAllWorks(created, channelId, profiles, env);
        if JoinsWork(env, |profiles|) {
          JoinAllAdds(created, channelId, profiles, env, key);
        }
      }
    }
  }

  lemma {:induction false} MissesOfDistinct(users: map<string, User>, ids: seq<string>, cached: set<string>)
    requires Distinct(ids) && AllKnown(users, ids)
    ensures Distinct(Removed(ids, cached)) && AllKnown(users, Removed(ids, cached))
  {
    if |ids| > 0 {
      var init, last := ids[..|ids| - 1], ids[|ids| - 1];
      MissesOfDistinct(users, init, cached);
      MissesAre(init, cached, last);
      forall i | 0 <= i < |init| ensures init[i] != last {
        assert ids[i] == init[i];
      }
    }
  }

  lemma DistinctSnoc(ids: seq<string>, last: string)
    requires Distinct(ids)
    ensures Distinct(ids + [last]) <==> last !in Elements(ids)
  {
    if last in Elements(ids) {
      var i :| 0 <= i < |ids| && ids[i] == last;
      assert (ids + [last])[i] == (ids + [last])[|ids|];
    } else {
      forall i, j | 0 <= i < j < |ids + [last]| ensures (ids + [last])[i] != (ids + [last])[j] {
        assert (ids + [last])[i] == ids[i];
      }
    }
  }

  lemma {:induction false} JoinAllRepeats(st: State, channelId: string, userIds: seq<string>, env: Env)
    requires AllKnown(st.users, userIds) && !Distinct(userIds) && env.fault.None?
    requires forall k :: k in st.rows || k in st.history ==> k.channelId != channelId
    ensures var r := JoinAll(st, channelId, userIds, env);
            r.error == Some(Error.StoreFailed(SaveMember)) && Key(channelId, userIds[0]) in r.state.rows
  {
    var init, last := userIds[..|userIds| - 1], userIds[|userIds| - 1];
    assert AllKnown(st.users, init);
    if !Distinct(init) {
      JoinAllRepeats(st, channelId, init, env);
    } else {
      assert userIds == init + [last];
      DistinctSnoc(init, last);
      JoinAllWorks(st, channelId, init, env);
      JoinAllAdds(st, channelId, init, env, Key(channelId, last));
      JoinAllAdds(st, channelId, init, env, Key(channelId, userIds[0]));
      assert userIds[0] in Elements(init) by {
        var i :| 0 <= i < |init| && init[i] == last;
        assert init[0] == userIds[0];
      }
    }
  }

  /** Repeated ids that are in the cache pass the check of their number: the group then fails, but only after
      the channel and a member have been saved. */
  lemma RepeatedIdsLeaveChannel(st: State, channelId: string, name: string, userIds: seq<string>, cached: set<string>,
                                profiles: seq<string>, env: Env)
    requires Wired(st) && AreProfiles(st.users, userIds, cached, profiles) && env.fault.None?
    requires GROUP_MIN_USERS <= |userIds| == |profiles| <= GROUP_MAX_USERS && !Distinct(userIds)
             && channelId !in st.channels
    ensures var r := CreateGroup(st, channelId, name, userIds, cached, profiles, env);
            && r.error == Some(Error.StoreFailed(SaveMember)) && channelId in r.state.channels
            && Key(channelId, profiles[0]) in r.state.rows
  {
    ProfilesAreKnown(st.users, userIds, cached, profiles);
    ProfilesMatch(st.users, userIds, cached, profiles);
    ElementCount(profiles);
    ElementCount(userIds);
    var created := st.(channels := st.channels[channelId := Channel("", name, Group, false)]);
    JoinAllRepeats(created, channelId, profiles, env);
  }

  /** Ids that are all in the cache are answered one by one, repeated ones too. */
  lemma {:induction false} AllCached(users: map<string, User>, ids: seq<string>, cached: set<string>)
    requires AllKnown(users, ids) && forall i :: 0 <= i < |ids| ==> ids[i] in cached
    ensures Hits(ids, cached) == ids && Removed(ids, cached) == [] && AreProfiles(users, ids, cached, ids)
  {
    if |ids| > 0 {
      var init, last := ids[..|ids| - 1], ids[|ids| - 1];
      AllCached(users, init, cached);
      assert ids == init + [last];
    }
    assert ids[|ids|..] == [];
  }

  // ---------- what adding and removing do ----------

  /** May groups keep a user out of a channel, or in it? */
  predicate GroupsAllowJoin(channel: Channel, env: Env) {
    channel.groupConstrained ==> !Fails(env, FilterGroups, 0) && env.inGroups
  }

  predicate GroupsAllowLeave(channel: Channel, user: User, userId: string, removerId: string, env: Env) {
    channel.groupConstrained && userId != removerId && !user.bot ==> !Fails(env, FilterGroups, 0) && !env.inGroups
  }

  /**
   * Adding succeeds exactly for an active team member and an open or private channel, if the user is a member
   * already or the groups allow it and every call works; a new member gets flags and history, and nothing else changes.
   */
  lemma AddOutcome(st: State, userId: string, channelId: string, env: Env)
    requires userId in st.users && channelId in st.channels
    ensures var r, key := AddUser(st, userId, channelId, env), Key(channelId, userId);
            var user, channel, stays := st.users[userId], st.channels[channelId], Stays(st, key);
            (r.error.None? <==>
               InTeam(st, userId, channel.teamId) && (channel.kind == Open || channel.kind == Private)
               && !Fails(env, GetTeamMember, 0) && !Fails(env, GetMember, 0)
               && (key in st.rows
                   || (GroupsAllowJoin(channel, env) && (user.guest || !Fails(env, AdminGroups, 0))
                       && !Fails(env, SaveMember, 0) && !Fails(env, LogJoin, 0) && !JoinedAt(stays, env.now))))
            && (r.error.None? ==>
                  if key in st.rows then r.state == st
                  else
                    && key in r.state.rows && IsNew(r.state.rows[key], user, !user.guest && env.inAdminGroups)
                    && r.state == st.(rows := st.rows[key := r.state.rows[key]],
                                      history := st.history[key := stays + [Stay(env.now, None)]]))
  {
    NewIsNew(st.users[userId], !st.users[userId].guest && env.inAdminGroups);
  }

  /** Also where the history could not be written a member that was saved has these roles, and nothing else changed. */
  lemma UnloggedMember(st: State, userId: string, channelId: string, env: Env)
    requires userId in st.users && channelId in st.channels && JoinLogFails(st, userId, channelId, env)
    ensures var after, key := AddUser(st, userId, channelId, env).state, Key(channelId, userId);
            && key in after.rows && after == st.(rows := st.rows[key := after.rows[key]])
            && IsNew(after.rows[key], st.users[userId], !st.users[userId].guest && env.inAdminGroups)
  {
    NewIsNew(st.users[userId], !st.users[userId].guest && env.inAdminGroups);
  }

  /** A removal that takes a member out: not of a user other than a guest from the default channel, allowed
      by the groups, and with its calls up to the deletion working. */
  predicate Removable(st: State, userId: string, removerId: string, channelId: string, env: Env)
    requires channelId in st.channels
  {
    && Key(channelId, userId) in st.rows && userId in st.users
    && (st.channels[channelId].name == DEFAULT_CHANNEL ==> st.users[userId].guest)
    && GroupsAllowLeave(st.channels[channelId], st.users[userId], userId, removerId, env)
    && !Fails(env, GetUser, 0) && !Fails(env, GetMember, 0) && !Fails(env, RemoveMember, 0)
  }

  /** Exactly such a removal changes anything. */
  lemma RemoveOutcome(st: State, userId: string, removerId: string, channelId: string, env: Env)
    requires channelId in st.channels
    ensures var after := RemoveUser(st, userId, removerId, channelId, env).state;
            && (Removable(st, userId, removerId, channelId, env) <==> after != st)
            && (Removable(st, userId, removerId, channelId, env) ==> after.rows == st.rows - {Key(channelId, userId)})
  {
    RemoveEffects(st, userId, removerId, channelId, env);
    var key := Key(channelId, userId);
    assert key in st.rows ==> key !in st.rows - {key};
  }

  // ---------- how operations end ----------

  /** Does the error, if it is that of a call, name the call that fails? */
  predicate NamesFault(error: Option<Error>, env: Env) {
    error.Some? && error.value.StoreFailed? ==> env.fault.Some? && env.fault.value.call == error.value.call
  }

  /** Adding ends with the first of its checks that is not passed: a row in the team, an active one, the kind of the
      channel, and its groups. A call that fails is named, and the history also fails for who joined at this time. */
  lemma AddEndsWith(st: State, userId: string, channelId: string, env: Env)
    requires userId in st.users && channelId in st.channels
    ensures var error, channel := AddUser(st, userId, channelId, env).error, st.channels[channelId];
            var team, key := TeamKey(channel.teamId, userId), Key(channelId, userId);
            && (error == Some(NoTeamMember) <==> !Fails(env, GetTeamMember, 0) && team !in st.teams)
            && (error == Some(LeftTeam) <==>
                  !Fails(env, GetTeamMember, 0) && team in st.teams && st.teams[team] > 0)
            && (error == Some(WrongKind) <==>
                  !Fails(env, GetTeamMember, 0) && InTeam(st, userId, channel.teamId) &&
                  (channel.kind == Direct || channel.kind == Group))
            && (error == Some(DeniedByGroups) <==>
                  InTeam(st, userId, channel.teamId) && (channel.kind == Open || channel.kind == Private) &&
                  !Fails(env, GetTeamMember, 0) && !Fails(env, GetMember, 0) && key !in st.rows &&
                  channel.groupConstrained && !Fails(env, FilterGroups, 0) && !env.inGroups)
            && (NamesFault(error, env) ||
                (error == Some(Error.StoreFailed(LogJoin)) && JoinedAt(Stays(st, key), env.now)))
            && (error.Some? ==> error.value in {NoTeamMember, LeftTeam, WrongKind, DeniedByGroups} ||
                                error.value.StoreFailed?)
  {
  }

  /** Removing likewise: the user, the default channel, the groups, and the membership; and a guest who is alone but has
      no row in the team that is left. */
  lemma RemoveEndsWith(st: State, userId: string, removerId: string, channelId: string, env: Env)
    requires channelId in st.channels
    ensures var r, channel, key := RemoveUser(st, userId, removerId, channelId, env), st.channels[channelId],
                Key(channelId, userId);
            var found := !Fails(env, GetUser, 0) && userId in st.users;
            && (r.error == Some(NoUser) <==> !Fails(env, GetUser, 0) && userId !in st.users)
            && (r.error == Some(FromDefaultChannel) <==>
                  found && channel.name == "town-square" && !st.users[userId].guest)
            && (r.error == Some(DeniedByGroups) <==>
                  found && !(channel.name == "town-square" && !st.users[userId].guest) && channel.groupConstrained &&
                  userId != removerId && !st.users[userId].bot && !Fails(env, FilterGroups, 0) && env.inGroups)
            && (r.error == Some(NoMember) <==>
                  found && !(channel.name == "town-square" && !st.users[userId].guest) &&
                  GroupsAllowLeave(channel, st.users[userId], userId, removerId, env) &&
                  !Fails(env, GetMember, 0) && key !in st.rows)
            && NamesFault(r.error, env)
            && (r.error.None? ==> Removable(st, userId, removerId, channelId, env))
            && (Removable(st, userId, removerId, channelId, env) && !(userId in st.users && st.users[userId].guest) ==>
                  r.error == if Fails(env, LogLeave, 0) then Some(Error.StoreFailed(LogLeave)) else None)
  {
    var key := Key(channelId, userId);
    var logged := st.(rows := st.rows - {key}, history := st.history[key := Closed(Stays(st, key), env.now)]);
    LeaveEndsWith(logged, userId, st.channels[channelId].teamId, env);
  }

  /** A guest leaves the team exactly if no channel that counts is left and everything works. */
  lemma LeaveEndsWith(st: State, userId: string, teamId: string, env: Env)
    ensures var r := LeaveTeamIfAlone(st, userId, teamId, env);
            var stays := HasChannelIn(st, userId, teamId) || HasChannelIn(st, userId, "");
            && NamesFault(r.error, env)
            && (r.error.Some? ==> r.error.value.StoreFailed? || r.error.value == NoTeamMember)
            && (r.error == Some(NoTeamMember) <==>
                  !Fails(env, GetMembersForUser, 0) && !stays &&
                  (Fails(env, GetTeamMember, 0) || TeamKey(teamId, userId) !in st.teams))
            && (r.error.None? <==>
                  !Fails(env, GetMembersForUser, 0) &&
                  (stays || (TeamKey(teamId, userId) in st.teams && !Fails(env, GetTeamMember, 0) &&
                             !Fails(env, GetUserAgain, 0) && !Fails(env, UpdateTeamMember, 0) &&
                             !Fails(env, AfterTeamUpdate, 0))))
            && (r.error.None? ==>
                  r.state == if stays then st else st.(teams := st.teams[TeamKey(teamId, userId) := env.now]))
            && (r.error == Some(Error.StoreFailed(AfterTeamUpdate)) ==>
                  r.state == st.(teams := st.teams[TeamKey(teamId, userId) := env.now]))
            && (r.error.Some? && r.error.value != Error.StoreFailed(AfterTeamUpdate) ==> r.state == st)
  {
  }

  /** Creating a channel ends with the first call that fails, or with an unknown creator after the channel was saved. */
  lemma CreateEndsWith(st: State, channelId: string, channel: Channel, creatorId: string, addMember: bool, env: Env)
    ensures var r := ChannelCreated(st, channelId, channel, creatorId, addMember, env);
            && (r.error == Some(Error.StoreFailed(SaveChannel)) <==>
                  Fails(env, SaveChannel, 0) || channelId in st.channels)
            && (r.error == Some(NoUser) <==>
                  !Fails(env, SaveChannel, 0) && channelId !in st.channels && addMember &&
                  !Fails(env, GetUser, 0) && creatorId !in st.users)
            && (r.error.Some? ==> r.error.value.StoreFailed? || r.error.value == NoUser)
            && (r.error == Some(Error.StoreFailed(SaveChannel)) ==> r.state == st)
            && (r.error != Some(Error.StoreFailed(SaveChannel)) ==>
                  r.state.channels == st.channels[channelId := channel] && r.state.teams == st.teams)
            && (!addMember && r.error != Some(Error.StoreFailed(SaveChannel)) ==>
                  r.error.None? && r.state.rows == st.rows && r.state.history == st.history)
  {
  }

  /** Creating a group: its size, its users and the channel, in this order; nothing is changed before the channel. */
  lemma GroupEndsWith(st: State, channelId: string, name: string, userIds: seq<string>, cached: set<string>,
                      profiles: seq<string>, env: Env)
    requires AreProfiles(st.users, userIds, cached, profiles)
    ensures var r := CreateGroup(st, channelId, name, userIds, cached, profiles, env);
            var sized := 3 <= |userIds| <= 8;
            && (r.error == Some(BadSize) <==> !sized)
            && (r.error == Some(Error.StoreFailed(GetProfiles)) <==> sized && Fails(env, GetProfiles, 0))
            && (r.error == Some(BadUsers) <==>
                  sized && !Fails(env, GetProfiles, 0) &&
                  !(Distinct(Removed(userIds, cached)) && AllKnown(st.users, Removed(userIds, cached))))
            && (r.error == Some(Error.StoreFailed(SaveChannel)) <==>
                  sized && !Fails(env, GetProfiles, 0) && |profiles| == |userIds| &&
                  (Fails(env, SaveChannel, 0) || channelId in st.channels))
            && (channelId !in r.state.channels || channelId in st.channels ==> r.state == st)
  {
    ProfilesAreKnown(st.users, userIds, cached, profiles);
    ProfilesMatch(st.users, userIds, cached, profiles);
    if |profiles| == |userIds| && channelId !in st.channels {
      var created := st.(channels := st.channels[channelId := Channel("", name, Group, false)]);
      JoinAllError(created, channelId, profiles, env);
    }
  }

  lemma {:induction false} JoinAllError(st: State, channelId: string, userIds: seq<string>, env: Env)
    requires AllKnown(st.users, userIds)
    ensures var r := JoinAll(st, channelId, userIds, env);
            r.error.Some? ==> r.error.value in {Error.StoreFailed(SaveMember), Error.StoreFailed(LogJoin)}
  {
    if |userIds| > 0 {
      assert AllKnown(st.users, userIds[..|userIds| - 1]);
      JoinAllError(st, channelId, userIds[..|userIds| - 1], env);
    }
  }

  // ---------- when the history is written ----------

  /** The failing call is that of writing the history for a user that was saved. */
  predicate GroupLogFails(profiles: seq<string>, env: Env) {
    env.fault.Some? && env.fault.value.call == LogJoin && env.fault.value.round < |profiles|
    && Distinct(profiles[..env.fault.value.round + 1])
  }

  /** Adding gets as far as saving the member, and then the history cannot be written: the store fails, or
      the user joined before within this millisecond. */
  predicate JoinLogFails(st: State, userId: string, channelId: string, env: Env)
    requires userId in st.users && channelId in st.channels
  {
    var user, channel, key := st.users[userId], st.channels[channelId], Key(channelId, userId);
    && InTeam(st, userId, channel.teamId) && (channel.kind == Open || channel.kind == Private) && key !in st.rows
    && !Fails(env, GetTeamMember, 0) && !Fails(env, GetMember, 0) && GroupsAllowJoin(channel, env)
    && (user.guest || !Fails(env, AdminGroups, 0)) && !Fails(env, SaveMember, 0)
    && (Fails(env, LogJoin, 0) || JoinedAt(Stays(st, key), env.now))
  }

  /** Before an operation is called: will it save or delete a member and then fail to write the history? */
  predicate LogFails(st: State, event: Event, env: Env) {
    match event
    case Created(id, channel, creator, addMember) =>
      id !in st.channels && addMember && creator in st.users && Fails(env, LogJoin, 0)
    case GroupCreated(id, name, userIds, cached, profiles) =>
      AreProfiles(st.users, userIds, cached, profiles) && GROUP_MIN_USERS <= |userIds| == |profiles| <= GROUP_MAX_USERS
      && id !in st.channels && GroupLogFails(profiles, env)
    case Added(userId, id) => userId in st.users && id in st.channels && JoinLogFails(st, userId, id, env)
    case Taken(userId, remover, id) =>
      id in st.channels && Removable(st, userId, remover, id, env) && Fails(env, LogLeave, 0)
    case RolesChanged(_, _, _, _) => false
    case SchemeRolesChanged(_, _, _, _, _, _) => false
  }

  lemma SaveUnloggedIff(st: State, key: Key, member: Member, env: Env, round: nat)
    ensures Unlogged(SaveAndLog(st, key, member, env, round)) <==>
              key !in st.rows && !Fails(env, SaveMember, round)
              && (Fails(env, LogJoin, round) || JoinedAt(Stays(st, key), env.now))
  {
  }

  /** Adding reports a failure of the history exactly in this case. */
  lemma WhyUnlogged(st: State, userId: string, channelId: string, env: Env)
    requires userId in st.users && channelId in st.channels
    ensures Unlogged(AddUser(st, userId, channelId, env)) <==> JoinLogFails(st, userId, channelId, env)
  {
  }

  lemma RemoveUnloggedIff(st: State, userId: string, removerId: string, channelId: string, env: Env)
    requires channelId in st.channels
    ensures Unlogged(RemoveUser(st, userId, removerId, channelId, env)) <==>
              Removable(st, userId, removerId, channelId, env) && Fails(env, LogLeave, 0)
  {
    var key := Key(channelId, userId);
    var logged := st.(rows := st.rows - {key}, history := st.history[key := Closed(Stays(st, key), env.now)]);
    LeavingTeamEffects(logged, userId, st.channels[channelId].teamId, env);
  }

  lemma GroupLogFailsSnoc(ids: seq<string>, last: string, env: Env)
    ensures GroupLogFails(ids + [last], env) <==>
              GroupLogFails(ids, env) || (Fails(env, LogJoin, |ids|) && Distinct(ids + [last]))
  {
    assert (ids + [last])[..|ids| + 1] == ids + [last];
    if env.fault.Some? && env.fault.value.round < |ids| {
      assert (ids + [last])[..env.fault.value.round + 1] == ids[..env.fault.value.round + 1];
    }
  }

  lemma {:induction false} JoinAllUnloggedIff(st: State, channelId: string, userIds: seq<string>, env: Env)
    requires AllKnown(st.users, userIds)
    requires forall k :: k in st.rows || k in st.history ==> k.channelId != channelId
    ensures Unlogged(JoinAll(st, channelId, userIds, env)) <==> GroupLogFails(userIds, env)
  {
    if |userIds| > 0 {
      var init, last := userIds[..|userIds| - 1], userIds[|userIds| - 1];
      assert AllKnown(st.users, init);
      JoinAllUnloggedIff(st, channelId, init, env);
      JoinAllOnce(st, channelId, init, env);
      var r := JoinAll(st, channelId, init, env);
      assert userIds == init + [last];
      GroupLogFailsSnoc(init, last, env);
      if Fails(env, LogJoin, |init|) && Distinct(userIds) {
        assert forall i :: 0 <= i < |init| ==> init[i] == userIds[i];
        JoinAllWorks(st, channelId, init, env);
      }
      if r.error.None? {
        var key := Key(channelId, last);
        JoinAllAdds(st, channelId, init, env, key);
        SaveUnloggedIff(r.state, key, NewMember(st.users[last], false), env, |init|);
        DistinctSnoc(init, last);
        assert key !in r.state.history ==> Stays(r.state, key) == [];
      }
    }
  }

  lemma CreateUnloggedIff(st: State, channelId: string, channel: Channel, creatorId: string, addMember: bool, env: Env)
    requires Wired(st)
    ensures Unlogged(ChannelCreated(st, channelId, channel, creatorId, addMember, env)) <==>
              channelId !in st.channels && addMember && creatorId in st.users && Fails(env, LogJoin, 0)
  {
    var created := st.(channels := st.channels[channelId := channel]);
    if channelId !in st.channels {
      assert Key(channelId, creatorId) !in st.history;
      assert Stays(created, Key(channelId, creatorId)) == [];
    }
  }

  lemma GroupUnloggedIff(st: State, channelId: string, name: string, userIds: seq<string>, cached: set<string>,
                         profiles: seq<string>, env: Env)
    requires Wired(st) && AreProfiles(st.users, userIds, cached, profiles)
    ensures Unlogged(CreateGroup(st, channelId, name, userIds, cached, profiles, env)) <==>
              LogFails(st, GroupCreated(channelId, name, userIds, cached, profiles), env)
  {
    ProfilesAreKnown(st.users, userIds, cached, profiles);
    var created := st.(channels := st.channels[channelId := Channel("", name, Group, false)]);
    if channelId !in st.channels {
      JoinAllUnloggedIff(created, channelId, profiles, env);
    }
  }

  /** An operation fails to write the history exactly if that could be told before. */
  lemma UnloggedIff(st: State, event: Event, env: Env, known: Catalogue)
    requires Wired(st)
    ensures Unlogged(Step(st, event, env, known)) <==> LogFails(st, event, env)
  {
    match event {
      case Created(id, channel, creator, addMember) => CreateUnloggedIff(st, id, channel, creator, addMember, env);
      case GroupCreated(id, name, userIds, cached, profiles) =>
        if AreProfiles(st.users, userIds, cached, profiles) {
          GroupUnloggedIff(st, id, name, userIds, cached, profiles, env);
        }
      case Added(userId, id) =>
        if userId in st.users && id in st.channels {
          WhyUnlogged(st, userId, id, env);
        }
      case Taken(userId, remover, id) =>
        if id in st.channels {
          RemoveUnloggedIff(st, userId, remover, id, env);
        }
      case RolesChanged(_, _, _, _) => RolesKeepMembers(st, event, env, known);
      case SchemeRolesChanged(_, _, _, _, _, _) => RolesKeepMembers(st, event, env, known);
    }
  }

  /**
   * From a history that agrees with the members, any operation leads to one that agrees exactly if it does
   * not fail to write the history of a member that it saves or deletes.
   */
  lemma StepKeepsHistory(st: State, event: Event, env: Env, known: Catalogue, clock: int)
    requires Wired(st) && Consistent(st, clock) && clock <= env.now
    ensures Consistent(Step(st, event, env, known).state, env.now) <==> !LogFails(st, event, env)
  {
    UnloggedIff(st, event, env, known);
    StepReportsHistory(st, event, env, known, clock);
  }

  lemma {:induction false} JoinAllWired(st: State, channelId: string, userIds: seq<string>, env: Env)
    requires AllKnown(st.users, userIds)
    requires Wired(st) && channelId in st.channels
    ensures Wired(JoinAll(st, channelId, userIds, env).state)
  {
    if |userIds| > 0 {
      assert AllKnown(st.users, userIds[..|userIds| - 1]);
      JoinAllWired(st, channelId, userIds[..|userIds| - 1], env);
    }
  }

  lemma RemoveWired(st: State, userId: string, removerId: string, channelId: string, env: Env)
    requires Wired(st) && channelId in st.channels
    ensures Wired(RemoveUser(st, userId, removerId, channelId, env).state)
  {
    RemoveEffects(st, userId, removerId, channelId, env);
    var key := Key(channelId, userId);
    var logged := st.(rows := st.rows - {key}, history := st.history[key := Closed(Stays(st, key), env.now)]);
    LeavingTeamEffects(logged, userId, st.channels[channelId].teamId, env);
  }

  lemma StepKeepsWired(st: State, event: Event, env: Env, known: Catalogue)
    requires Wired(st)
    ensures Wired(Step(st, event, env, known).state)
  {
    match event {
      case GroupCreated(id, name, userIds, cached, profiles) =>
        if AreProfiles(st.users, userIds, cached, profiles) {
          ProfilesAreKnown(st.users, userIds, cached, profiles);
          JoinAllWired(st.(channels := st.channels[id := Channel("", name, Group, false)]), id, profiles, env);
        }
      case Added(userId, id) =>
        if userId in st.users && id in st.channels {
          AddWired(st, userId, id, env);
        }
      case Taken(userId, remover, id) =>
        if id in st.channels {
          RemoveWired(st, userId, remover, id, env);
        }
      case Created(id, channel, creator, _) =>
        CreateWired(st, id, channel, creator, event.addMember, env);
      case RolesChanged(_, _, _, _) => RolesWired(st, event, env, known);
      case SchemeRolesChanged(_, _, _, _, _, _) => RolesWired(st, event, env, known);
    }
  }

  lemma SaveWired(st: State, key: Key, member: Member, env: Env, round: nat)
    requires Wired(st) && key.channelId in st.channels
    ensures Wired(SaveAndLog(st, key, member, env, round).state)
  {
  }

  lemma AddWired(st: State, userId: string, channelId: string, env: Env)
    requires Wired(st) && userId in st.users && channelId in st.channels
    ensures Wired(AddUser(st, userId, channelId, env).state)
  {
    var user := st.users[userId];
    AddCases(st, userId, channelId, env);
    SaveWired(st, Key(channelId, userId), NewMember(user, !user.guest && env.inAdminGroups), env, 0);
  }

  lemma CreateWired(st: State, channelId: string, channel: Channel, creatorId: string, addMember: bool, env: Env)
    requires Wired(st)
    ensures Wired(ChannelCreated(st, channelId, channel, creatorId, addMember, env).state)
  {
    if creatorId in st.users {
      var created := st.(channels := st.channels[channelId := channel]);
      SaveWired(created, Key(channelId, creatorId), NewMember(st.users[creatorId], true), env, 0);
    }
  }

  lemma RolesWired(st: State, event: Event, env: Env, known: Catalogue)
    requires Wired(st) && (event.RolesChanged? || event.SchemeRolesChanged?)
    ensures Wired(Step(st, event, env, known).state)
  {
    RolesKeepMembers(st, event, env, known);
    var after := Step(st, event, env, known).state;
    forall key | key in after.rows ensures key.channelId in after.channels {
      assert key in after.rows.Keys;
    }
  }

  /** No operation of the run is bound to fail to write the history when it is called. */
  predicate LogsWork(st: State, events: seq<(Event, Env)>, known: Catalogue) {
    forall i :: 0 <= i < |events| ==> !LogFails(Run(st, events[..i], known), events[i].0, events[i].1)
  }

  /** Over any such run of creating, adding, removing and role updates, members are exactly those whose last
      stay is open, and joins and leaves alternate. */
  lemma {:induction false} RunKeepsHistory(st: State, events: seq<(Event, Env)>, known: Catalogue, clock: int)
    requires Wired(st) && Consistent(st, clock) && Timely(events, clock) && LogsWork(st, events, known)
    ensures Wired(Run(st, events, known)) && Consistent(Run(st, events, known), TimeAfter(events, clock))
  {
    if |events| > 0 {
      var init, last := events[..|events| - 1], events[|events| - 1];
      assert forall i :: 0 <= i < |init| ==> init[..i] == events[..i];
      RunKeepsHistory(st, init, known, clock);
      assert !LogFails(Run(st, init, known), events[|events| - 1].0, events[|events| - 1].1);
      assert TimeAfter(init, clock) <= last.1.now;
      StepKeepsHistory(Run(st, init, known), last.0, last.1, known, TimeAfter(init, clock));
      StepKeepsWired(Run(st, init, known), last.0, last.1, known);
    }
  }

  /** Does the history agree with the members after every operation of the run? */
  ghost predicate AgreesThroughout(st: State, events: seq<(Event, Env)>, known: Catalogue, clock: int) {
    forall n :: 0 <= n <= |events| ==> Consistent(Run(st, events[..n], known), TimeAfter(events[..n], clock))
  }

  lemma LogsWorkIfAgrees(st: State, events: seq<(Event, Env)>, known: Catalogue, clock: int, i: nat)
    requires Wired(st) && Timely(events, clock) && i < |events|
    requires Consistent(Run(st, events[..i], known), TimeAfter(events[..i], clock))
    requires Consistent(Run(st, events[..i + 1], known), TimeAfter(events[..i + 1], clock))
    ensures !LogFails(Run(st, events[..i], known), events[i].0, events[i].1)
  {
    RunKeepsWired(st, events[..i], known);
    var before, next := events[..i], events[..i + 1];
    assert next[..i] == before && next[i] == events[i];
    StepKeepsHistory(Run(st, before, known), events[i].0, events[i].1, known, TimeAfter(before, clock));
  }

  /** It does exactly over the runs in which no operation is bound to fail to write it. */
  lemma HistoryAgreesThroughoutIff(st: State, events: seq<(Event, Env)>, known: Catalogue, clock: int)
    requires Wired(st) && Consistent(st, clock) && Timely(events, clock)
    ensures AgreesThroughout(st, events, known, clock) <==> LogsWork(st, events, known)
  {
    if LogsWork(st, events, known) {
      forall n | 0 <= n <= |events| ensures Consistent(Run(st, events[..n], known), TimeAfter(events[..n], clock)) {
        PrefixRuns(st, events, known, clock, n);
        RunKeepsHistory(st, events[..n], known, clock);
      }
    } else {
      var i :| 0 <= i < |events| && LogFails(Run(st, events[..i], known), events[i].0, events[i].1);
      if AgreesThroughout(st, events, known, clock) {
        LogsWorkIfAgrees(st, events, known, clock, i);
      }
    }
  }

  lemma PrefixRuns(st: State, events: seq<(Event, Env)>, known: Catalogue, clock: int, n: nat)
    requires n <= |events| && Timely(events, clock) && LogsWork(st, events, known)
    ensures Timely(events[..n], clock) && LogsWork(st, events[..n], known)
  {
    assert forall i :: 0 <= i < n ==> events[..n][..i] == events[..i];
  }

  lemma {:induction false} RunKeepsWired(st: State, events: seq<(Event, Env)>, known: Catalogue)
    requires Wired(st)
    ensures Wired(Run(st, events, known))
  {
    if |events| > 0 {
      var init, last := events[..|events| - 1], events[|events| - 1];
      RunKeepsWired(st, init, known);
      StepKeepsWired(Run(st, init, known), last.0, last.1, known);
    }
  }

  predicate FaultFree(events: seq<(Event, Env)>) {
    forall i :: 0 <= i < |events| ==> events[i].1.fault.None?
  }

  /** Does the operation add a user who joined the channel within this very millisecond? */
  predicate RejoinsAtOnce(st: State, event: Event, env: Env) {
    event.Added? && JoinedAt(Stays(st, Key(event.channelId, event.userId)), env.now)
  }

  /** Over any run without store failures that adds nobody twice within a millisecond, members are exactly
      those whose last stay is open, and joins and leaves alternate. */
  lemma FaultFreeRunKeepsHistory(st: State, events: seq<(Event, Env)>, known: Catalogue, clock: int)
    requires Wired(st) && Consistent(st, clock) && Timely(events, clock) && FaultFree(events)
    requires forall i :: 0 <= i < |events| ==> !RejoinsAtOnce(Run(st, events[..i], known), events[i].0, events[i].1)
    ensures Consistent(Run(st, events, known), TimeAfter(events, clock))
  {
    forall i | 0 <= i < |events| ensures !LogFails(Run(st, events[..i], known), events[i].0, events[i].1) {
      assert events[i].1.fault.None?;
      assert !RejoinsAtOnce(Run(st, events[..i], known), events[i].0, events[i].1);
    }
    RunKeepsHistory(st, events, known, clock);
  }

  lemma NoLogFailsLater(st: State, event: Event, env: Env, clock: int)
    requires Consistent(st, clock) && clock < env.now && env.fault.None?
    ensures !LogFails(st, event, env)
  {
    if event.Added? {
      var key := Key(event.channelId, event.userId);
      var stays := Stays(st, key);
      assert Tidy(stays, key in st.rows, clock);
      assert forall i :: 0 <= i < |stays| ==> TimesOk(stays[i], clock);
    }
  }

  /** So whenever the clock moves on between operations. */
  lemma {:induction false} StrictClockKeepsHistory(st: State, events: seq<(Event, Env)>, known: Catalogue, clock: int)
    requires Wired(st) && Consistent(st, clock) && FaultFree(events)
    requires forall i :: 0 <= i < |events| ==> TimeAfter(events[..i], clock) < events[i].1.now
    ensures Wired(Run(st, events, known)) && Consistent(Run(st, events, known), TimeAfter(events, clock))
  {
    if |events| > 0 {
      var init, last := events[..|events| - 1], events[|events| - 1];
      assert forall i :: 0 <= i < |init| ==> init[..i] == events[..i] && init[i] == events[i];
      StrictClockKeepsHistory(st, init, known, clock);
      var before, time := Run(st, init, known), TimeAfter(init, clock);
      assert last.1.fault.None? && time < last.1.now;
      NoLogFailsLater(before, last.0, last.1, time);
      StepKeepsHistory(before, last.0, last.1, known, time);
      StepKeepsWired(before, last.0, last.1, known);
    }
  }

  /** Joined and left at 7, a user added again at 7 becomes a member with a closed history, without
      any store failure. */
  lemma RejoiningAtOnce()
    ensures var key := Key("c", "u");
            var st := State(map["u" := User(false, false)], map["c" := Channel("t", "c", Open, false)],
                            map[TeamKey("t", "u") := 0], map[], map[key := [Stay(7, Some(7))]]);
            var r := AddUser(st, "u", "c", Env(7, None, false, false));
            && Wired(st) && Consistent(st, 7)
            && r.error == Some(Error.StoreFailed(LogJoin)) && key in r.state.rows && r.state.history == st.history
            && !Consistent(r.state, 7)
  {
    var key := Key("c", "u");
    var st := State(map["u" := User(false, false)], map["c" := Channel("t", "c", Open, false)],
                    map[TeamKey("t", "u") := 0], map[], map[key := [Stay(7, Some(7))]]);
    assert Stays(st, key)[0].joinTime == 7;
    var r := AddUser(st, "u", "c", Env(7, None, false, false));
    assert JoinedAt(Stays(st, key), 7);
    forall other ensures Tidy(Stays(st, other), other in st.rows, 7) {
    }
    assert !Tidy(Stays(r.state, key), key in r.state.rows, 7);
  }

  // ---------- guests and their teams ----------

  /** In the team exactly while having a channel there. */
  predicate KeepsPlace(st: State, userId: string, teamId: string) {
    InTeam(st, userId, teamId) <==> HasChannelIn(st, userId, teamId)
  }

  lemma AddKeepsPlace(st: State, addedId: string, channelId: string, env: Env, userId: string, teamId: string)
    requires addedId in st.users && channelId in st.channels
    requires KeepsPlace(st, userId, teamId)
    ensures KeepsPlace(AddUser(st, addedId, channelId, env).state, userId, teamId)
  {
    var after := AddUser(st, addedId, channelId, env).state;
    AddCases(st, addedId, channelId, env);
    if HasChannelIn(st, userId, teamId) {
      var c :| c in st.channels && st.channels[c].teamId == teamId && Key(c, userId) in st.rows;
      assert Key(c, userId) in after.rows;
    }
    if HasChannelIn(after, userId, teamId) {
      var c :| c in after.channels && after.channels[c].teamId == teamId && Key(c, userId) in after.rows;
      if Key(c, userId) !in st.rows {
        assert InTeam(st, userId, teamId);
      } else {
        assert HasChannelIn(st, userId, teamId);
      }
    }
  }

  /** What a removal does once the member is gone works. */
  predicate FollowUpsWork(env: Env) {
    && !Fails(env, LogLeave, 0) && !Fails(env, GetMembersForUser, 0) && !Fails(env, GetTeamMember, 0)
    && !Fails(env, GetUserAgain, 0) && !Fails(env, UpdateTeamMember, 0)
  }

  /** The state without one member. */
  function Without(st: State, key: Key): State {
    st.(rows := st.rows - {key})
  }

  lemma SameChannels(st: State, st': State, userId: string, teamId: string)
    requires st'.channels == st.channels && st'.rows == st.rows
    ensures HasChannelIn(st', userId, teamId) <==> HasChannelIn(st, userId, teamId)
  {
  }

  /** Removing a guest takes away the team exactly if no channel is left that counts and nothing fails. */
  lemma GuestRemoval(st: State, userId: string, removerId: string, channelId: string, env: Env)
    requires channelId in st.channels && userId in st.users && st.users[userId].guest
    requires RemoveUser(st, userId, removerId, channelId, env).state.rows != st.rows
    requires TeamKey(st.channels[channelId].teamId, userId) in st.teams
    ensures var after := RemoveUser(st, userId, removerId, channelId, env).state;
            var teamId, left := st.channels[channelId].teamId, Without(st, Key(channelId, userId));
            after.channels == st.channels && after.rows == left.rows
            && after.teams ==
                 if !HasChannelIn(left, userId, teamId) && !HasChannelIn(left, userId, "") && FollowUpsWork(env)
                 then st.teams[TeamKey(teamId, userId) := env.now] else st.teams
  {
    var key := Key(channelId, userId);
    var logged := Without(st, key).(history := st.history[key := Closed(Stays(st, key), env.now)]);
    SameChannels(Without(st, key), logged, userId, st.channels[channelId].teamId);
    SameChannels(Without(st, key), logged, userId, "");
  }

  lemma ChannelsElsewhere(st: State, channelId: string, removedId: string, userId: string, teamId: string)
    requires channelId in st.channels
    requires removedId != userId || st.channels[channelId].teamId != teamId
    ensures HasChannelIn(Without(st, Key(channelId, removedId)), userId, teamId) <==> HasChannelIn(st, userId, teamId)
  {
    if HasChannelIn(st, userId, teamId) {
      var c :| c in st.channels && st.channels[c].teamId == teamId && Key(c, userId) in st.rows;
      assert Key(c, userId) in st.rows - {Key(channelId, removedId)};
    }
  }

  /**
   * A guest in a team exactly while having a channel there stays so through the guest's removal from a
   * channel of the team exactly if the removal takes nothing out, or a channel of the team is left, or the
   * guest has no channel without a team and the team is left without a failure.
   */
  lemma RemovalKeepsPlace(st: State, userId: string, removerId: string, channelId: string, env: Env)
    requires channelId in st.channels && userId in st.users && st.users[userId].guest
    requires KeepsPlace(st, userId, st.channels[channelId].teamId)
    ensures var teamId, left := st.channels[channelId].teamId, Without(st, Key(channelId, userId));
            var r := RemoveUser(st, userId, removerId, channelId, env);
            KeepsPlace(r.state, userId, teamId) <==>
              !Removable(st, userId, removerId, channelId, env) || HasChannelIn(left, userId, teamId)
              || (!HasChannelIn(left, userId, "") && FollowUpsWork(env))
  {
    RemoveOutcome(st, userId, removerId, channelId, env);
    var teamId, key := st.channels[channelId].teamId, Key(channelId, userId);
    var r := RemoveUser(st, userId, removerId, channelId, env);
    RemoveEffects(st, userId, removerId, channelId, env);
    if r.state != st {
      assert key in st.rows;
      assert HasChannelIn(st, userId, teamId);
      GuestRemoval(st, userId, removerId, channelId, env);
      SameChannels(Without(st, key), r.state, userId, teamId);
    }
  }

  /** A guest in one channel of a team and in a group channel stays in the team when taken out of the former. */
  lemma GroupChannelKeepsGuest(now: Millis)
    ensures var st := State(map["u" := User(true, false)],
                            map["c" := Channel("t", "c", Open, false), "g" := Channel("", "g", Group, false)],
                            map[TeamKey("t", "u") := 0],
                            map[Key("c", "u") := Stored(NewMember(User(true, false), false)),
                                Key("g", "u") := Stored(NewMember(User(true, false), false))], map[]);
            var r := RemoveUser(st, "u", "u", "c", Env(now, None, false, false));
            KeepsPlace(st, "u", "t") && r.error.None? && InTeam(r.state, "u", "t") && !HasChannelIn(r.state, "u", "t")
  {
    var guest := Stored(NewMember(User(true, false), false));
    var st := State(map["u" := User(true, false)],
                    map["c" := Channel("t", "c", Open, false), "g" := Channel("", "g", Group, false)],
                    map[TeamKey("t", "u") := 0], map[Key("c", "u") := guest, Key("g", "u") := guest], map[]);
    assert Key("c", "u") in st.rows && HasChannelIn(st, "u", "t") && InTeam(st, "u", "t");
    var r := RemoveUser(st, "u", "u", "c", Env(now, None, false, false));
    assert Key("g", "u") in r.state.rows;
    var left := Without(st, Key("c", "u"));
    assert HasChannelIn(left, "u", "") by {
      assert Key("g", "u") in left.rows && left.channels["g"].teamId == "";
    }
    GuestRemoval(st, "u", "u", "c", Env(now, None, false, false));
  }

  /** Nobody is in the team that channels without a team seem to be in. */
  predicate NoNamelessTeam(st: State, userId: string) {
    TeamKey("", userId) !in st.teams
  }

  /** Any removal keeps the place of a guest without direct or group channels, if the store works. */
  lemma RemovalKeepsEveryPlace(st: State, removedId: string, removerId: string, channelId: string, env: Env,
                               userId: string, teamId: string)
    requires channelId in st.channels && userId in st.users && st.users[userId].guest && env.fault.None?
    requires KeepsPlace(st, userId, teamId) && teamId != "" && NoNamelessTeam(st, userId)
             && !HasChannelIn(st, userId, "")
    ensures var after := RemoveUser(st, removedId, removerId, channelId, env).state;
            KeepsPlace(after, userId, teamId) && NoNamelessTeam(after, userId) && !HasChannelIn(after, userId, "")
  {
    var key := Key(channelId, removedId);
    var after := RemoveUser(st, removedId, removerId, channelId, env).state;
    RemoveEffects(st, removedId, removerId, channelId, env);
    if after != st {
      FewerChannels(st, after, userId, "");
      if removedId == userId && st.channels[channelId].teamId == teamId {
        RemovalKeepsPlace(st, userId, removerId, channelId, env);
        RemoveOutcome(st, userId, removerId, channelId, env);
        SameChannels(Without(st, key), after, userId, "");
      } else {
        ChannelsElsewhere(st, channelId, removedId, userId, teamId);
        SameChannels(Without(st, key), after, userId, teamId);
        OtherTeams(st, removedId, removerId, channelId, env, TeamKey(teamId, userId));
      }
      OtherTeams(st, removedId, removerId, channelId, env, TeamKey("", userId));
    }
  }

  lemma FewerChannels(st: State, st': State, userId: string, teamId: string)
    requires st'.channels == st.channels && st'.rows.Keys <= st.rows.Keys
    ensures HasChannelIn(st', userId, teamId) ==> HasChannelIn(st, userId, teamId)
  {
    if HasChannelIn(st', userId, teamId) {
      var c :| c in st'.channels && st'.channels[c].teamId == teamId && Key(c, userId) in st'.rows;
      assert Key(c, userId) in st.rows.Keys;
    }
  }

  /** A removal touches at most the removed user's place in the channel's team, and creates none. */
  lemma OtherTeams(st: State, userId: string, removerId: string, channelId: string, env: Env, team: TeamKey)
    requires channelId in st.channels
    ensures var after := RemoveUser(st, userId, removerId, channelId, env).state;
            (team in after.teams <==> team in st.teams)
            && (team in st.teams && team != TeamKey(st.channels[channelId].teamId, userId) ==>
                     after.teams[team] == st.teams[team])
  {
  }

  lemma AddKeepsEveryPlace(st: State, addedId: string, channelId: string, env: Env, userId: string, teamId: string)
    requires addedId in st.users && channelId in st.channels
    requires KeepsPlace(st, userId, teamId) && NoNamelessTeam(st, userId) && !HasChannelIn(st, userId, "")
    ensures var after := AddUser(st, addedId, channelId, env).state;
            KeepsPlace(after, userId, teamId) && NoNamelessTeam(after, userId) && !HasChannelIn(after, userId, "")
  {
    AddKeepsPlace(st, addedId, channelId, env, userId, teamId);
    AddKeepsPlace(st, addedId, channelId, env, userId, "");
    AddCases(st, addedId, channelId, env);
  }

  predicate AddsAndRemovals(events: seq<(Event, Env)>) {
    forall i :: 0 <= i < |events| ==> (events[i].0.Added? || events[i].0.Taken?) && events[i].1.fault.None?
  }

  /**
   * Over any run of adds and removals without store failures, a guest without direct or group channels
   * who is in a team exactly while having a channel there stays so.
   */
  lemma {:induction false} GuestsKeepTheirPlace(st: State, events: seq<(Event, Env)>, known: Catalogue,
                                                userId: string, teamId: string)
    requires userId in st.users && st.users[userId].guest && AddsAndRemovals(events)
    requires KeepsPlace(st, userId, teamId) && teamId != "" && NoNamelessTeam(st, userId)
             && !HasChannelIn(st, userId, "")
    ensures var after := Run(st, events, known);
            KeepsPlace(after, userId, teamId) && NoNamelessTeam(after, userId) && !HasChannelIn(after, userId, "")
  {
    if |events| > 0 {
      var init, last := events[..|events| - 1], events[|events| - 1];
      assert last.0.Added? || last.0.Taken?;
      GuestsKeepTheirPlace(st, init, known, userId, teamId);
      RunKeepsUsers(st, init, known);
      var before := Run(st, init, known);
      match last.0 {
        case Added(added, id) =>
          if added in before.users && id in before.channels {
            AddKeepsEveryPlace(before, added, id, last.1, userId, teamId);
          }
        case Taken(removed, remover, id) =>
          if id in before.channels {
            RemovalKeepsEveryPlace(before, removed, remover, id, last.1, userId, teamId);
          }
      }
    }
  }

  // ---------- nobody has a channel in a team without being in it ----------

  predicate CoveredByTeam(st: State, userId: string, teamId: string) {
    HasChannelIn(st, userId, teamId) ==> InTeam(st, userId, teamId)
  }

  lemma AddKeepsCovered(st: State, addedId: string, channelId: string, env: Env, userId: string, teamId: string)
    requires addedId in st.users && channelId in st.channels && CoveredByTeam(st, userId, teamId)
    ensures CoveredByTeam(AddUser(st, addedId, channelId, env).state, userId, teamId)
  {
    var after := AddUser(st, addedId, channelId, env).state;
    AddCases(st, addedId, channelId, env);
    if HasChannelIn(after, userId, teamId) {
      var c :| c in after.channels && after.channels[c].teamId == teamId && Key(c, userId) in after.rows;
      assert Key(c, userId) in st.rows ==> HasChannelIn(st, userId, teamId);
    }
  }

  lemma RemovalKeepsCovered(st: State, removedId: string, removerId: string, channelId: string, env: Env,
                            userId: string, teamId: string)
    requires channelId in st.channels && CoveredByTeam(st, userId, teamId)
    ensures CoveredByTeam(RemoveUser(st, removedId, removerId, channelId, env).state, userId, teamId)
  {
    var after := RemoveUser(st, removedId, removerId, channelId, env).state;
    RemoveEffects(st, removedId, removerId, channelId, env);
    if after != st {
      FewerChannels(st, after, userId, teamId);
      OtherTeams(st, removedId, removerId, channelId, env, TeamKey(teamId, userId));
      if removedId == userId && st.channels[channelId].teamId == teamId && InTeam(st, userId, teamId) {
        OwnRemovalKeepsCovered(st, userId, removerId, channelId, env);
      }
    }
  }

  lemma OwnRemovalKeepsCovered(st: State, userId: string, removerId: string, channelId: string, env: Env)
    requires channelId in st.channels && InTeam(st, userId, st.channels[channelId].teamId)
    requires RemoveUser(st, userId, removerId, channelId, env).state.rows != st.rows
    ensures var after := RemoveUser(st, userId, removerId, channelId, env).state;
            CoveredByTeam(after, userId, st.channels[channelId].teamId)
  {
    if userId in st.users && st.users[userId].guest {
      GuestRemoval(st, userId, removerId, channelId, env);
      var after := RemoveUser(st, userId, removerId, channelId, env).state;
      SameChannels(Without(st, Key(channelId, userId)), after, userId, st.channels[channelId].teamId);
    }
  }

  /**
   * Over any run of adds, removals and role updates, whatever fails, a user, guest or not, who has channels
   * in a team only while being in the team stays so.
   */
  lemma {:induction false} ChannelsStayInTeam(st: State, events: seq<(Event, Env)>, known: Catalogue, userId: string,
                                              teamId: string)
    requires forall i :: 0 <= i < |events| ==> !events[i].0.Created? && !events[i].0.GroupCreated?
    requires CoveredByTeam(st, userId, teamId)
    ensures CoveredByTeam(Run(st, events, known), userId, teamId)
  {
    if |events| > 0 {
      var init, last := events[..|events| - 1], events[|events| - 1];
      assert !last.0.Created? && !last.0.GroupCreated?;
      ChannelsStayInTeam(st, init, known, userId, teamId);
      StepKeepsCovered(Run(st, init, known), last.0, last.1, known, userId, teamId);
    }
  }

  lemma StepKeepsCovered(st: State, event: Event, env: Env, known: Catalogue, userId: string, teamId: string)
    requires !event.Created? && !event.GroupCreated? && CoveredByTeam(st, userId, teamId)
    ensures CoveredByTeam(Step(st, event, env, known).state, userId, teamId)
  {
    match event {
      case Added(added, id) =>
        if added in st.users && id in st.channels {
          AddKeepsCovered(st, added, id, env, userId, teamId);
        }
      case Taken(removed, remover, id) =>
        if id in st.channels {
          RemovalKeepsCovered(st, removed, remover, id, env, userId, teamId);
        }
      case _ =>
        FewerChannels(st, Step(st, event, env, known).state, userId, teamId);
    }
  }

  // ---------- updating roles within a run ----------

  /** An update of roles touches nothing but the member's row, which then reads as its contract says. */
  lemma RolesChangeRow(st: State, event: Event, env: Env, known: Catalogue)
    requires event.SchemeRolesChanged? || (event.RolesChanged? && DefaultsManaged(known))
    ensures var after := Step(st, event, env, known).state;
            && after == st.(rows := after.rows)
            && (forall other :: other != event.key ==>
                  (other in after.rows <==> other in st.rows) &&
                  (other in st.rows ==> after.rows[other] == st.rows[other]))
            && (event.SchemeRolesChanged? && event.key in st.rows && !(event.guest && event.user) &&
                !event.write.WriteFailed? ==>
                  event.key in after.rows &&
                  Read(after.rows[event.key]) ==
                    Member(Read(st.rows[event.key]).explicit, event.guest, event.user, event.admin))
            && (event.RolesChanged? && event.key in st.rows && event.scheme.Some? && !event.write.WriteFailed? &&
                UpdatedRoles(Read(st.rows[event.key]), event.tokens, known, event.scheme.value).Ok? ==>
                  event.key in after.rows &&
                  Read(after.rows[event.key]) ==
                    UpdatedRoles(Read(st.rows[event.key]), event.tokens, known, event.scheme.value).value)
  {
    match event {
      case RolesChanged(key, tokens, scheme, write) =>
        RolesUpdateWrites(st.rows, key, tokens, known, scheme, write);
        if key in st.rows && scheme.Some? {
          RolesOutcome(Read(st.rows[key]), tokens, known, scheme.value);
        }
      case SchemeRolesChanged(key, guest, user, admin, migrated, write) =>
        SchemeRolesUpdateWrites(st.rows, key, guest, user, admin, migrated, write);
    }
  }

  // ---------- what no run takes away ----------

  lemma {:induction false} JoinAllOnlyAdds(st: State, channelId: string, userIds: seq<string>, env: Env, key: Key)
    requires AllKnown(st.users, userIds) && key in st.rows
    ensures key in JoinAll(st, channelId, userIds, env).state.rows
  {
    if |userIds| > 0 {
      assert AllKnown(st.users, userIds[..|userIds| - 1]);
      JoinAllOnlyAdds(st, channelId, userIds[..|userIds| - 1], env, key);
    }
  }

  lemma StepKeepsUsers(st: State, event: Event, env: Env, known: Catalogue)
    ensures Step(st, event, env, known).state.users == st.users
  {
  }

  lemma StepKeepsChannels(st: State, event: Event, env: Env, known: Catalogue, id: string)
    requires id in st.channels
    ensures var after := Step(st, event, env, known).state.channels;
            id in after && after[id] == st.channels[id]
  {
  }

  lemma {:induction false} RunKeepsUsers(st: State, events: seq<(Event, Env)>, known: Catalogue)
    ensures Run(st, events, known).users == st.users
  {
    if |events| > 0 {
      var init, last := events[..|events| - 1], events[|events| - 1];
      RunKeepsUsers(st, init, known);
      StepKeepsUsers(Run(st, init, known), last.0, last.1, known);
    }
  }

  /** Only a removal of this very member takes a member away, and not from the default channel unless a guest. */
  lemma StepTakesAway(st: State, event: Event, env: Env, known: Catalogue, key: Key)
    requires key in st.rows && key.channelId in st.channels && key !in Step(st, event, env, known).state.rows
    ensures event.Taken? && Key(event.channelId, event.userId) == key && key.userId in st.users
    ensures st.channels[key.channelId].name == DEFAULT_CHANNEL ==> st.users[key.userId].guest
  {
    match event {
      case GroupCreated(id, name, userIds, cached, profiles) =>
        if AreProfiles(st.users, userIds, cached, profiles) {
          ProfilesAreKnown(st.users, userIds, cached, profiles);
          JoinAllOnlyAdds(st.(channels := st.channels[id := Channel("", name, Group, false)]), id, profiles, env, key);
        }
      case Added(userId, id) =>
        if userId in st.users && id in st.channels {
          AddCases(st, userId, id, env);
        }
      case Taken(userId, remover, id) =>
        if id in st.channels {
          RemoveEffects(st, userId, remover, id, env);
        }
      case Created(_, _, _, _) =>
      case RolesChanged(_, _, _, _) =>
      case SchemeRolesChanged(_, _, _, _, _, _) =>
    }
  }

  /** Whatever happens, and whatever fails, nobody but a guest leaves the default channel. */
  lemma {:induction false} DefaultChannelIsKept(st: State, events: seq<(Event, Env)>, known: Catalogue, key: Key)
    requires key in st.rows && key.channelId in st.channels && st.channels[key.channelId].name == "town-square"
    requires key.userId in st.users && !st.users[key.userId].guest
    ensures var after := Run(st, events, known);
            key in after.rows && key.channelId in after.channels
                && after.channels[key.channelId] == st.channels[key.channelId]
  {
    if |events| > 0 {
      var init, last := events[..|events| - 1], events[|events| - 1];
      DefaultChannelIsKept(st, init, known, key);
      RunKeepsUsers(st, init, known);
      var before := Run(st, init, known);
      StepKeepsChannels(before, last.0, last.1, known, key.channelId);
      if key !in Step(before, last.0, last.1, known).state.rows {
        StepTakesAway(before, last.0, last.1, known, key);
      }
    }
  }

  // ---------- roles over runs ----------

  lemma SaveKeepsSound(st: State, key: Key, user: User, admin: bool, env: Env, round: nat, known: Catalogue)
    requires TableSound(st.rows, known)
    ensures TableSound(SaveAndLog(st, key, NewMember(user, admin), env, round).state.rows, known)
  {
    NewMemberIsSound(user, admin, known);
    PutKeepsSound(st.rows, key, Stored(NewMember(user, admin)), known);
    SaveEffects(st, key, NewMember(user, admin), env, round);
  }

  lemma NewMemberIsSound(user: User, admin: bool, known: Catalogue)
    ensures Sound(Read(Stored(NewMember(user, admin))), known)
  {
    ReadingUndoesStoring(NewMember(user, admin));
  }

  lemma {:induction false} JoinAllSound(st: State, channelId: string, userIds: seq<string>, env: Env, known: Catalogue)
    requires AllKnown(st.users, userIds) && TableSound(st.rows, known)
    ensures TableSound(JoinAll(st, channelId, userIds, env).state.rows, known)
  {
    if |userIds| > 0 {
      var init, last := userIds[..|userIds| - 1], userIds[|userIds| - 1];
      assert AllKnown(st.users, init);
      JoinAllSound(st, channelId, init, env, known);
      SaveKeepsSound(JoinAll(st, channelId, init, env).state, Key(channelId, last), st.users[last], false, env,
              |init|, known);
    }
  }

  lemma StepStaysSound(st: State, event: Event, env: Env, known: Catalogue)
    requires TableSound(st.rows, known) && DefaultsManaged(known)
    ensures TableSound(Step(st, event, env, known).state.rows, known)
  {
    match event {
      case Created(id, channel, creator, _) =>
        if creator in st.users {
          SaveKeepsSound(st.(channels := st.channels[id := channel]), Key(id, creator), st.users[creator], true, env,
                  0, known);
        }
      case GroupCreated(id, name, userIds, cached, profiles) =>
        if AreProfiles(st.users, userIds, cached, profiles) {
          ProfilesAreKnown(st.users, userIds, cached, profiles);
          JoinAllSound(st.(channels := st.channels[id := Channel("", name, Group, false)]), id, profiles, env, known);
        }
      case Added(userId, id) =>
        if userId in st.users && id in st.channels {
          AddCases(st, userId, id, env);
          var user := st.users[userId];
          SaveKeepsSound(st, Key(id, userId), user, !user.guest && env.inAdminGroups, env, 0, known);
        }
      case Taken(userId, remover, id) =>
        if id in st.channels {
          RemoveEffects(st, userId, remover, id, env);
        }
      case RolesChanged(key, tokens, scheme, write) =>
        RolesUpdateKeepsSound(st.rows, key, tokens, known, scheme, write);
      case SchemeRolesChanged(key, guest, user, admin, migrated, write) =>
        SchemeRolesUpdateKeepsSound(st.rows, key, guest, user, admin, migrated, write, known);
    }
  }

  /** Over any run, nobody is guest and user of a channel at once, and no explicit role is managed by a scheme. */
  lemma {:induction false} RunStaysSound(st: State, events: seq<(Event, Env)>, known: Catalogue)
    requires TableSound(st.rows, known) && DefaultsManaged(known)
    ensures TableSound(Run(st, events, known).rows, known)
  {
    if |events| > 0 {
      var init, last := events[..|events| - 1], events[|events| - 1];
      RunStaysSound(st, init, known);
      StepStaysSound(Run(st, init, known), last.0, last.1, known);
    }
  }

  // ---------- the operations, step by step ----------

  class App {
    const users: map<string, User>
    var channels: map<string, Channel>
    var teams: map<TeamKey, nat>
    var rows: map<Key, Row>
    var history: map<Key, seq<Stay>>

    ghost function Current(): State
      reads this
    {
      State(users, channels, teams, rows, history)
    }

    constructor (st: State)
      ensures Current() == st
    {
      users, channels, teams, rows, history := st.users, st.channels, st.teams, st.rows, st.history;
    }

    method SaveAndLogMember(key: Key, member: Member, env: Env, round: nat) returns (error: Option<Error>)
      modifies this`rows, this`history
      ensures Outcome(Current(), error) == SaveAndLog(old(Current()), key, member, env, round)
    {
      if Fails(env, SaveMember, round) || key in rows {
        return Some(Error.StoreFailed(SaveMember));
      }
      rows := rows[key := Stored(member)];
      var stays := if key in history then history[key] else [];
      if Fails(env, LogJoin, round) || JoinedAt(stays, env.now) {
        return Some(Error.StoreFailed(LogJoin));
      }
      history := history[key := stays + [Stay(env.now, None)]];
      error := None;
    }

    method CreateChannel(channelId: string, channel: Channel, creatorId: string, addMember: bool, env: Env)
      returns (error: Option<Error>)
      modifies this
      ensures Outcome(Current(), error) == ChannelCreated(old(Current()), channelId, channel, creatorId, addMember, env)
    {
      if Fails(env, SaveChannel, 0) || channelId in channels {
        return Some(Error.StoreFailed(SaveChannel));
      }
      channels := channels[channelId := channel];
      if addMember {
        if Fails(env, GetUser, 0) {
          return Some(Error.StoreFailed(GetUser));
        }
        if creatorId !in users {
          return Some(NoUser);
        }
        var user := users[creatorId];
        error := SaveAndLogMember(Key(channelId, creatorId), Member([], user.guest, !user.guest, true), env, 0);
      } else {
        error := None;
      }
    }

    method CreateGroupChannel(channelId: string, name: string, userIds: seq<string>, cached: set<string>,
                              profiles: seq<string>, env: Env)
      returns (error: Option<Error>)
      requires AreProfiles(users, userIds, cached, profiles)
      modifies this
      ensures Outcome(Current(), error) == CreateGroup(old(Current()), channelId, name, userIds, cached, profiles, env)
    {
      if |userIds| > GROUP_MAX_USERS || |userIds| < GROUP_MIN_USERS {
        return Some(BadSize);
      }
      if Fails(env, GetProfiles, 0) {
        return Some(Error.StoreFailed(GetProfiles));
      }
      if |profiles| != |userIds| {
        return Some(BadUsers);
      }
      if Fails(env, SaveChannel, 0) || channelId in channels {
        return Some(Error.StoreFailed(SaveChannel));
      }
      channels := channels[channelId := Channel("", name, Group, false)];
      ProfilesAreKnown(users, userIds, cached, profiles);
      error := JoinEach(channelId, profiles, env);
    }

    /** The loop over the users of a new group. */
    method JoinEach(channelId: string, userIds: seq<string>, env: Env) returns (error: Option<Error>)
      requires AllKnown(users, userIds)
      modifies this`rows, this`history
      ensures Outcome(Current(), error) == JoinAll(old(Current()), channelId, userIds, env)
    {
      for i := 0 to |userIds|
        invariant Outcome(Current(), None) == JoinAll(old(Current()), channelId, userIds[..i], env)
      {
        var user := users[userIds[i]];
        assert userIds[..i + 1][..i] == userIds[..i];
        error := SaveAndLogMember(Key(channelId, userIds[i]), Member([], user.guest, !user.guest, false), env, i);
        if error.Some? {
          JoinAllStops(old(Current()), channelId, userIds, env, i + 1);
          return;
        }
      }
      assert userIds[..|userIds|] == userIds;
      error := None;
    }

    method AddUserToChannel(userId: string, channelId: string, env: Env) returns (error: Option<Error>)
      requires userId in users && channelId in channels
      modifies this`rows, this`history
      ensures Outcome(Current(), error) == AddUser(old(Current()), userId, channelId, env)
    {
      var team := TeamKey(channels[channelId].teamId, userId);
      if Fails(env, GetTeamMember, 0) {
        return Some(Error.StoreFailed(GetTeamMember));
      }
      if team !in teams {
        return Some(NoTeamMember);
      }
      if teams[team] > 0 {
        return Some(LeftTeam);
      }
      error := AddToChannel(userId, channelId, env);
    }

    method AddToChannel(userId: string, channelId: string, env: Env) returns (error: Option<Error>)
      requires userId in users && channelId in channels
      modifies this`rows, this`history
      ensures Outcome(Current(), error) == AddMember(old(Current()), userId, channelId, env)
    {
      var user, channel, key := users[userId], channels[channelId], Key(channelId, userId);
      if channel.kind != Open && channel.kind != Private {
        return Some(WrongKind);
      }
      if Fails(env, GetMember, 0) {
        return Some(Error.StoreFailed(GetMember));
      }
      if key in rows {
        return None;
      }
      if channel.groupConstrained {
        if Fails(env, FilterGroups, 0) {
          return Some(Error.StoreFailed(FilterGroups));
        }
        if !env.inGroups {
          return Some(DeniedByGroups);
        }
      }
      var member := Member([], user.guest, !user.guest, false);
      if !user.guest {
        if Fails(env, AdminGroups, 0) {
          return Some(Error.StoreFailed(AdminGroups));
        }
        member := member.(admin := env.inAdminGroups);
      }
      error := SaveAndLogMember(key, member, env, 0);
    }

    method RemoveUserFromChannel(userId: string, removerId: string, channelId: string, env: Env)
      returns (error: Option<Error>)
      requires channelId in channels
      modifies this`rows, this`history, this`teams
      ensures Outcome(Current(), error) == RemoveUser(old(Current()), userId, removerId, channelId, env)
    {
      var channel, key := channels[channelId], Key(channelId, userId);
      if Fails(env, GetUser, 0) {
        return Some(Error.StoreFailed(GetUser));
      }
      if userId !in users {
        return Some(NoUser);
      }
      var user := users[userId];
      if channel.name == DEFAULT_CHANNEL && !user.guest {
        return Some(FromDefaultChannel);
      }
      if channel.groupConstrained && userId != removerId && !user.bot {
        if Fails(env, FilterGroups, 0) {
          return Some(Error.StoreFailed(FilterGroups));
        }
        if env.inGroups {
          return Some(DeniedByGroups);
        }
      }
      if Fails(env, GetMember, 0) {
        return Some(Error.StoreFailed(GetMember));
      }
      if key !in rows {
        return Some(NoMember);
      }
      if Fails(env, RemoveMember, 0) {
        return Some(Error.StoreFailed(RemoveMember));
      }
      rows := rows - {key};
      if Fails(env, LogLeave, 0) {
        return Some(Error.StoreFailed(LogLeave));
      }
      var stays := if key in history then history[key] else [];
      history := history[key := Closed(stays, env.now)];
      error := None;
      if user.guest {
        error := LeaveTeamWithoutChannels(userId, channel.teamId, env);
      }
    }

    method LeaveTeamWithoutChannels(userId: string, teamId: string, env: Env) returns (error: Option<Error>)
      modifies this`teams
      ensures Outcome(Current(), error) == LeaveTeamIfAlone(old(Current()), userId, teamId, env)
    {
      if Fails(env, GetMembersForUser, 0) {
        return Some(Error.StoreFailed(GetMembersForUser));
      }
      var count := CountMemberships(userId, teamId);
      if count > 0 {
        return None;
      }
      var team := TeamKey(teamId, userId);
      if Fails(env, GetTeamMember, 0) || team !in teams {
        return Some(NoTeamMember);
      }
      if Fails(env, GetUserAgain, 0) {
        return Some(Error.StoreFailed(GetUserAgain));
      }
      if Fails(env, UpdateTeamMember, 0) {
        return Some(Error.StoreFailed(UpdateTeamMember));
      }
      teams := teams[team := env.now];
      if Fails(env, AfterTeamUpdate, 0) {
        return Some(Error.StoreFailed(AfterTeamUpdate));
      }
      error := None;
    }

    /** The user's channels in the team, and those without a team. */
    method CountMemberships(userId: string, teamId: string) returns (count: nat)
      ensures count > 0 <==> HasChannelIn(Current(), userId, teamId) || HasChannelIn(Current(), userId, "")
    {
      var found := set id | id in channels && (channels[id].teamId == teamId || channels[id].teamId == "")
          && Key(id, userId) in rows;
      count := |found|;
      if HasChannelIn(Current(), userId, teamId) || HasChannelIn(Current(), userId, "") {
        var id :| id in channels && (channels[id].teamId == teamId || channels[id].teamId == "")
            && Key(id, userId) in rows;
        assert id in found;
      }
      if count > 0 {
        var id :| id in found;
      }
    }
  }

  lemma {:induction false} JoinAllStops(st: State, channelId: string, userIds: seq<string>, env: Env, k: nat)
    requires AllKnown(st.users, userIds) && k <= |userIds|
    requires JoinAll(st, channelId, userIds[..k], env).error.Some?
    ensures JoinAll(st, channelId, userIds, env) == JoinAll(st, channelId, userIds[..k], env)
  {
    if k == |userIds| {
      assert userIds[..k] == userIds;
    } else {
      assert userIds[..|userIds| - 1][..k] == userIds[..k];
      assert AllKnown(st.users, userIds[..|userIds| - 1]);
      JoinAllStops(st, channelId, userIds[..|userIds| - 1], env, k);
    }
  }
}
