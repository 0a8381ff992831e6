/** Moving a channel to another team, and what that does to the history and to the place of its members in the teams. */
module ChannelMoves {
  import opened Lists
  import opened Wrappers
  import opened ChannelRoles
  import opened Membership

  /** Where the store may fail. */
  datatype MoveCall = RemoveDeactivated | ReadMembers | ReadTeamMembers | ReadOldTeam | UpdateChannel

  datatype MoveError = MoveFailed(call: MoveCall) | MembersDoNotMatch

  function Members(rows: map<Key, Row>, channelId: string): set<string> {
    set key | key in rows && key.channelId == channelId :: key.userId
  }

  /** Deactivated users leave the channel, without a word in the history. */
  function Cleaned(st: State, channelId: string, deactivated: set<string>): State {
    st.(rows := map key | key in st.rows && !(key.channelId == channelId && key.userId in deactivated) :: st.rows[key])
  }

  function ActiveIn(st: State, userIds: set<string>, teamId: string): set<string> {
    set u | u in userIds && InTeam(st, u, teamId)
  }

  function Move(st: State, channelId: string, teamId: string, clean: bool, deactivated: set<string>,
                fault: Option<MoveCall>)
    : (State, Option<MoveError>)
    requires channelId in st.channels
  {
    if clean && fault == Some(RemoveDeactivated) then (st, Some(MoveFailed(RemoveDeactivated)))
    else
      var left := if clean then Cleaned(st, channelId, deactivated) else st;
      var members := Members(left.rows, channelId);
      if fault == Some(ReadMembers) then (left, Some(MoveFailed(ReadMembers)))
      else if members != {} && fault == Some(ReadTeamMembers) then (left, Some(MoveFailed(ReadTeamMembers)))
      else if members != {} && |ActiveIn(left, members, teamId)| != |members| then (left, Some(MembersDoNotMatch))
      else if fault == Some(ReadOldTeam) || left.channels[channelId].teamId == ""
          then (left, Some(MoveFailed(ReadOldTeam)))
      else if fault == Some(UpdateChannel) then (left, Some(MoveFailed(UpdateChannel)))
      else (left.(channels := left.channels[channelId := left.channels[channelId].(teamId := teamId)]), None)
  }

  lemma MembersAre(rows: map<Key, Row>, channelId: string, userId: string)
    ensures userId in Members(rows, channelId) <==> Key(channelId, userId) in rows
  {
    if Key(channelId, userId) in rows {
      assert Key(channelId, userId).userId in Members(rows, channelId);
    }
  }

  /** A successful move puts the channel into the new team and changes nothing else of it or of other channels; a
      failed one leaves all channels as they were. Either way users, teams and history stay. */
  lemma MoveDoes(st: State, channelId: string, teamId: string, clean: bool, deactivated: set<string>,
                 fault: Option<MoveCall>)
    requires channelId in st.channels
    ensures var (after, error) := Move(st, channelId, teamId, clean, deactivated, fault);
            && after.users == st.users && after.teams == st.teams && after.history == st.history
            && if error.Some? then after.channels == st.channels
               else
                 var was := st.channels[channelId];
                 after.channels ==
                   st.channels[channelId := Channel(teamId, was.name, was.kind, was.groupConstrained)]
  {
  }

  /** Of the members exactly the deactivated ones of this channel go, if asked for and possible. */
  lemma MoveTakesOut(st: State, channelId: string, teamId: string, clean: bool, deactivated: set<string>,
                     fault: Option<MoveCall>, key: Key)
    requires channelId in st.channels
    ensures var rows := Move(st, channelId, teamId, clean, deactivated, fault).0.rows;
            && (key in rows <==>
                  key in st.rows && !(clean && fault != Some(RemoveDeactivated) &&
                                      key.channelId == channelId && key.userId in deactivated))
            && (key in rows ==> rows[key] == st.rows[key])
  {
    assert Move(st, channelId, teamId, clean, deactivated, fault).0.rows ==
        if clean && fault != Some(RemoveDeactivated) then Cleaned(st, channelId, deactivated).rows else st.rows;
  }

  /** Who is left in the channel once the deactivated members are out. */
  predicate Remains(st: State, channelId: string, clean: bool, deactivated: set<string>, userId: string) {
    Key(channelId, userId) in st.rows && !(clean && userId in deactivated)
  }

  /** How a move ends, the first failure in the order of its calls deciding: the teams are asked only if somebody is
      left, and the members are compared before the old team is read and the channel is written. */
  lemma MoveEndsWith(st: State, channelId: string, teamId: string, clean: bool, deactivated: set<string>,
                     fault: Option<MoveCall>)
    requires channelId in st.channels
    ensures var error := Move(st, channelId, teamId, clean, deactivated, fault).1;
            var someone := exists u :: Remains(st, channelId, clean, deactivated, u);
            var stranger := exists u :: Remains(st, channelId, clean, deactivated, u) && !InTeam(st, u, teamId);
            if (clean && fault == Some(RemoveDeactivated)) || fault == Some(ReadMembers) ||
               (someone && fault == Some(ReadTeamMembers))
            then error == Some(MoveFailed(fault.value))
            else if stranger then error == Some(MembersDoNotMatch)
            else if st.channels[channelId].teamId == "" then error == Some(MoveFailed(ReadOldTeam))
            else if fault == Some(ReadOldTeam) || fault == Some(UpdateChannel)
            then error == Some(MoveFailed(fault.value))
            else error.None?
  {
    var left := if clean then Cleaned(st, channelId, deactivated) else st;
    var members := Members(left.rows, channelId);
    var active := ActiveIn(left, members, teamId);
    forall u ensures u in members <==> Remains(st, channelId, clean, deactivated, u) {
      MembersAre(left.rows, channelId, u);
    }
    AllActiveIff(left, members, teamId);
    if members != {} {
      var u :| u in members;
      assert Remains(st, channelId, clean, deactivated, u);
    }
  }

  lemma AllActiveIff(st: State, members: set<string>, teamId: string)
    ensures |ActiveIn(st, members, teamId)| == |members| <==> forall u :: u in members ==> InTeam(st, u, teamId)
  {
    var active := ActiveIn(st, members, teamId);
    SubsetSize(active, members);
    if |active| == |members| {
      SubsetOfSameSize(active, members);
      forall u | u in members ensures InTeam(st, u, teamId) {
        assert u in active;
      }
    } else {
      assert active != members;
    }
  }

  /** A move that meets no failure succeeds exactly if everybody left in the channel is in the new team. */
  lemma MoveOutcome(st: State, channelId: string, teamId: string, clean: bool, deactivated: set<string>)
    requires channelId in st.channels && st.channels[channelId].teamId != ""
    ensures Move(st, channelId, teamId, clean, deactivated, None).1.None? <==>
              forall u :: Key(channelId, u) in st.rows && !(clean && u in deactivated) ==> InTeam(st, u, teamId)
  {
    MoveEndsWith(st, channelId, teamId, clean, deactivated, None);
    assert forall u :: Remains(st, channelId, clean, deactivated, u) <==>
             Key(channelId, u) in st.rows && !(clean && u in deactivated);
  }

  lemma MoveEffects(st: State, channelId: string, teamId: string, clean: bool, deactivated: set<string>,
                    fault: Option<MoveCall>)
    requires channelId in st.channels
    ensures var after := Move(st, channelId, teamId, clean, deactivated, fault).0;
            after.history == st.history && after.rows.Keys <= st.rows.Keys
  {
  }

  /** Are deactivated members to be taken out? */
  predicate TakesOut(st: State, channelId: string, clean: bool, deactivated: set<string>, fault: Option<MoveCall>) {
    clean && fault != Some(RemoveDeactivated) && exists u :: u in deactivated && Key(channelId, u) in st.rows
  }

  lemma TakesOutIff(st: State, channelId: string, teamId: string, clean: bool, deactivated: set<string>,
                    fault: Option<MoveCall>)
    requires channelId in st.channels
    ensures Move(st, channelId, teamId, clean, deactivated, fault).0.rows.Keys == st.rows.Keys
            <==> !TakesOut(st, channelId, clean, deactivated, fault)
  {
    var after := Move(st, channelId, teamId, clean, deactivated, fault).0;
    if TakesOut(st, channelId, clean, deactivated, fault) {
      var u :| u in deactivated && Key(channelId, u) in st.rows;
      assert Key(channelId, u) in st.rows.Keys && Key(channelId, u) !in after.rows.Keys;
    } else {
      forall key ensures key in after.rows.Keys <==> key in st.rows.Keys {
        assert key == Key(key.channelId, key.userId);
      }
    }
  }

  /** The history still agrees with the members exactly if the move does not take out a deactivated member. */
  lemma MoveKeepsHistory(st: State, channelId: string, teamId: string, clean: bool, deactivated: set<string>,
                         fault: Option<MoveCall>, clock: int)
    requires channelId in st.channels && Consistent(st, clock)
    ensures Consistent(Move(st, channelId, teamId, clean, deactivated, fault).0, clock)
            <==> !TakesOut(st, channelId, clean, deactivated, fault)
  {
    var after := Move(st, channelId, teamId, clean, deactivated, fault).0;
    MoveEffects(st, channelId, teamId, clean, deactivated, fault);
    TakesOutIff(st, channelId, teamId, clean, deactivated, fault);
    if after.rows.Keys == st.rows.Keys {
      SameMembersSameHistory(st, after, clock, clock);
    } else {
      var key :| key in st.rows.Keys && key !in after.rows.Keys;
      assert Tidy(Stays(st, key), true, clock);
      assert Stays(after, key) == Stays(st, key);
      assert !Tidy(Stays(after, key), false, clock);
    }
  }

  /** One deactivated member: moving the channel takes the member out and leaves the stay open. */
  lemma MoveLeavesStayOpen()
    ensures var key := Key("c", "u");
            var st := OneMember();
            var after := Move(st, "c", "t2", true, {"u"}, None);
            && Consistent(st, 7) && after.1.None? && key !in after.0.rows
            && after.0.history[key] == [Stay(7, None)] && !Consistent(after.0, 7)
  {
    var key := Key("c", "u");
    var st := OneMember();
    forall other ensures Tidy(Stays(st, other), other in st.rows, 7) {
    }
    assert key in st.rows && TakesOut(st, "c", true, {"u"}, None);
    MoveKeepsHistory(st, "c", "t2", true, {"u"}, None, 7);
    MoveEffects(st, "c", "t2", true, {"u"}, None);
    MoveOutcome(st, "c", "t2", true, {"u"});
  }

  /** A guest in one channel of a team, and in another team without one. */
  function OneMember(): State {
    State(map["u" := User(true, false)], map["c" := Channel("t1", "c", Open, false)],
          map[TeamKey("t1", "u") := 0, TeamKey("t2", "u") := 0],
          map[Key("c", "u") := Stored(NewMember(User(true, false), false))], map[Key("c", "u") := [Stay(7, None)]])
  }

  /** Moving the only channel of a guest away leaves the guest in the old team without a channel. */
  lemma MoveLeavesGuestBehind()
    ensures var st := OneMember();
            var after := Move(st, "c", "t2", false, {}, None);
            && KeepsPlace(st, "u", "t1") && after.1.None?
            && InTeam(after.0, "u", "t1") && !HasChannelIn(after.0, "u", "t1")
  {
    var st := OneMember();
    assert Key("c", "u") in st.rows && HasChannelIn(st, "u", "t1");
    MoveOutcome(st, "c", "t2", false, {});
    ChannelsLeftBehind(st, "c", "t2", false, {}, "u");
  }

  predicate HasOtherChannelIn(st: State, userId: string, channelId: string, teamId: string) {
    exists id :: id in st.channels && id != channelId && st.channels[id].teamId == teamId && Key(id, userId) in st.rows
  }

  /** After a move between teams, membership of the old team is as before, and only other channels are left there. */
  lemma ChannelsLeftBehind(st: State, channelId: string, teamId: string, clean: bool, deactivated: set<string>,
                           userId: string)
    requires channelId in st.channels && teamId != st.channels[channelId].teamId
    requires Move(st, channelId, teamId, clean, deactivated, None).1.None?
    ensures var after := Move(st, channelId, teamId, clean, deactivated, None).0;
            var oldTeam := st.channels[channelId].teamId;
            (InTeam(after, userId, oldTeam) <==> InTeam(st, userId, oldTeam))
            && (HasChannelIn(after, userId, oldTeam) <==> HasOtherChannelIn(st, userId, channelId, oldTeam))
  {
    var after, oldTeam := Move(st, channelId, teamId, clean, deactivated, None).0, st.channels[channelId].teamId;
    if HasOtherChannelIn(st, userId, channelId, oldTeam) {
      var id :| id in st.channels && id != channelId && st.channels[id].teamId == oldTeam && Key(id, userId) in st.rows;
      assert id in after.channels && Key(id, userId) in after.rows;
    }
  }

  /** A move breaks the place in the old team of exactly those members who have no other channel there. */
  lemma MoveLeavesBehind(st: State, channelId: string, teamId: string, clean: bool, deactivated: set<string>,
                         userId: string)
    requires channelId in st.channels && teamId != st.channels[channelId].teamId
    requires Move(st, channelId, teamId, clean, deactivated, None).1.None?
    requires KeepsPlace(st, userId, st.channels[channelId].teamId)
    ensures KeepsPlace(Move(st, channelId, teamId, clean, deactivated, None).0, userId, st.channels[channelId].teamId)
            <==> !(Key(channelId, userId) in st.rows
                    && !HasOtherChannelIn(st, userId, channelId, st.channels[channelId].teamId))
  {
    var oldTeam := st.channels[channelId].teamId;
    ChannelsLeftBehind(st, channelId, teamId, clean, deactivated, userId);
    assert HasChannelIn(st, userId, oldTeam) <==>
             Key(channelId, userId) in st.rows || HasOtherChannelIn(st, userId, channelId, oldTeam);
  }

  /** The place in the new team is kept. */
  lemma MoveKeepsNewPlace(st: State, channelId: string, teamId: string, clean: bool, deactivated: set<string>,
                          userId: string)
    requires channelId in st.channels && teamId != st.channels[channelId].teamId
    requires Move(st, channelId, teamId, clean, deactivated, None).1.None?
    requires KeepsPlace(st, userId, teamId)
    ensures KeepsPlace(Move(st, channelId, teamId, clean, deactivated, None).0, userId, teamId)
  {
    var after := Move(st, channelId, teamId, clean, deactivated, None).0;
    MoveOutcome(st, channelId, teamId, clean, deactivated);
    if HasChannelIn(st, userId, teamId) {
      var id :| id in st.channels && st.channels[id].teamId == teamId && Key(id, userId) in st.rows;
      assert id in after.channels && Key(id, userId) in after.rows;
    }
    if HasChannelIn(after, userId, teamId) {
      var id :| id in after.channels && after.channels[id].teamId == teamId && Key(id, userId) in after.rows;
      assert id != channelId ==> HasChannelIn(st, userId, teamId);
    }
  }

  /** The move, step by step. */
  method MoveChannel(app: App, channelId: string, teamId: string, clean: bool, deactivated: set<string>,
                     fault: Option<MoveCall>)
    returns (error: Option<MoveError>)
    requires channelId in app.channels
    modifies app`rows, app`channels
    ensures (app.Current(), error) == Move(old(app.Current()), channelId, teamId, clean, deactivated, fault)
  {
    if clean {
      if fault == Some(RemoveDeactivated) {
        return Some(MoveFailed(RemoveDeactivated));
      }
      app.rows := map key | key in app.rows
          && !(key.channelId == channelId && key.userId in deactivated) :: app.rows[key];
    }
    ghost var left := app.Current();
    if fault == Some(ReadMembers) {
      return Some(MoveFailed(ReadMembers));
    }
    var members := Members(app.rows, channelId);
    if members != {} {
      if fault == Some(ReadTeamMembers) {
        return Some(MoveFailed(ReadTeamMembers));
      }
      var active := set u | u in members && TeamKey(teamId, u) in app.teams && app.teams[TeamKey(teamId, u)] == 0;
      assert active == ActiveIn(left, members, teamId);
      if |active| != |members| {
        return Some(MembersDoNotMatch);
      }
    }
    var channel := app.channels[channelId];
    if fault == Some(ReadOldTeam) || channel.teamId == "" {
      return Some(MoveFailed(ReadOldTeam));
    }
    if fault == Some(UpdateChannel) {
      return Some(MoveFailed(UpdateChannel));
    }
    app.channels := app.channels[channelId := channel.(teamId := teamId)];
    error := None;
  }
}
