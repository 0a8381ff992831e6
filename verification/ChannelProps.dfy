/** Filling in the channels a header mentions, with one lookup per team instead of one per channel. */
module ChannelProps {
  import opened Wrappers

  const MENTIONS_KEY := "channel_mentions"

  datatype ChannelType = Open | Private | Direct | Group

  /** A stored channel, in the order in which the database returns its rows. */
  datatype Row = Row(teamId: string, name: string, displayName: string, channelType: ChannelType, deleteAt: int)

  datatype Value = Mentions(displayNames: map<string, string>) | Text(text: string)

  /** The properties of a channel; the map may be nil. */
  type Props = Option<map<string, Value>>

  // ---------- the lookup ----------

  /** No team stands for every team. */
  predicate Matches(row: Row, teamId: string) {
    (teamId == "" || row.teamId == teamId) && row.deleteAt == 0
  }

  function GetByNames(store: seq<Row>, teamId: string, names: set<string>): seq<Row> {
    if |store| == 0 then []
    else
      var last := store[|store| - 1];
      GetByNames(store[..|store| - 1], teamId, names) +
      (if Matches(last, teamId) && last.name in names then [last] else [])
  }

  /** The rows found, by name; a later row replaces an earlier one of the same name. */
  function ByName(rows: seq<Row>): map<string, Row> {
    if |rows| == 0 then map[]
    else
      var last := rows[|rows| - 1];
      ByName(rows[..|rows| - 1])[last.name := last]
  }

  /** The last live row with this name. */
  function Latest(store: seq<Row>, teamId: string, name: string): (r: Option<Row>)
    ensures r.Some? ==> r.value.name == name && Matches(r.value, teamId)
  {
    if |store| == 0 then None
    else
      var last := store[|store| - 1];
      if Matches(last, teamId) && last.name == name then Some(last)
      else Latest(store[..|store| - 1], teamId, name)
  }

  /** What a lookup returns for a name does not depend on the other names asked for. */
  lemma {:induction false} LookupIsByName(store: seq<Row>, teamId: string, names: set<string>, name: string)
    ensures name in ByName(GetByNames(store, teamId, names)) <==> name in names && Latest(store, teamId, name).Some?
    ensures name in ByName(GetByNames(store, teamId, names)) ==>
              Latest(store, teamId, name) == Some(ByName(GetByNames(store, teamId, names))[name])
  {
    if |store| > 0 {
      var last := store[|store| - 1];
      var init := GetByNames(store[..|store| - 1], teamId, names);
      LookupIsByName(store[..|store| - 1], teamId, names, name);
      if Matches(last, teamId) && last.name in names {
        assert (init + [last])[..|init|] == init;
      } else {
        assert init + [] == init;
      }
    }
  }

  /** Within a team names are unique, deleted channels included. */
  predicate UniqueNames(store: seq<Row>) {
    forall i, j :: 0 <= i < j < |store| && store[i].teamId == store[j].teamId ==> store[i].name != store[j].name
  }

  lemma {:induction false} LatestIsARow(store: seq<Row>, teamId: string, name: string) returns (i: int)
    requires Latest(store, teamId, name).Some?
    ensures 0 <= i < |store| && store[i] == Latest(store, teamId, name).value
  {
    var last := store[|store| - 1];
    if Matches(last, teamId) && last.name == name {
      i := |store| - 1;
    } else {
      i := LatestIsARow(store[..|store| - 1], teamId, name);
    }
  }

  lemma {:induction false} LatestOfUnique(store: seq<Row>, teamId: string, i: int)
    requires teamId != "" && UniqueNames(store)
    requires 0 <= i < |store| && Matches(store[i], teamId)
    ensures Latest(store, teamId, store[i].name) == Some(store[i])
  {
    if i < |store| - 1 {
      LatestOfUnique(store[..|store| - 1], teamId, i);
    }
  }

  // ---------- what the properties of one channel become ----------

  predicate Mentioned(names: seq<string>, name: string) {
    exists i :: 0 <= i < |names| && names[i] == name
  }

  predicate NamesOpen(store: seq<Row>, teamId: string, name: string) {
    Latest(store, teamId, name).Some? && Latest(store, teamId, name).value.channelType == Open
  }

  /** The open channels among the mentioned names, with their display names. */
  function Found(store: seq<Row>, teamId: string, names: seq<string>): map<string, string> {
    if |names| == 0 then map[]
    else
      var last := names[|names| - 1];
      var found := Found(store, teamId, names[..|names| - 1]);
      if NamesOpen(store, teamId, last) then found[last := Latest(store, teamId, last).value.displayName] else found
  }

  lemma {:induction false} FoundIs(store: seq<Row>, teamId: string, names: seq<string>, name: string)
    ensures name in Found(store, teamId, names) <==> Mentioned(names, name) && NamesOpen(store, teamId, name)
    ensures name in Found(store, teamId, names) ==>
              Found(store, teamId, names)[name] == Latest(store, teamId, name).value.displayName
  {
    if |names| > 0 {
      var init := names[..|names| - 1];
      FoundIs(store, teamId, init, name);
      if Mentioned(names, name) && names[|names| - 1] != name {
        var i :| 0 <= i < |names| && names[i] == name;
        assert init[i] == name;
      }
      if Mentioned(init, name) {
        var i :| 0 <= i < |init| && init[i] == name;
        assert names[i] == name;
      }
    }
  }

  function PropsOf(props: Props): map<string, Value> {
    props.GetOr(map[])
  }

  /** The properties of a channel once its own mentions have been looked up. */
  function WithMentions(props: Props, found: map<string, string>): Props {
    if |found| > 0 then Some(PropsOf(props)[MENTIONS_KEY := Mentions(found)])
    else match props
      case None => None
      case Some(m) => Some(m - {MENTIONS_KEY})
  }

  /** A channel filled in as part of a batch; asked says whether any channel of the batch mentions anything. */
  function InBatch(props: Props, names: seq<string>, asked: bool, store: seq<Row>, teamId: string): Props {
    if asked then WithMentions(props, Found(store, teamId, names)) else props
  }

  /** A channel filled in alone. */
  function Alone(props: Props, names: seq<string>, store: seq<Row>, teamId: string): Props {
    InBatch(props, names, |names| > 0, store, teamId)
  }

  /** The mentions shown for a channel. */
  function Shown(props: Props): Option<Value> {
    if MENTIONS_KEY in PropsOf(props) then Some(PropsOf(props)[MENTIONS_KEY]) else None
  }

  lemma FillingTwiceIsFillingOnce(props: Props, found: map<string, string>)
    ensures WithMentions(WithMentions(props, found), found) == WithMentions(props, found)
  {
    if |found| == 0 && props.Some? {
      assert props.value - {MENTIONS_KEY} - {MENTIONS_KEY} == props.value - {MENTIONS_KEY};
    } else if |found| > 0 {
      var m := PropsOf(props)[MENTIONS_KEY := Mentions(found)];
      assert m[MENTIONS_KEY := Mentions(found)] == m;
    }
  }

  /**
   * A channel gets in a batch what it gets alone, unless it carries mentions from before, mentions
   * nothing now, and some other channel of its team in the batch mentions something.
   */
  lemma BatchEqualsAlone(props: Props, names: seq<string>, asked: bool, store: seq<Row>, teamId: string)
    requires |names| > 0 ==> asked
    ensures InBatch(props, names, asked, store, teamId) == Alone(props, names, store, teamId)
            <==> !(Shown(props).Some? && |names| == 0 && asked)
  {
    if |names| == 0 && asked {
      assert Found(store, teamId, names) == map[];
      if Shown(props).None? && props.Some? {
        assert props.value - {MENTIONS_KEY} == props.value;
      } else if Shown(props).Some? {
        assert MENTIONS_KEY !in props.value - {MENTIONS_KEY};
      }
    }
  }

  /** Alone, a header that stops mentioning channels leaves the old mentions in place. */
  lemma StaleMentionsStay(stale: map<string, string>, store: seq<Row>, teamId: string)
    ensures var props := Some(map["channel_mentions" := Mentions(stale)]);
            Alone(props, [], store, teamId) == props
            && "channel_mentions" !in PropsOf(InBatch(props, [], true, store, teamId))
  {
    assert Found(store, teamId, []) == map[];
  }

  predicate OpenRow(row: Row, teamId: string, name: string) {
    row.teamId == teamId && row.name == name && row.deleteAt == 0 && row.channelType == Open
  }

  predicate StoredOpen(store: seq<Row>, teamId: string, name: string) {
    exists i :: 0 <= i < |store| && OpenRow(store[i], teamId, name)
  }

  lemma OpenWithinTeam(store: seq<Row>, teamId: string, name: string)
    requires teamId != "" && UniqueNames(store)
    ensures NamesOpen(store, teamId, name) <==> StoredOpen(store, teamId, name)
  {
    if NamesOpen(store, teamId, name) {
      var i := LatestIsARow(store, teamId, name);
      assert OpenRow(store[i], teamId, name);
    }
    if StoredOpen(store, teamId, name) {
      var i :| 0 <= i < |store| && OpenRow(store[i], teamId, name);
      LatestOfUnique(store, teamId, i);
    }
  }

  /**
   * In a team, a channel shows exactly the names in its header that are open, live channels of that team, each
   * with its display name, whatever else is in the batch, unless nobody in the batch mentions anything and it keeps
   * old mentions; where anybody does, old mentions are replaced.
   */
  lemma ShowsOwnTeamsOpenChannels(props: Props, names: seq<string>, asked: bool, store: seq<Row>, teamId: string,
                                  name: string, i: int)
    requires teamId != "" && UniqueNames(store) && (Shown(props).None? || asked)
    requires |names| > 0 ==> asked
    ensures var shown := Shown(InBatch(props, names, asked, store, teamId));
            (shown.Some? ==> shown.value.Mentions?)
            && (shown.Some? && name in shown.value.displayNames <==>
                     Mentioned(names, name) && StoredOpen(store, teamId, name))
            && (shown.Some? && name in shown.value.displayNames && 0 <= i < |store| && OpenRow(store[i], teamId, name)
                ==> shown.value.displayNames[name] == store[i].displayName)
  {
    var found := Found(store, teamId, names);
    FoundIs(store, teamId, names, name);
    OpenWithinTeam(store, teamId, name);
    if 0 <= i < |store| && OpenRow(store[i], teamId, name) {
      LatestOfUnique(store, teamId, i);
    }
    if asked {
      assert |found| == 0 ==> name !in found;
      assert |found| > 0 ==> Shown(WithMentions(props, found)) == Some(Mentions(found));
    } else {
      assert !Mentioned(names, name);
    }
  }

  /** Nothing but the mentions changes. */
  lemma OtherPropsKept(props: Props, names: seq<string>, asked: bool, store: seq<Row>, teamId: string, key: string)
    requires key != MENTIONS_KEY
    ensures key in PropsOf(InBatch(props, names, asked, store, teamId)) <==> key in PropsOf(props)
    ensures key in PropsOf(props) ==> PropsOf(InBatch(props, names, asked, store, teamId))[key] == PropsOf(props)[key]
  {
  }

  /** Without a team the lookup reaches every team, and which team wins depends on the order of the rows. */
  lemma TeamlessLookupDependsOnRowOrder(teamA: string, teamB: string, name: string)
    requires teamA != teamB
    ensures var a, b := Row(teamA, name, "A", Open, 0), Row(teamB, name, "B", Open, 0);
            UniqueNames([a, b]) && UniqueNames([b, a])
            && Found([a, b], "", [name]) == map[name := "B"] && Found([b, a], "", [name]) == map[name := "A"]
  {
    var a, b := Row(teamA, name, "A", Open, 0), Row(teamB, name, "B", Open, 0);
    assert Latest([a, b], "", name) == Some(b);
    assert Latest([b, a], "", name) == Some(a);
    assert [name][..0] == [];
  }

  /** A channel without a team shows a name exactly if the last live row of that name, in any team, is open. */
  lemma TeamlessShows(props: Props, names: seq<string>, asked: bool, store: seq<Row>, name: string)
    requires (Shown(props).None? || asked) && (|names| > 0 ==> asked)
    ensures var shown := Shown(InBatch(props, names, asked, store, ""));
            (shown.Some? ==> shown.value.Mentions?)
            && (shown.Some? && name in shown.value.displayNames <==>
                     Mentioned(names, name) && NamesOpen(store, "", name))
  {
    var found := Found(store, "", names);
    FoundIs(store, "", names, name);
    if asked {
      assert |found| == 0 ==> name !in found;
      assert |found| > 0 ==> Shown(WithMentions(props, found)) == Some(Mentions(found));
    } else {
      assert !Mentioned(names, name);
    }
  }

  // ---------- the batch ----------

  class Channel {
    const teamId: string
    const header: string
    var props: Props

    constructor (teamId: string, header: string, props: Props)
      ensures this.teamId == teamId && this.header == header && this.props == props
    {
      this.teamId, this.header, this.props := teamId, header, props;
    }

    method SetMentions(found: map<string, string>)
      modifies this
      ensures props == WithMentions(old(props), found)
    {
      if |found| > 0 {
        if props.None? {
          props := Some(map[]);
        }
        props := Some(props.value[MENTIONS_KEY := Mentions(found)]);
      } else if props.Some? {
        props := Some(props.value - {MENTIONS_KEY});
      }
    }
  }

  /** Does any of these channels mention anything? */
  ghost predicate Asked(channels: seq<Channel>, mentionsOf: string -> seq<string>, teamId: string) {
    exists i :: 0 <= i < |channels| && channels[i].teamId == teamId && |mentionsOf(channels[i].header)| > 0
  }

  ghost predicate OfTeam(batch: seq<Channel>, teamId: string) {
    forall i :: 0 <= i < |batch| ==> batch[i].teamId == teamId
  }

  /** All names the channels of a team mention, and the names each of them mentions. */
  method CollectMentions(batch: seq<Channel>, mentionsOf: string -> seq<string>)
    returns (names: set<string>, mentions: map<Channel, seq<string>>)
    ensures forall i :: 0 <= i < |batch| ==> batch[i] in mentions && mentions[batch[i]] == mentionsOf(batch[i].header)
    ensures forall i, j :: 0 <= i < |batch| && 0 <= j < |mentionsOf(batch[i].header)| ==>
              mentionsOf(batch[i].header)[j] in names
    ensures names != {} <==> exists i :: 0 <= i < |batch| && |mentionsOf(batch[i].header)| > 0
  {
    names, mentions := {}, map[];
    for k := 0 to |batch|
      invariant forall i :: 0 <= i < k ==> batch[i] in mentions
      invariant forall c :: c in mentions ==> mentions[c] == mentionsOf(c.header)
      invariant forall i, j :: 0 <= i < k && 0 <= j < |mentionsOf(batch[i].header)| ==>
                  mentionsOf(batch[i].header)[j] in names
      invariant names != {} <==> exists i :: 0 <= i < k && |mentionsOf(batch[i].header)| > 0
    {
      mentions := mentions[batch[k] := mentionsOf(batch[k].header)];
      var own := mentions[batch[k]];
      ghost var before := names;
      for j := 0 to |own|
        invariant before <= names
        invariant forall l :: 0 <= l < j ==> own[l] in names
        invariant names != {} <==> before != {} || j > 0
      {
        names := names + {own[j]};
      }
    }
  }

  /** The open channels among the names one channel mentions, from the rows found for the whole team. */
  method PickOpen(rows: map<string, Row>, own: seq<string>, ghost store: seq<Row>, ghost teamId: string,
                  ghost names: set<string>)
    returns (found: map<string, string>)
    requires rows == ByName(GetByNames(store, teamId, names))
    requires forall j :: 0 <= j < |own| ==> own[j] in names
    ensures found == Found(store, teamId, own)
  {
    found := map[];
    for j := 0 to |own|
      invariant found == Found(store, teamId, own[..j])
    {
      LookupIsByName(store, teamId, names, own[j]);
      assert own[..j + 1][..j] == own[..j];
      if own[j] in rows && rows[own[j]].channelType == Open {
        found := found[rows[own[j]].name := rows[own[j]].displayName];
      }
    }
    assert own[..|own|] == own;
  }

  /** Each channel of the team gets its own mentions; one listed twice is updated twice. */
  method UpdateAll(batch: seq<Channel>, mentions: map<Channel, seq<string>>, rows: map<string, Row>,
                   ghost store: seq<Row>, ghost teamId: string, ghost names: set<string>)
    requires rows == ByName(GetByNames(store, teamId, names))
    requires forall c :: c in batch ==> c in mentions
    requires forall c, j :: c in batch && 0 <= j < |mentions[c]| ==> mentions[c][j] in names
    modifies batch
    ensures forall c :: c in batch ==> c.props == WithMentions(old(c.props), Found(store, teamId, mentions[c]))
  {
    for k := 0 to |batch|
      invariant forall c :: c in batch[..k] ==> c.props == WithMentions(old(c.props), Found(store, teamId, mentions[c]))
      invariant forall c :: c in batch && c !in batch[..k] ==> c.props == old(c.props)
    {
      var channel := batch[k];
      var found := PickOpen(rows, mentions[channel], store, teamId, names);
      FillingTwiceIsFillingOnce(old(channel.props), found);
      assert batch[..k + 1] == batch[..k] + [channel];
      channel.SetMentions(found);
    }
    assert batch[..|batch|] == batch;
  }

  /** The channels of one team: at most one lookup. */
  method FillInTeam(batch: seq<Channel>, teamId: string, store: seq<Row>, mentionsOf: string -> seq<string>,
                    down: set<string>)
    returns (ok: bool)
    requires OfTeam(batch, teamId)
    modifies batch
    ensures ok <==> !(Asked(batch, mentionsOf, teamId) && teamId in down)
    ensures !ok ==> forall i :: 0 <= i < |batch| ==> batch[i].props == old(batch[i].props)
    ensures ok ==> forall i :: 0 <= i < |batch| ==>
      batch[i].props == InBatch(old(batch[i].props), mentionsOf(batch[i].header), Asked(batch, mentionsOf, teamId),
              store, teamId)
  {
    var names, mentions := CollectMentions(batch, mentionsOf);
    assert names != {} <==> Asked(batch, mentionsOf, teamId);
    if names == {} {
      return true;
    }
    if teamId in down {
      return false;
    }
    var rows := ByName(GetByNames(store, teamId, names));
    UpdateAll(batch, mentions, rows, store, teamId, names);
    ok := true;
  }

  /** The channels of each team, in the order of the list. */
  method GroupByTeam(channels: seq<Channel>) returns (byTeam: map<string, seq<Channel>>)
    ensures forall i :: 0 <= i < |channels| ==>
              channels[i].teamId in byTeam && channels[i] in byTeam[channels[i].teamId]
    ensures forall t :: t in byTeam ==> OfTeam(byTeam[t], t) && forall c :: c in byTeam[t] ==> c in channels
  {
    byTeam := map[];
    for k := 0 to |channels|
      invariant forall i :: 0 <= i < k ==> channels[i].teamId in byTeam && channels[i] in byTeam[channels[i].teamId]
      invariant forall t :: t in byTeam ==> OfTeam(byTeam[t], t) && forall c :: c in byTeam[t] ==> c in channels
    {
      var c := channels[k];
      var sofar := if c.teamId in byTeam then byTeam[c.teamId] else [];
      byTeam := byTeam[c.teamId := sofar + [c]];
    }
  }

  lemma AskedOfGroup(channels: seq<Channel>, byTeam: map<string, seq<Channel>>, mentionsOf: string -> seq<string>,
                     t: string)
    requires forall i :: 0 <= i < |channels| ==>
               channels[i].teamId in byTeam && channels[i] in byTeam[channels[i].teamId]
    requires t in byTeam && OfTeam(byTeam[t], t) && forall c :: c in byTeam[t] ==> c in channels
    ensures Asked(byTeam[t], mentionsOf, t) <==> Asked(channels, mentionsOf, t)
  {
    if Asked(byTeam[t], mentionsOf, t) {
      var i :| 0 <= i < |byTeam[t]| && |mentionsOf(byTeam[t][i].header)| > 0;
      assert byTeam[t][i] in channels;
    }
  }

  /**
   * The whole list, teams taken in any order. The call fails exactly if the lookup of some team that
   * mentions anything fails; then each team has been filled in completely or not at all.
   */
  method FillInChannelsProps(channels: seq<Channel>, store: seq<Row>, mentionsOf: string -> seq<string>,
                             down: set<string>)
    returns (ok: bool, ghost done: set<string>)
    modifies channels
    ensures ok <==> !exists t :: t in down && Asked(channels, mentionsOf, t)
    ensures ok ==> forall i :: 0 <= i < |channels| ==> channels[i].teamId in done
    ensures forall i :: 0 <= i < |channels| ==>
      channels[i].props ==
        if channels[i].teamId in done
        then InBatch(old(channels[i].props), mentionsOf(channels[i].header),
                Asked(channels, mentionsOf, channels[i].teamId), store, channels[i].teamId)
        else old(channels[i].props)
  {
    var byTeam := GroupByTeam(channels);
    var todo := byTeam.Keys;
    done := {};
    while todo != {}
      invariant todo <= byTeam.Keys && done == byTeam.Keys - todo
      invariant forall t :: t in done && t in down ==> !Asked(channels, mentionsOf, t)
      invariant forall i :: 0 <= i < |channels| ==>
        channels[i].props ==
          if channels[i].teamId in done
          then InBatch(old(channels[i].props), mentionsOf(channels[i].header),
                  Asked(channels, mentionsOf, channels[i].teamId), store, channels[i].teamId)
          else old(channels[i].props)
    {
      var t :| t in todo;
      AskedOfGroup(channels, byTeam, mentionsOf, t);
      var group := byTeam[t];
      assert forall i :: 0 <= i < |group| ==> group[i] in channels;
      var fine := FillInTeam(group, t, store, mentionsOf, down);
      if !fine {
        return false, done;
      }
      todo, done := todo - {t}, done + {t};
    }
    ok := true;
  }
}
