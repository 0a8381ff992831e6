/** The roles of a channel member: scheme flags, explicit roles, and how they are stored. */
module ChannelRoles {
  import opened Wrappers

  const CHANNEL_GUEST := "channel_guest"
  const CHANNEL_USER := "channel_user"
  const CHANNEL_ADMIN := "channel_admin"

  /** The names of the three roles a scheme gives to the members of a channel. */
  datatype SchemeRoles = SchemeRoles(guest: string, user: string, admin: string)

  /** A member as the application sees it. */
  datatype Member = Member(explicit: seq<string>, guest: bool, user: bool, admin: bool)

  /** A member as it is stored; a row from before the migration has null flags and default roles among its roles. */
  datatype Row = Row(roles: seq<string>, guest: Option<bool>, user: Option<bool>, admin: Option<bool>)

  /** The known roles, and which of them are managed by schemes. */
  type Catalogue = map<string, bool>

  // ---------- tokens ----------

  predicate Names(tokens: seq<string>, name: string) {
    exists i :: 0 <= i < |tokens| && tokens[i] == name
  }

  lemma NamesOfSnoc(tokens: seq<string>, last: string, name: string)
    ensures Names(tokens + [last], name) <==> Names(tokens, name) || last == name
  {
    if Names(tokens, name) {
      var i :| 0 <= i < |tokens| && tokens[i] == name;
      assert (tokens + [last])[i] == name;
    }
    assert (tokens + [last])[|tokens|] == last;
  }

  /** The tokens left after removing some names, in order. */
  function Removed(tokens: seq<string>, names: set<string>): seq<string> {
    if |tokens| == 0 then []
    else
      var last := tokens[|tokens| - 1];
      Removed(tokens[..|tokens| - 1], names) + (if last in names then [] else [last])
  }

  lemma {:induction false} RemovedIs(tokens: seq<string>, names: set<string>, name: string)
    ensures Names(Removed(tokens, names), name) <==> Names(tokens, name) && name !in names
  {
    if |tokens| > 0 {
      var init, last := tokens[..|tokens| - 1], tokens[|tokens| - 1];
      RemovedIs(init, names, name);
      assert tokens == init + [last];
      NamesOfSnoc(init, last, name);
      NamesOfSnoc(Removed(init, names), last, name);
      assert Removed(init, names) + [] == Removed(init, names);
    }
  }

  lemma {:induction false} NothingToRemove(tokens: seq<string>, names: set<string>)
    ensures Removed(tokens, names) == tokens <==> forall name :: name in names ==> !Names(tokens, name)
  {
    if |tokens| > 0 {
      var init, last := tokens[..|tokens| - 1], tokens[|tokens| - 1];
      NothingToRemove(init, names);
      assert tokens == init + [last];
      forall name ensures Names(tokens, name) <==> Names(init, name) || last == name {
        NamesOfSnoc(init, last, name);
      }
      RemovedIsShorter(init, names);
      if Removed(tokens, names) == tokens {
        assert last !in names;
        assert Removed(tokens, names)[..|init|] == init;
      }
    }
  }

  lemma {:induction false} RemovedIsShorter(tokens: seq<string>, names: set<string>)
    ensures |Removed(tokens, names)| <= |tokens|
  {
    if |tokens| > 0 {
      RemovedIsShorter(tokens[..|tokens| - 1], names);
    }
  }

  /** RemoveRoles */
  method RemoveRoles(remove: set<string>, roles: seq<string>) returns (left: seq<string>)
    ensures left == Removed(roles, remove)
  {
    left := [];
    for i := 0 to |roles|
      invariant left == Removed(roles[..i], remove)
    {
      assert roles[..i + 1][..i] == roles[..i];
      if roles[i] !in remove {
        left := left + [roles[i]];
      }
    }
    assert roles[..|roles|] == roles;
  }

  // ---------- storing and reading ----------

  const DEFAULTS := {CHANNEL_GUEST, CHANNEL_USER, CHANNEL_ADMIN}

  function Stored(m: Member): Row {
    Row(m.explicit, Some(m.guest), Some(m.user), Some(m.admin))
  }

  /** Default roles found among the stored roles count as scheme flags and not as explicit roles. */
  function Read(row: Row): Member {
    Member(Removed(row.roles, DEFAULTS),
           row.guest == Some(true) || Names(row.roles, CHANNEL_GUEST),
           row.user == Some(true) || Names(row.roles, CHANNEL_USER),
           row.admin == Some(true) || Names(row.roles, CHANNEL_ADMIN))
  }

  predicate NoDefaults(tokens: seq<string>) {
    !Names(tokens, CHANNEL_GUEST) && !Names(tokens, CHANNEL_USER) && !Names(tokens, CHANNEL_ADMIN)
  }

  /** What is read back is what was stored exactly if no default role is among the explicit ones. */
  lemma ReadingUndoesStoring(m: Member)
    ensures Read(Stored(m)) == m <==> NoDefaults(m.explicit)
  {
    NothingToRemove(m.explicit, DEFAULTS);
    assert forall name :: name in DEFAULTS <==> name == CHANNEL_GUEST || name == CHANNEL_USER || name == CHANNEL_ADMIN;
  }

  /** Whatever was stored, the explicit roles read have no default role among them. */
  lemma ReadHasNoDefaults(row: Row)
    ensures NoDefaults(Read(row).explicit)
  {
    RemovedIs(row.roles, DEFAULTS, CHANNEL_GUEST);
    RemovedIs(row.roles, DEFAULTS, CHANNEL_USER);
    RemovedIs(row.roles, DEFAULTS, CHANNEL_ADMIN);
  }

  function Named(flag: bool, name: string): seq<string> {
    if flag then [name] else []
  }

  function FlagNames(m: Member): seq<string> {
    Named(m.guest, "channel_guest") + (Named(m.user, "channel_user") + Named(m.admin, "channel_admin"))
  }

  /** A member in a row from before the migration: the default roles are among the roles and the flags are null. */
  function OldRow(m: Member): Row {
    Row(m.explicit + FlagNames(m), None, None, None)
  }

  lemma NamedIs(flag: bool, role: string)
    requires role in DEFAULTS
    ensures forall name :: Names(Named(flag, role), name) <==> flag && name == role
    ensures Removed(Named(flag, role), DEFAULTS) == []
  {
    forall name ensures Names([role], name) <==> name == role {
      assert [role][0] == role;
    }
    assert [role][..0] == [];
    assert Removed([role], DEFAULTS) == [];
  }

  lemma FlagNamesAre(m: Member)
    ensures Names(FlagNames(m), CHANNEL_GUEST) <==> m.guest
    ensures Names(FlagNames(m), CHANNEL_USER) <==> m.user
    ensures Names(FlagNames(m), CHANNEL_ADMIN) <==> m.admin
    ensures Removed(FlagNames(m), DEFAULTS) == []
  {
    var guest, user, admin := Named(m.guest, CHANNEL_GUEST), Named(m.user, CHANNEL_USER), Named(m.admin, CHANNEL_ADMIN);
    NamedIs(m.guest, CHANNEL_GUEST);
    NamedIs(m.user, CHANNEL_USER);
    NamedIs(m.admin, CHANNEL_ADMIN);
    NamesConcat(user, admin);
    NamesConcat(guest, user + admin);
    RemovedConcat(user, admin, DEFAULTS);
    RemovedConcat(guest, user + admin, DEFAULTS);
  }

  /** Such a row is read as the same member, and as the row is after the migration. */
  lemma OldRowsAreRead(m: Member)
    requires NoDefaults(m.explicit)
    ensures Read(OldRow(m)) == m == Read(Stored(m))
  {
    var flags := FlagNames(m);
    ReadingUndoesStoring(m);
    FlagNamesAre(m);
    NamesConcat(m.explicit, flags);
    RemovedConcat(m.explicit, flags, DEFAULTS);
    NothingToRemove(m.explicit, DEFAULTS);
    assert m.explicit + [] == m.explicit;
  }

  lemma NamesConcat(a: seq<string>, b: seq<string>)
    ensures forall name :: Names(a + b, name) <==> Names(a, name) || Names(b, name)
  {
    forall name ensures Names(a + b, name) <==> Names(a, name) || Names(b, name) {
      assert Names(a + b, name) <==> name in a + b;
      assert Names(a, name) <==> name in a;
      assert Names(b, name) <==> name in b;
    }
  }

  lemma {:induction false} RemovedConcat(a: seq<string>, b: seq<string>, names: set<string>)
    ensures Removed(a + b, names) == Removed(a, names) + Removed(b, names)
  {
    if b == [] {
      assert a + b == a;
    } else {
      var init, last := b[..|b| - 1], b[|b| - 1];
      RemovedConcat(a, init, names);
      assert (a + b)[..|a + b| - 1] == a + init;
      var kept := if last in names then [] else [last];
      assert Removed(a, names) + Removed(init, names) + kept == Removed(a, names) + (Removed(init, names) + kept);
    }
  }

  // ---------- updating by role names ----------

  datatype RoleError = NotMember | NoScheme | UnknownRole(name: string) | ForeignSchemeRole(name: string)
                     | GuestAndUser | ChangingGuest | StoreFailed

  /** One token: an explicit role, or a flag; of equal names in the scheme, admin comes first, then user. */
  function WithToken(m: Member, token: string, known: Catalogue, scheme: SchemeRoles): Result<Member, RoleError> {
    if token !in known then Err(UnknownRole(token))
    else if !known[token] then Ok(m.(explicit := m.explicit + [token]))
    else if token == scheme.admin then Ok(m.(admin := true))
    else if token == scheme.user then Ok(m.(user := true))
    else if token == scheme.guest then Ok(m.(guest := true))
    else Err(ForeignSchemeRole(token))
  }

  const NO_ROLES := Member([], false, false, false)

  function WithTokens(tokens: seq<string>, known: Catalogue, scheme: SchemeRoles): Result<Member, RoleError> {
    if |tokens| == 0 then Ok(NO_ROLES)
    else
      var init := WithTokens(tokens[..|tokens| - 1], known, scheme);
      if init.Err? then init else WithToken(init.value, tokens[|tokens| - 1], known, scheme)
  }

  function UpdatedRoles(m: Member, tokens: seq<string>, known: Catalogue,
                        scheme: SchemeRoles): Result<Member, RoleError>
  {
    var r := WithTokens(tokens, known, scheme);
    if r.Err? then r
    else if r.value.user && r.value.guest then Err(GuestAndUser)
    else if r.value.guest != m.guest then Err(ChangingGuest)
    else r
  }

  predicate Managed(known: Catalogue, name: string) {
    name in known && known[name]
  }

  predicate Usable(token: string, known: Catalogue, scheme: SchemeRoles) {
    token in known && (known[token] ==> token == scheme.admin || token == scheme.user || token == scheme.guest)
  }

  predicate AllUsable(tokens: seq<string>, known: Catalogue, scheme: SchemeRoles) {
    forall i :: 0 <= i < |tokens| ==> Usable(tokens[i], known, scheme)
  }

  predicate NamesAdmin(tokens: seq<string>, known: Catalogue, scheme: SchemeRoles) {
    Managed(known, scheme.admin) && Names(tokens, scheme.admin)
  }

  predicate NamesUser(tokens: seq<string>, known: Catalogue, scheme: SchemeRoles) {
    scheme.user != scheme.admin && Managed(known, scheme.user) && Names(tokens, scheme.user)
  }

  predicate NamesGuest(tokens: seq<string>, known: Catalogue, scheme: SchemeRoles) {
    scheme.guest != scheme.admin && scheme.guest != scheme.user && Managed(known, scheme.guest)
        && Names(tokens, scheme.guest)
  }

  function ManagedIn(known: Catalogue): set<string> {
    set name | name in known && known[name]
  }

  lemma {:induction false} TokensOutcome(tokens: seq<string>, known: Catalogue, scheme: SchemeRoles)
    ensures WithTokens(tokens, known, scheme).Ok? <==> AllUsable(tokens, known, scheme)
    ensures AllUsable(tokens, known, scheme) ==>
              WithTokens(tokens, known, scheme).value ==
              Member(Removed(tokens, ManagedIn(known)), NamesGuest(tokens, known, scheme),
                     NamesUser(tokens, known, scheme), NamesAdmin(tokens, known, scheme))
  {
    if |tokens| > 0 {
      var init, last := tokens[..|tokens| - 1], tokens[|tokens| - 1];
      TokensOutcome(init, known, scheme);
      assert tokens == init + [last];
      NamesOfSnoc(init, last, scheme.admin);
      NamesOfSnoc(init, last, scheme.user);
      NamesOfSnoc(init, last, scheme.guest);
      assert Removed(init, ManagedIn(known)) + [] == Removed(init, ManagedIn(known));
      assert AllUsable(tokens, known, scheme) <==> AllUsable(init, known, scheme) && Usable(last, known, scheme);
    }
  }

  /**
   * An update succeeds exactly if every name is a known role, every scheme-managed one belongs to this
   * channel's scheme, user and guest are not both named, and the guest role is named exactly for a guest.
   * Then the flags are the scheme roles named and the explicit roles are the others, in order.
   */
  lemma RolesOutcome(m: Member, tokens: seq<string>, known: Catalogue, scheme: SchemeRoles)
    ensures UpdatedRoles(m, tokens, known, scheme).Ok? <==>
              AllUsable(tokens, known, scheme)
              && !(NamesUser(tokens, known, scheme) && NamesGuest(tokens, known, scheme))
              && NamesGuest(tokens, known, scheme) == m.guest
    ensures UpdatedRoles(m, tokens, known, scheme).Ok? ==>
              UpdatedRoles(m, tokens, known, scheme).value ==
              Member(Removed(tokens, ManagedIn(known)), m.guest, NamesUser(tokens, known, scheme),
                      NamesAdmin(tokens, known, scheme))
  {
    TokensOutcome(tokens, known, scheme);
  }

  /** A failed update over names names the first one that cannot be used. */
  lemma {:induction false} FirstUnusable(tokens: seq<string>, known: Catalogue, scheme: SchemeRoles) returns (k: int)
    requires !AllUsable(tokens, known, scheme)
    ensures 0 <= k < |tokens| && AllUsable(tokens[..k], known, scheme) && !Usable(tokens[k], known, scheme)
    ensures WithTokens(tokens, known, scheme) ==
              Err(if tokens[k] in known then ForeignSchemeRole(tokens[k]) else UnknownRole(tokens[k]))
  {
    var init := tokens[..|tokens| - 1];
    TokensOutcome(init, known, scheme);
    if AllUsable(init, known, scheme) {
      k := |tokens| - 1;
      assert forall i :: 0 <= i < |init| ==> Usable(tokens[i], known, scheme) by {
        assert forall i :: 0 <= i < |init| ==> tokens[i] == init[i];
      }
    } else {
      k := FirstUnusable(init, known, scheme);
      assert init[..k] == tokens[..k];
    }
  }

  /** Where and how often scheme-managed names stand among the others does not matter. */
  lemma SchemeTokensAreASet(m: Member, some: seq<string>, others: seq<string>, known: Catalogue, scheme: SchemeRoles)
    requires Removed(some, ManagedIn(known)) == Removed(others, ManagedIn(known))
    requires forall name :: Managed(known, name) ==> (Names(some, name) <==> Names(others, name))
    requires UpdatedRoles(m, some, known, scheme).Ok?
    ensures UpdatedRoles(m, others, known, scheme) == UpdatedRoles(m, some, known, scheme)
  {
    RolesOutcome(m, some, known, scheme);
    RolesOutcome(m, others, known, scheme);
    forall i | 0 <= i < |others| ensures Usable(others[i], known, scheme) {
      var name := others[i];
      assert Names(others, name);
      RemovedIs(some, ManagedIn(known), name);
      RemovedIs(others, ManagedIn(known), name);
      var j :| 0 <= j < |some| && some[j] == name;
    }
  }

  // ---------- updating by flags ----------

  /** Before the migration has completed the default roles are also taken out of the explicit ones. */
  function UpdatedSchemeRoles(m: Member, guest: bool, user: bool, admin: bool,
                              migrated: bool): Result<Member, RoleError>
  {
    if user && guest then Err(GuestAndUser)
    else Ok(Member(if migrated then m.explicit else Removed(m.explicit, DEFAULTS), guest, user, admin))
  }

  /** Before the migration has completed, what is stored is read back as it is, whatever the explicit roles were;
      after it the explicit roles are not touched. */
  lemma MigrationDecides(m: Member, guest: bool, user: bool, admin: bool)
    requires !(guest && user)
    ensures var before := UpdatedSchemeRoles(m, guest, user, admin, false);
            before.Ok? && Read(Stored(before.value)) == before.value
            && forall name :: Names(before.value.explicit, name) <==> Names(m.explicit, name) && name !in DEFAULTS
    ensures UpdatedSchemeRoles(m, guest, user, admin, true) == Ok(Member(m.explicit, guest, user, admin))
  {
    var left := Removed(m.explicit, DEFAULTS);
    forall name ensures Names(left, name) <==> Names(m.explicit, name) && name !in DEFAULTS {
      RemovedIs(m.explicit, DEFAULTS, name);
    }
    ReadingUndoesStoring(Member(left, guest, user, admin));
  }

  // ---------- what every update keeps ----------

  /** Not guest and user at once, and no scheme-managed role among the explicit ones. */
  ghost predicate Sound(m: Member, known: Catalogue) {
    !(m.guest && m.user) && forall name :: Names(m.explicit, name) ==> name in known && !known[name]
  }

  /** The default roles are managed by schemes. */
  predicate DefaultsManaged(known: Catalogue) {
    Managed(known, CHANNEL_GUEST) && Managed(known, CHANNEL_USER) && Managed(known, CHANNEL_ADMIN)
  }

  lemma SoundSurvivesStoring(m: Member, known: Catalogue)
    requires Sound(m, known) && DefaultsManaged(known)
    ensures Read(Stored(m)) == m
  {
    ReadingUndoesStoring(m);
  }

  lemma RolesStaySound(m: Member, tokens: seq<string>, known: Catalogue, scheme: SchemeRoles)
    requires UpdatedRoles(m, tokens, known, scheme).Ok?
    ensures Sound(UpdatedRoles(m, tokens, known, scheme).value, known)
    ensures UpdatedRoles(m, tokens, known, scheme).value.guest == m.guest
  {
    RolesOutcome(m, tokens, known, scheme);
    var explicit := Removed(tokens, ManagedIn(known));
    forall name | Names(explicit, name) ensures name in known && !known[name] {
      RemovedIs(tokens, ManagedIn(known), name);
      var i :| 0 <= i < |tokens| && tokens[i] == name;
      assert Usable(tokens[i], known, scheme);
    }
  }

  lemma SchemeRolesStaySound(m: Member, guest: bool, user: bool, admin: bool, migrated: bool, known: Catalogue)
    requires Sound(m, known)
    requires UpdatedSchemeRoles(m, guest, user, admin, migrated).Ok?
    ensures Sound(UpdatedSchemeRoles(m, guest, user, admin, migrated).value, known)
  {
    forall name | Names(Removed(m.explicit, DEFAULTS), name) ensures Names(m.explicit, name) {
      RemovedIs(m.explicit, DEFAULTS, name);
    }
  }

  // ---------- the operations ----------

  datatype Key = Key(channelId: string, userId: string)

  /** How writing a member ends; the row may be written although reading it back fails. */
  datatype Write = Written | WriteFailed | RereadFailed

  /** The table and the answer once an update has been decided. */
  function AfterWrite(rows: map<Key, Row>, key: Key, updated: Result<Member, RoleError>, write: Write)
    : (map<Key, Row>, Result<Member, RoleError>)
  {
    if updated.Err? then (rows, updated)
    else if write.WriteFailed? then (rows, Err(StoreFailed))
    else
      var row := Stored(updated.value);
      (rows[key := row], if write.RereadFailed? then Err(StoreFailed) else Ok(Read(row)))
  }

  function RolesUpdate(rows: map<Key, Row>, key: Key, tokens: seq<string>, known: Catalogue,
                       scheme: Option<SchemeRoles>, write: Write)
    : (map<Key, Row>, Result<Member, RoleError>)
  {
    if key !in rows then (rows, Err(NotMember))
    else if scheme.None? then (rows, Err(NoScheme))
    else AfterWrite(rows, key, UpdatedRoles(Read(rows[key]), tokens, known, scheme.value), write)
  }

  function SchemeRolesUpdate(rows: map<Key, Row>, key: Key, guest: bool, user: bool, admin: bool, migrated: bool,
                             write: Write)
    : (map<Key, Row>, Result<Member, RoleError>)
  {
    if key !in rows then (rows, Err(NotMember))
    else AfterWrite(rows, key, UpdatedSchemeRoles(Read(rows[key]), guest, user, admin, migrated), write)
  }

  ghost predicate TableSound(rows: map<Key, Row>, known: Catalogue) {
    forall key :: key in rows ==> Sound(Read(rows[key]), known)
  }

  lemma PutKeepsSound(rows: map<Key, Row>, key: Key, row: Row, known: Catalogue)
    requires TableSound(rows, known) && Sound(Read(row), known)
    ensures TableSound(rows[key := row], known)
  {
    var after := rows[key := row];
    forall k | k in after ensures Sound(Read(after[k]), known) {
      if k != key {
        assert k in rows;
      }
    }
  }

  /** Writing a sound member over any row keeps the table sound. */
  lemma WriteKeepsSound(rows: map<Key, Row>, key: Key, updated: Result<Member, RoleError>, write: Write,
                        known: Catalogue)
    requires TableSound(rows, known) && DefaultsManaged(known)
    requires updated.Ok? ==> Sound(updated.value, known)
    ensures TableSound(AfterWrite(rows, key, updated, write).0, known)
  {
    if updated.Ok? {
      SoundSurvivesStoring(updated.value, known);
      PutKeepsSound(rows, key, Stored(updated.value), known);
    }
  }

  lemma RolesUpdateKeepsSound(rows: map<Key, Row>, key: Key, tokens: seq<string>, known: Catalogue,
                              scheme: Option<SchemeRoles>, write: Write)
    requires TableSound(rows, known) && DefaultsManaged(known)
    ensures TableSound(RolesUpdate(rows, key, tokens, known, scheme, write).0, known)
  {
    if key in rows && scheme.Some? {
      var updated := UpdatedRoles(Read(rows[key]), tokens, known, scheme.value);
      if updated.Ok? {
        RolesStaySound(Read(rows[key]), tokens, known, scheme.value);
      }
      WriteKeepsSound(rows, key, updated, write, known);
    }
  }

  lemma SchemeRolesUpdateKeepsSound(rows: map<Key, Row>, key: Key, guest: bool, user: bool, admin: bool,
                                    migrated: bool, write: Write, known: Catalogue)
    requires TableSound(rows, known) && DefaultsManaged(known)
    ensures TableSound(SchemeRolesUpdate(rows, key, guest, user, admin, migrated, write).0, known)
  {
    if key in rows {
      var updated := UpdatedSchemeRoles(Read(rows[key]), guest, user, admin, migrated);
      if updated.Ok? {
        SchemeRolesStaySound(Read(rows[key]), guest, user, admin, migrated, known);
      }
      WriteKeepsSound(rows, key, updated, write, known);
    }
  }

  /** Nothing but the row of the pair is touched, and the answer of a success is what is read there then. */
  ghost predicate TouchesOnly(rows: map<Key, Row>, key: Key, after: map<Key, Row>, answer: Result<Member, RoleError>) {
    && (forall other :: other != key ==>
          (other in after <==> other in rows) && (other in rows ==> after[other] == rows[other]))
    && (key in after <==> key in rows)
    && (answer.Ok? ==> key in after && answer.value == Read(after[key]))
  }

  /**
   * The update by names reaches the table exactly for a member of a channel whose scheme is known, with usable
   * names that name the guest role exactly for a guest and then not the user role, if the write works, read back
   * or not. Then the row has exactly the flags named, and as explicit roles the other names in order; otherwise
   * the table stays as it was.
   */
  lemma RolesUpdateWrites(rows: map<Key, Row>, key: Key, tokens: seq<string>, known: Catalogue,
                          scheme: Option<SchemeRoles>, write: Write)
    requires DefaultsManaged(known)
    ensures var (after, answer) := RolesUpdate(rows, key, tokens, known, scheme, write);
            && TouchesOnly(rows, key, after, answer)
            && (answer.Ok? ==> write.Written?)
            && if key in rows && scheme.Some? && !write.WriteFailed? && AllUsable(tokens, known, scheme.value) &&
                  NamesGuest(tokens, known, scheme.value) == Read(rows[key]).guest &&
                  !(Read(rows[key]).guest && NamesUser(tokens, known, scheme.value))
               then
                 && answer == (if write.Written? then Ok(Read(after[key])) else Err(StoreFailed))
                 && Read(after[key]) == Member(Removed(tokens, ManagedIn(known)), Read(rows[key]).guest,
                                               NamesUser(tokens, known, scheme.value),
                                               NamesAdmin(tokens, known, scheme.value))
               else
                 answer.Err? && after == rows
  {
    if key in rows && scheme.Some? {
      RolesOutcome(Read(rows[key]), tokens, known, scheme.value);
      var updated := UpdatedRoles(Read(rows[key]), tokens, known, scheme.value);
      if updated.Ok? {
        RolesStaySound(Read(rows[key]), tokens, known, scheme.value);
        SoundSurvivesStoring(updated.value, known);
      }
    }
  }

  /** The update by flags reaches the table exactly for a member, not as guest and user at once, if the write works.
      Then the row has exactly these flags, and the explicit roles it had, whether or not the migration is over. */
  lemma SchemeRolesUpdateWrites(rows: map<Key, Row>, key: Key, guest: bool, user: bool, admin: bool, migrated: bool,
                                write: Write)
    ensures var (after, answer) := SchemeRolesUpdate(rows, key, guest, user, admin, migrated, write);
            && TouchesOnly(rows, key, after, answer)
            && if key in rows && !(guest && user) && !write.WriteFailed? then
                 && answer == (if write.Written? then Ok(Read(after[key])) else Err(StoreFailed))
                 && Read(after[key]) == Member(Read(rows[key]).explicit, guest, user, admin)
               else
                 answer.Err? && after == rows
  {
    if key in rows {
      var explicit := Read(rows[key]).explicit;
      ReadHasNoDefaults(rows[key]);
      NothingToRemove(explicit, DEFAULTS);
      ReadingUndoesStoring(Member(explicit, guest, user, admin));
    }
  }

  /** Which error an update ends with, in the order in which they are found. */
  lemma RolesUpdateError(rows: map<Key, Row>, key: Key, tokens: seq<string>, known: Catalogue,
                         scheme: Option<SchemeRoles>, write: Write)
    ensures var answer := RolesUpdate(rows, key, tokens, known, scheme, write).1;
            && (answer == Err(NotMember) <==> key !in rows)
            && (answer == Err(NoScheme) <==> key in rows && scheme.None?)
            && (key in rows && scheme.Some? && AllUsable(tokens, known, scheme.value) && answer.Err? ==>
                  var guest, user := NamesGuest(tokens, known, scheme.value), NamesUser(tokens, known, scheme.value);
                  answer.error == if user && guest then GuestAndUser
                                  else if guest != Read(rows[key]).guest then ChangingGuest else StoreFailed)
  {
    if key in rows && scheme.Some? {
      RolesOutcome(Read(rows[key]), tokens, known, scheme.value);
      TokensOutcome(tokens, known, scheme.value);
      if !AllUsable(tokens, known, scheme.value) {
        var k := FirstUnusable(tokens, known, scheme.value);
      }
    }
  }

  class MemberTable {
    var rows: map<Key, Row>

    constructor (rows: map<Key, Row>)
      ensures this.rows == rows
    {
      this.rows := rows;
    }

    /** The scheme is that of the channel, if it can be resolved. */
    method UpdateChannelMemberRoles(key: Key, tokens: seq<string>, known: Catalogue, scheme: Option<SchemeRoles>,
                                    write: Write)
      returns (r: Result<Member, RoleError>)
      modifies this
      ensures (rows, r) == RolesUpdate(old(rows), key, tokens, known, scheme, write)
    {
      if key !in rows {
        return Err(NotMember);
      }
      var member := Read(rows[key]);
      if scheme.None? {
        return Err(NoScheme);
      }
      var wasGuest := member.guest;
      var explicit: seq<string> := [];
      var guest, user, admin := false, false, false;
      for i := 0 to |tokens|
        invariant WithTokens(tokens[..i], known, scheme.value) == Ok(Member(explicit, guest, user, admin))
      {
        var name := tokens[i];
        assert tokens[..i + 1][..i] == tokens[..i];
        if name !in known {
          FailsEarly(tokens, i + 1, known, scheme.value);
          return Err(UnknownRole(name));
        }
        if !known[name] {
          explicit := explicit + [name];
        } else if name == scheme.value.admin {
          admin := true;
        } else if name == scheme.value.user {
          user := true;
        } else if name == scheme.value.guest {
          guest := true;
        } else {
          FailsEarly(tokens, i + 1, known, scheme.value);
          return Err(ForeignSchemeRole(name));
        }
      }
      assert tokens[..|tokens|] == tokens;
      if user && guest {
        return Err(GuestAndUser);
      }
      if wasGuest != guest {
        return Err(ChangingGuest);
      }
      if write.WriteFailed? {
        return Err(StoreFailed);
      }
      rows := rows[key := Stored(Member(explicit, guest, user, admin))];
      if write.RereadFailed? {
        return Err(StoreFailed);
      }
      r := Ok(Read(rows[key]));
    }

    method UpdateChannelMemberSchemeRoles(key: Key, guest: bool, user: bool, admin: bool, migrated: bool, write: Write)
      returns (r: Result<Member, RoleError>)
      modifies this
      ensures (rows, r) == SchemeRolesUpdate(old(rows), key, guest, user, admin, migrated, write)
    {
      if key !in rows {
        return Err(NotMember);
      }
      var member := Read(rows[key]);
      if user && guest {
        return Err(GuestAndUser);
      }
      var explicit := member.explicit;
      if !migrated {
        explicit := RemoveRoles(DEFAULTS, explicit);
      }
      if write.WriteFailed? {
        return Err(StoreFailed);
      }
      rows := rows[key := Stored(Member(explicit, guest, user, admin))];
      if write.RereadFailed? {
        return Err(StoreFailed);
      }
      r := Ok(Read(rows[key]));
    }
  }

  lemma {:induction false} FailsEarly(tokens: seq<string>, k: nat, known: Catalogue, scheme: SchemeRoles)
    requires k <= |tokens| && WithTokens(tokens[..k], known, scheme).Err?
    ensures WithTokens(tokens, known, scheme) == WithTokens(tokens[..k], known, scheme)
  {
    if k == |tokens| {
      assert tokens[..k] == tokens;
    } else {
      assert tokens[..|tokens| - 1][..k] == tokens[..k];
      FailsEarly(tokens[..|tokens| - 1], k, known, scheme);
    }
  }
}
