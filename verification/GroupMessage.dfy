/** The argument parser of the group message command: "@user1,@user2 message". */
module GroupMessage {
  import opened Lists

  // ---------- strings ----------

  /** White space as Unicode defines it. */
  predicate IsSpace(c: char) {
    var n := c as int;
    n == 0x20 || 0x09 <= n <= 0x0D || n == 0x85 || n == 0xA0 || n == 0x1680 || 0x2000 <= n <= 0x200A ||
    n == 0x2028 || n == 0x2029 || n == 0x202F || n == 0x205F || n == 0x3000
  }

  /** These are the 25 code points with this property. */
  lemma SpacesAre(c: char)
    ensures IsSpace(c) <==>
            c as int in {9, 10, 11, 12, 13, 32, 133, 160, 5760, 8192, 8193, 8194, 8195, 8196, 8197, 8198, 8199, 8200,
                         8201, 8202, 8232, 8233, 8239, 8287, 12288}
  {
  }

  predicate AllSpace(s: string) {
    forall i :: 0 <= i < |s| ==> IsSpace(s[i])
  }

  predicate NoSpace(s: string) {
    forall i :: 0 <= i < |s| ==> !IsSpace(s[i])
  }

  predicate NoComma(s: string) {
    forall i :: 0 <= i < |s| ==> s[i] != ','
  }

  function TrimLeft(s: string): string {
    if |s| == 0 || !IsSpace(s[0]) then s else TrimLeft(s[1..])
  }

  function TrimRight(s: string): string {
    if |s| == 0 || !IsSpace(s[|s| - 1]) then s else TrimRight(s[..|s| - 1])
  }

  function Trim(s: string): string {
    TrimRight(TrimLeft(s))
  }

  function TrimPrefix(s: string, prefix: string): string {
    if prefix <= s then s[|prefix|..] else s
  }

  /** The length of the first run of characters that are not white space. */
  function WordLength(s: string): (n: nat)
    ensures n <= |s|
  {
    if |s| == 0 || IsSpace(s[0]) then 0 else 1 + WordLength(s[1..])
  }

  function Fields(s: string): seq<string>
    decreases |s|
  {
    if |s| == 0 then []
    else if IsSpace(s[0]) then Fields(s[1..])
    else
      var n := WordLength(s);
      [s[..n]] + Fields(s[n..])
  }

  /** The position of the first comma, or the end. */
  function CommaAt(s: string): (i: nat)
    ensures i <= |s|
  {
    if |s| == 0 || s[0] == ',' then 0 else 1 + CommaAt(s[1..])
  }

  function Split(s: string): (parts: seq<string>)
    ensures parts != []
    decreases |s|
  {
    var i := CommaAt(s);
    if i == |s| then [s] else [s[..i]] + Split(s[i + 1..])
  }

  /** At most n pieces; the last one is the unsplit rest. */
  function SplitN(s: string, n: nat): (parts: seq<string>)
    requires n > 0
    ensures parts != []
    decreases n
  {
    var i := CommaAt(s);
    if n == 1 || i == |s| then [s] else [s[..i]] + SplitN(s[i + 1..], n - 1)
  }

  lemma {:induction false} TrimRightIs(s: string)
    ensures TrimRight(s) <= s && AllSpace(s[|TrimRight(s)|..])
    ensures TrimRight(s) != "" ==> !IsSpace(TrimRight(s)[|TrimRight(s)| - 1])
    decreases |s|
  {
    if s != "" && IsSpace(s[|s| - 1]) {
      var front := s[..|s| - 1];
      TrimRightIs(front);
      var n := |TrimRight(front)|;
      assert s[n..] == front[n..] + [s[|s| - 1]];
    }
  }

  lemma {:induction false} WordLengthIs(s: string)
    ensures NoSpace(s[..WordLength(s)]) && (WordLength(s) < |s| ==> IsSpace(s[WordLength(s)]))
  {
    if s != "" && !IsSpace(s[0]) {
      WordLengthIs(s[1..]);
      assert s[..WordLength(s)] == [s[0]] + s[1..][..WordLength(s[1..])];
    }
  }

  lemma {:induction false} CommaAtIs(s: string)
    ensures CommaAt(s) < |s| ==> s[CommaAt(s)] == ','
    ensures forall j :: 0 <= j < CommaAt(s) ==> s[j] != ','
  {
    if s != "" && s[0] != ',' {
      CommaAtIs(s[1..]);
      assert forall j :: 0 < j < CommaAt(s) ==> s[j] == s[1..][j - 1];
    }
  }

  /** The pieces with a comma between any two. */
  function Joined(parts: seq<string>): string
    requires parts != []
  {
    if |parts| == 1 then parts[0] else parts[0] + ("," + Joined(parts[1..]))
  }

  lemma JoinedFront(part: string, parts: seq<string>)
    requires parts != []
    ensures Joined([part] + parts) == part + ("," + Joined(parts))
  {
    assert ([part] + parts)[1..] == parts;
  }

  lemma CutAt(s: string, c: nat)
    requires c < |s| && s[c] == ','
    ensures s == s[..c] + ("," + s[c + 1..])
  {
  }

  lemma CutAtComma(s: string, c: nat)
    requires c == CommaAt(s) < |s|
    ensures s == s[..c] + ("," + s[c + 1..]) && NoComma(s[..c])
  {
    CommaAtIs(s);
    CutAt(s, c);
  }

  /** Splitting takes the text apart at every comma, and loses nothing. */
  lemma {:induction false} SplitIsACut(s: string)
    ensures Joined(Split(s)) == s && forall i :: 0 <= i < |Split(s)| ==> NoComma(Split(s)[i])
    decreases |s|
  {
    var c := CommaAt(s);
    if c < |s| {
      CutAtComma(s, c);
      SplitIsACut(s[c + 1..]);
      JoinedFront(s[..c], Split(s[c + 1..]));
    } else {
      CommaAtIs(s);
    }
  }

  /** Splitting into at most n pieces takes it apart at the first n - 1 commas. */
  lemma {:induction false} SplitNIsACut(s: string, n: nat)
    requires n > 0
    ensures Joined(SplitN(s, n)) == s && |SplitN(s, n)| <= n
    ensures forall i :: 0 <= i < |SplitN(s, n)| - 1 ==> NoComma(SplitN(s, n)[i])
    ensures |SplitN(s, n)| < n ==> NoComma(SplitN(s, n)[|SplitN(s, n)| - 1])
    decreases n
  {
    var c := CommaAt(s);
    if n > 1 && c < |s| {
      CutAtComma(s, c);
      SplitNIsACut(s[c + 1..], n - 1);
      JoinedFront(s[..c], SplitN(s[c + 1..], n - 1));
    } else {
      CommaAtIs(s);
    }
  }

  // ---------- the parser, reading on from one comma to the next ----------

  function Words(part: string): seq<string> {
    Fields(TrimPrefix(Trim(part), "@"))
  }

  function MessageAfter(rest: string, user: string): string {
    Trim(TrimPrefix(TrimPrefix(Trim(rest), "@"), user))
  }

  /** How a part is broken into words, and how the message is cut from the text after the
      last comma before it. What is done with the pieces does not depend on either. */
  datatype Reader = Reader(words: string -> seq<string>, message: (string, string) -> string)

  const TEXT := Reader((part: string) => Words(part), (rest: string, user: string) => MessageAfter(rest, user))

  function Parsed(r: Reader, rest: string): (seq<string>, string)
    decreases |rest|
  {
    var i := CommaAt(rest);
    var words := r.words(rest[..i]);
    if |words| > 1 then ([words[0]], r.message(rest, words[0]))
    else if i == |rest| then (words, "")
    else
      var (more, message) := Parsed(r, rest[i + 1..]);
      (words + more, message)
  }

  /** The text after the idx-th comma. */
  function After(s: string, idx: nat): string {
    if idx == 0 || CommaAt(s) == |s| then s else After(s[CommaAt(s) + 1..], idx - 1)
  }

  /** The last piece of SplitN is the text after that many commas. */
  lemma {:induction false} LastPiece(s: string, n: nat)
    requires n > 0
    ensures SplitN(s, n)[|SplitN(s, n)| - 1] == After(s, n - 1)
  {
    if n > 1 && CommaAt(s) < |s| {
      LastPiece(s[CommaAt(s) + 1..], n - 1);
    }
  }

  lemma {:induction false} SplitAt(s: string, idx: nat)
    requires idx < |Split(s)|
    ensures Split(s)[idx..] == Split(After(s, idx))
    decreases idx
  {
    if idx > 0 {
      SplitAt(s[CommaAt(s) + 1..], idx - 1);
    }
  }

  lemma {:induction false} AfterNext(s: string, idx: nat)
    requires CommaAt(After(s, idx)) < |After(s, idx)|
    ensures After(s, idx + 1) == After(s, idx)[CommaAt(After(s, idx)) + 1..]
  {
    if idx > 0 {
      if CommaAt(s) < |s| {
        AfterNext(s[CommaAt(s) + 1..], idx - 1);
      }
    } else {
      assert After(s[CommaAt(s) + 1..], 0) == s[CommaAt(s) + 1..];
    }
  }

  /** Where the loop stands before part idx: rest is the text from there on. */
  ghost predicate Reading(r: Reader, message: string, parts: seq<string>, idx: nat, rest: string, result: seq<string>) {
    idx < |parts| && rest == After(message, idx) && parts[idx..] == Split(rest) &&
    Parsed(r, message) == (result + Parsed(r, rest).0, Parsed(r, rest).1)
  }

  lemma SplitIs(s: string)
    ensures Split(s)[0] == s[..CommaAt(s)]
    ensures |Split(s)| == 1 <==> CommaAt(s) == |s|
  {
  }

  lemma ParsedGoesOn(r: Reader, rest: string, users: seq<string>)
    requires users == r.words(rest[..CommaAt(rest)]) && |users| <= 1
    ensures CommaAt(rest) == |rest| ==> Parsed(r, rest) == (users, "")
    ensures CommaAt(rest) < |rest| ==>
              Parsed(r, rest) == (users + Parsed(r, rest[CommaAt(rest) + 1..]).0,
                      Parsed(r, rest[CommaAt(rest) + 1..]).1)
  {
  }

  lemma ParsedStops(r: Reader, rest: string, words: seq<string>)
    requires words == r.words(rest[..CommaAt(rest)]) && |words| > 1
    ensures Parsed(r, rest) == ([words[0]], r.message(rest, words[0]))
  {
  }

  /** A text whose words were never followed by others gives no message. */
  lemma {:induction false} NoUsersNoMessage(r: Reader, rest: string)
    requires Parsed(r, rest).0 == []
    ensures Parsed(r, rest).1 == ""
    decreases |rest|
  {
    if CommaAt(rest) < |rest| && |r.words(rest[..CommaAt(rest)])| <= 1 {
      NoUsersNoMessage(r, rest[CommaAt(rest) + 1..]);
    }
  }

  /** A part with one user and no message: the text ends here, or no later message counts
      unless a later part names another user. */
  lemma LoneUser(r: Reader, rest: string, user: string)
    requires r.words(rest[..CommaAt(rest)]) == [user]
    ensures CommaAt(rest) == |rest| ==> Parsed(r, rest) == ([user], "")
    ensures CommaAt(rest) < |rest| && Parsed(r, rest).0 == [user] ==> Parsed(r, rest).1 == ""
  {
    ParsedGoesOn(r, rest, [user]);
    if CommaAt(rest) < |rest| {
      var next := rest[CommaAt(rest) + 1..];
      if Parsed(r, next).0 == [] {
        NoUsersNoMessage(r, next);
      } else {
        assert |[user] + Parsed(r, next).0| > 1;
      }
    }
  }

  /** What is still to be read after part idx. */
  function NextRest(rest: string): string {
    if CommaAt(rest) < |rest| then rest[CommaAt(rest) + 1..] else rest
  }

  /** Where the loop stands, the end included. */
  ghost predicate Progressing(r: Reader, message: string, parts: seq<string>, idx: nat, rest: string,
                              result: seq<string>) {
    if idx < |parts| then Reading(r, message, parts, idx, rest, result)
    else idx == |parts| && Parsed(r, message) == (result, "")
  }

  lemma ReadOn(r: Reader, message: string, parts: seq<string>, idx: nat, rest: string, result: seq<string>,
               users: seq<string>)
    requires parts == Split(message) && Reading(r, message, parts, idx, rest, result)
    requires users == r.words(parts[idx]) && |users| <= 1
    ensures Progressing(r, message, parts, idx + 1, NextRest(rest), result + users)
  {
    assert parts[idx] == parts[idx..][0];
    SplitIs(rest);
    ParsedGoesOn(r, rest, users);
    if idx + 1 < |parts| {
      AfterNext(message, idx);
      SplitAt(message, idx + 1);
      AppendAssociates(result, users, Parsed(r, rest[CommaAt(rest) + 1..]).0);
    }
  }

  lemma ReadFromStart(r: Reader, message: string)
    ensures Reading(r, message, Split(message), 0, message, [])
  {
    assert [] + Parsed(r, message).0 == Parsed(r, message).0;
    assert Split(message)[0..] == Split(message);
  }

  lemma MessageFound(r: Reader, message: string, parts: seq<string>, idx: nat, rest: string, result: seq<string>)
    requires parts == Split(message) && Reading(r, message, parts, idx, rest, result)
    requires |r.words(parts[idx])| > 1
    ensures Parsed(r, message) == (result + [r.words(parts[idx])[0]], r.message(rest, r.words(parts[idx])[0]))
  {
    assert parts[idx] == parts[idx..][0];
    SplitIs(rest);
    ParsedStops(r, rest, r.words(parts[idx]));
  }

  /** The message: what follows the user in the last of idx+1 pieces of the text. */
  method MessageFrom(message: string, idx: nat, user: string) returns (resultMessage: string)
    ensures resultMessage == MessageAfter(After(message, idx), user)
  {
    var splitted := SplitN(message, idx + 1);
    var last := splitted[|splitted| - 1];
    assert last == After(message, idx) by {
      LastPiece(message, idx + 1);
    }
    resultMessage := TrimPrefix(Trim(last), "@");
    resultMessage := Trim(TrimPrefix(resultMessage, user));
  }

  /** The words of a part: trimmed, without a leading "@". */
  method WordsOf(part: string) returns (split: seq<string>)
    ensures split == TEXT.words(part)
  {
    var clean := TrimPrefix(Trim(part), "@");
    split := Fields(clean);
  }

  lemma AppendFirst(result: seq<string>, split: seq<string>)
    requires |split| <= 1
    ensures result + split == if |split| > 0 then result + [split[0]] else result
  {
    assert |split| > 0 ==> split == [split[0]];
  }

  /** The loop over all parts, which splits the whole text anew where the message begins. */
  method GroupMsgUsernames(message: string) returns (result: seq<string>, resultMessage: string)
    ensures (result, resultMessage) == Parsed(TEXT, message)
  {
    result, resultMessage := [], "";
    var parts := Split(message);
    var idx := 0;
    ghost var rest := message;
    ReadFromStart(TEXT, message);
    while idx < |parts|
      invariant 0 <= idx <= |parts| && Progressing(TEXT, message, parts, idx, rest, result)
      invariant resultMessage == ""
    {
      var split := WordsOf(parts[idx]);
      if |split| > 1 {
        MessageFound(TEXT, message, parts, idx, rest, result);
        result := result + [split[0]];
        resultMessage := MessageFrom(message, idx, split[0]);
        return;
      }
      ReadOn(TEXT, message, parts, idx, rest, result, split);
      AppendFirst(result, split);
      if |split| > 0 {
        result := result + [split[0]];
      }
      rest := NextRest(rest);
      idx := idx + 1;
    }
  }

  // ---------- parsing undoes printing ----------

  predicate ValidName(user: string) {
    |user| > 0 && NoSpace(user) && NoComma(user) && user[0] != '@'
  }

  predicate ValidNames(users: seq<string>) {
    forall i :: 0 <= i < |users| ==> ValidName(users[i])
  }

  /** "@user1,@user2,...,@usern message" */
  function Printed(users: seq<string>, message: string): string
    requires users != []
  {
    if |users| == 1 then ("@" + users[0]) + (" " + message)
    else ("@" + users[0]) + ("," + Printed(users[1..], message))
  }

  predicate StartsWithComma(s: string) {
    s != "" && s[0] == ','
  }

  lemma {:induction false} FieldsOfSpace(s: string, t: string)
    requires AllSpace(s)
    ensures Fields(s + t) == Fields(t) && TrimLeft(s + t) == TrimLeft(t)
  {
    if s == "" {
      assert s + t == t;
    } else {
      assert (s + t)[1..] == s[1..] + t;
      FieldsOfSpace(s[1..], t);
    }
  }

  lemma {:induction false} WordLengthOf(word: string, t: string)
    requires NoSpace(word) && (t == "" || IsSpace(t[0]))
    ensures WordLength(word + t) == |word|
  {
    if word == "" {
      assert word + t == t;
    } else {
      assert (word + t)[1..] == word[1..] + t;
      WordLengthOf(word[1..], t);
    }
  }

  lemma FieldsOfWord(word: string, t: string)
    requires word != "" && NoSpace(word) && (t == "" || IsSpace(t[0]))
    ensures Fields(word + t) == [word] + Fields(t)
  {
    WordLengthOf(word, t);
    assert (word + t)[0] == word[0];
    assert (word + t)[..|word|] == word && (word + t)[|word|..] == t;
  }

  /** A text that ends in a word keeps it; what is trimmed comes off the part behind. */
  lemma {:induction false} TrimRightBehind(a: string, t: string)
    requires a != "" && !IsSpace(a[|a| - 1])
    ensures TrimRight(a + t) == a + TrimRight(t)
    decreases |t|
  {
    if t == "" {
      assert a + t == a;
    } else {
      assert (a + t)[..|a + t| - 1] == a + t[..|t| - 1];
      if IsSpace(t[|t| - 1]) {
        TrimRightBehind(a, t[..|t| - 1]);
      }
    }
  }

  lemma {:induction false} TrimRightOfSpace(s: string)
    requires AllSpace(s)
    ensures TrimRight(s) == "" && TrimLeft(s) == "" && Fields(s) == []
  {
    TrimRightIs(s);
    FieldsOfSpace(s, "");
    assert s + "" == s;
  }

  /** White space at the end contributes no field. */
  lemma {:induction false} FieldsIgnoreEnd(s: string, space: string)
    requires AllSpace(space)
    ensures Fields(s + space) == Fields(s)
    decreases |s|
  {
    if s == "" {
      assert s + space == space;
      TrimRightOfSpace(space);
    } else if IsSpace(s[0]) {
      assert (s + space)[1..] == s[1..] + space;
      FieldsIgnoreEnd(s[1..], space);
    } else {
      var n := WordLength(s);
      WordLengthIs(s);
      var word, t := s[..n], s[n..];
      assert s == word + t && s + space == word + (t + space);
      FieldsOfWord(word, t);
      if t + space == "" || IsSpace((t + space)[0]) {
        FieldsOfWord(word, t + space);
      }
      FieldsIgnoreEnd(t, space);
    }
  }

  lemma {:induction false} FieldsNonEmpty(s: string, i: nat)
    requires i < |s| && !IsSpace(s[i])
    ensures Fields(s) != []
  {
    if IsSpace(s[0]) {
      FieldsNonEmpty(s[1..], i - 1);
    }
  }

  lemma PrefixGone(prefix: string, s: string)
    ensures TrimPrefix(prefix + s, prefix) == s
  {
    assert prefix <= prefix + s;
    assert (prefix + s)[|prefix|..] == s;
  }

  lemma TrimOfUser(user: string, t: string)
    requires ValidName(user)
    ensures Trim(("@" + user) + t) == "@" + (user + TrimRight(t))
  {
    var a := "@" + user;
    assert a[|a| - 1] == user[|user| - 1] && (a + t)[0] == '@';
    TrimRightBehind(a, t);
    AppendAssociates("@", user, TrimRight(t));
  }

  /** The words of "@user" followed by white space and more text. */
  lemma WordsOfUser(user: string, t: string)
    requires ValidName(user) && (t == "" || IsSpace(t[0]))
    ensures Words(("@" + user) + t) == [user] + Fields(t)
  {
    var kept := TrimRight(t);
    TrimOfUser(user, t);
    PrefixGone("@", user + kept);
    FieldsIgnoreTrimmed(t);
    FieldsOfWord(user, kept);
  }

  lemma FieldsIgnoreTrimmed(t: string)
    ensures Fields(TrimRight(t)) == Fields(t)
    ensures t == "" || IsSpace(t[0]) ==> TrimRight(t) == "" || IsSpace(TrimRight(t)[0])
  {
    var kept := TrimRight(t);
    TrimRightIs(t);
    assert t == kept + t[|kept|..];
    FieldsIgnoreEnd(kept, t[|kept|..]);
  }

  lemma {:induction false} TrimIgnoresEnd(s: string)
    ensures Trim(TrimRight(s)) == Trim(s)
    decreases |s|
  {
    var kept := TrimRight(s);
    TrimRightIs(s);
    if AllSpace(s) {
      TrimRightOfSpace(s);
    } else if IsSpace(s[0]) {
      // the first character goes either way
      TrimRightTail(s);
      assert kept[0] == s[0];
      TrimIgnoresEnd(s[1..]);
    } else {
      TrimRightKeepsFirst(s);
    }
  }

  lemma TrimRightKeepsFirst(s: string)
    requires s != "" && !IsSpace(s[0])
    ensures TrimRight(s) != "" && TrimRight(s)[0] == s[0]
    ensures TrimLeft(s) == s && TrimLeft(TrimRight(s)) == TrimRight(s)
  {
    TrimRightBehind(s[..1], s[1..]);
    assert s == s[..1] + s[1..];
  }

  lemma {:induction false} TrimRightTail(s: string)
    requires !AllSpace(s)
    ensures TrimRight(s) != "" && TrimRight(s)[1..] == TrimRight(s[1..])
  {
    if IsSpace(s[|s| - 1]) {
      var front := s[..|s| - 1];
      TrimRightTail(front);
      assert front[1..] == s[1..][..|s[1..]| - 1];
    }
  }

  lemma MessageAfterUser(user: string, t: string)
    requires ValidName(user)
    ensures MessageAfter(("@" + user) + t, user) == Trim(t)
  {
    TrimOfUser(user, t);
    PrefixGone("@", user + TrimRight(t));
    PrefixGone(user, TrimRight(t));
    TrimIgnoresEnd(t);
  }

  lemma {:induction false} FirstCharOfTrim(s: string)
    ensures AllSpace(s) ==> Trim(s) == ""
    ensures !AllSpace(s) ==>
              exists i :: 0 <= i < |s| && !IsSpace(s[i]) && AllSpace(s[..i]) && Trim(s) != "" && Trim(s)[0] == s[i]
  {
    if AllSpace(s) {
      TrimRightOfSpace(s);
    } else if IsSpace(s[0]) {
      FirstCharOfTrim(s[1..]);
      assert !AllSpace(s[1..]) by {
        var j :| 0 <= j < |s| && !IsSpace(s[j]);
        assert s[1..][j - 1] == s[j];
      }
      var i :| 0 <= i < |s[1..]| && !IsSpace(s[1..][i]) && AllSpace(s[1..][..i]) && Trim(s) != ""
          && Trim(s)[0] == s[1..][i];
      assert s[..i + 1] == [s[0]] + s[1..][..i];
      assert s[i + 1] == s[1..][i];
    } else {
      TrimRightKeepsFirst(s);
      assert AllSpace(s[..0]);
    }
  }

  lemma CommaBehind(a: string, t: string)
    requires NoComma(a)
    ensures CommaAt(a + t) == |a| + CommaAt(t)
  {
    var i := CommaAt(a + t);
    CommaAtIs(a + t);
    CommaAtIs(t);
    assert forall j :: 0 <= j < |a| ==> (a + t)[j] == a[j];
    assert forall j :: 0 <= j < |t| ==> (a + t)[|a| + j] == t[j];
    assert i >= |a|;
  }

  lemma WordBefore(message: string, c: nat, i: nat)
    requires i < c <= |message| && !IsSpace(message[i])
    ensures Fields(message[..c]) != []
  {
    assert message[..c][i] == message[i];
    FieldsNonEmpty(message[..c], i);
  }

  lemma CommaNotInSpace(message: string, i: nat)
    requires i < |message| && AllSpace(message[..i])
    ensures if message[i] == ',' then CommaAt(message) == i else CommaAt(message) > i
  {
    CommaAtIs(message);
    assert forall j :: 0 <= j < i ==> message[..i][j] == message[j];
  }

  /** What lies before the first comma of a message has a word exactly when the message is
      neither blank nor led by a comma. */
  lemma BeforeComma(message: string)
    ensures Fields(message[..CommaAt(message)]) != [] <==> Trim(message) != "" && !StartsWithComma(Trim(message))
    ensures Trim(message) == "" ==> CommaAt(message) == |message|
    ensures StartsWithComma(Trim(message)) ==> CommaAt(message) < |message|
  {
    var c := CommaAt(message);
    CommaAtIs(message);
    FirstCharOfTrim(message);
    if AllSpace(message) {
      assert c < |message| ==> IsSpace(message[c]);
      TrimRightOfSpace(message[..c]);
    } else {
      var i :| 0 <= i < |message| && !IsSpace(message[i]) && AllSpace(message[..i]) && Trim(message) != ""
          && Trim(message)[0] == message[i];
      CommaNotInSpace(message, i);
      if message[i] == ',' {
        TrimRightOfSpace(message[..c]);
      } else {
        WordBefore(message, c, i);
      }
    }
  }

  lemma TakeBehind(a: string, t: string, n: nat)
    requires n <= |t|
    ensures (a + t)[..|a| + n] == a + t[..n]
  {
  }

  lemma CommaPart(a: string, t: string)
    requires NoComma(a)
    ensures CommaAt(a + t) == |a| + CommaAt(t)
    ensures (a + t)[..|a| + CommaAt(t)] == a + t[..CommaAt(t)]
  {
    CommaBehind(a, t);
    TakeBehind(a, t, CommaAt(t));
  }

  lemma NoCommaInUser(user: string)
    requires ValidName(user)
    ensures NoComma("@" + user) && |"@" + user| == |user| + 1
  {
  }

  /** The first part of "@user" and more text, up to the first comma. */
  lemma FirstPart(user: string, t: string)
    requires ValidName(user)
    ensures CommaAt(("@" + user) + t) == |user| + 1 + CommaAt(t)
    ensures (("@" + user) + t)[..|user| + 1 + CommaAt(t)] == ("@" + user) + t[..CommaAt(t)]
  {
    NoCommaInUser(user);
    CommaPart("@" + user, t);
  }

  lemma SpaceBeforeComma(message: string)
    ensures CommaAt(" " + message) == 1 + CommaAt(message)
    ensures (" " + message)[..1 + CommaAt(message)] == " " + message[..CommaAt(message)]
  {
    CommaPart(" ", message);
  }

  /** The words of the part with the last user. */
  lemma WordsBeforeComma(user: string, message: string)
    requires ValidName(user)
    ensures var rest := ("@" + user) + (" " + message);
            Words(rest[..CommaAt(rest)]) == [user] + Fields(message[..CommaAt(message)]) &&
            CommaAt(rest) == |user| + 2 + CommaAt(message)
  {
    var behind := " " + message[..CommaAt(message)];
    FirstPart(user, " " + message);
    SpaceBeforeComma(message);
    WordsOfUser(user, behind);
    assert Fields(behind) == Fields(message[..CommaAt(message)]) by {
      FieldsOfSpace(" ", message[..CommaAt(message)]);
    }
  }

  lemma LastUserWithMessage(user: string, message: string)
    requires ValidName(user) && Fields(message[..CommaAt(message)]) != []
    ensures Parsed(TEXT, ("@" + user) + (" " + message)) == ([user], Trim(message))
  {
    WordsBeforeComma(user, message);
    ParsedStops(TEXT, ("@" + user) + (" " + message), [user] + Fields(message[..CommaAt(message)]));
    MessageAfterUser(user, " " + message);
    FieldsOfSpace(" ", message);
  }

  lemma LastUserWithoutMessage(user: string, message: string)
    requires ValidName(user) && Fields(message[..CommaAt(message)]) == []
    ensures var parsed := Parsed(TEXT, ("@" + user) + (" " + message));
            if CommaAt(message) == |message| then parsed == ([user], "")
            else parsed.0 == [user] ==> parsed.1 == ""
  {
    WordsBeforeComma(user, message);
    assert [user] + Fields(message[..CommaAt(message)]) == [user];
    LoneUser(TEXT, ("@" + user) + (" " + message), user);
  }

  /** The last user and the message. */
  lemma ParsedOfOne(user: string, message: string)
    requires ValidName(user)
    ensures Parsed(TEXT, ("@" + user) + (" " + message)) == ([user], Trim(message)) <==> !StartsWithComma(Trim(message))
  {
    BeforeComma(message);
    if Fields(message[..CommaAt(message)]) != [] {
      LastUserWithMessage(user, message);
    } else {
      LastUserWithoutMessage(user, message);
    }
  }

  lemma ParsedOfMore(user: string, rest: string)
    requires ValidName(user)
    ensures Parsed(TEXT, ("@" + user) + ("," + rest)) == ([user] + Parsed(TEXT, rest).0, Parsed(TEXT, rest).1)
  {
    var whole := ("@" + user) + ("," + rest);
    FirstPart(user, "," + rest);
    WordsOfUser(user, "");
    assert whole[|user| + 2..] == rest;
    assert [user] + Fields(("," + rest)[..0]) == [user];
    ParsedGoesOn(TEXT, whole, [user]);
  }

  /** Parsing what was printed gives the users and the trimmed message back, for every message
      with or without commas, except exactly those that start with a comma. */
  lemma {:induction false} ParsingUndoesPrinting(users: seq<string>, message: string)
    requires users != [] && ValidNames(users)
    ensures Parsed(TEXT, Printed(users, message)) == (users, Trim(message)) <==> !StartsWithComma(Trim(message))
  {
    if |users| == 1 {
      ParsedOfOne(users[0], message);
      assert users == [users[0]];
    } else {
      ParsedOfMore(users[0], Printed(users[1..], message));
      ParsingUndoesPrinting(users[1..], message);
      assert users == [users[0]] + users[1..];
      var more := Parsed(TEXT, Printed(users[1..], message)).0;
      assert ([users[0]] + more)[1..] == more;
    }
  }
}
