/** Clearing the session caches of a channel's members page by page. The page number is
    passed as an offset, so the pages overlap: each starts one member after the last. */
module MemberCache {
  import opened Lists

  const PER_PAGE := 100

  /** The members a fetch returns. */
  function Window(members: seq<string>, offset: nat): seq<string> {
    members[Min(offset, |members|)..Min(offset + PER_PAGE, |members|)]
  }

  /** The users cleared from a page on; a fetch that fails ends the loop. */
  function ClearedFrom(members: seq<string>, page: nat, fails: nat -> bool): seq<string>
    decreases Max(0, |members| - page)
  {
    if fails(page) then []
    else
      var window := Window(members, page);
      if |window| < PER_PAGE then window else window + ClearedFrom(members, page + 1, fails)
  }

  class SessionCache {
    ghost var cleared: seq<string>

    constructor ()
      ensures cleared == []
    {
      cleared := [];
    }

    method ClearSessionCacheForUser(userId: string)
      modifies this
      ensures cleared == old(cleared) + [userId]
    {
      cleared := cleared + [userId];
    }

    method ClearChannelMembersCache(members: seq<string>, fails: nat -> bool) returns (fetches: nat)
      modifies this
      ensures cleared == old(cleared) + ClearedFrom(members, 0, fails)
      ensures (forall p :: !fails(p)) ==> fetches == Max(1, |members| - 98)
    {
      var page := 0;
      fetches := 0;
      ghost var before := cleared;
      while true
        invariant fetches == page && (page > 0 ==> page <= |members| - PER_PAGE + 1)
        invariant before + ClearedFrom(members, 0, fails) == cleared + ClearedFrom(members, page, fails)
        decreases |members| - page
      {
        fetches := fetches + 1;
        if fails(page) {
          assert cleared + [] == cleared;
          return;
        }
        var channelMembers := Window(members, page);
        var i := 0;
        ghost var start := cleared;
        while i < |channelMembers|
          invariant 0 <= i <= |channelMembers| && cleared == start + channelMembers[..i]
        {
          ClearSessionCacheForUser(channelMembers[i]);
          assert channelMembers[..i + 1] == channelMembers[..i] + [channelMembers[i]];
          i := i + 1;
        }
        assert channelMembers[..i] == channelMembers;
        var length := |channelMembers|;
        if length < PER_PAGE {
          break;
        }
        assert start + (channelMembers + ClearedFrom(members, page + 1, fails))
               == cleared + ClearedFrom(members, page + 1, fails);
        page := page + 1;
      }
    }
  }

  // ---------- coverage ----------

  function Occurrences(s: seq<string>, x: string): nat {
    if s == [] then 0 else (if s[0] == x then 1 else 0) + Occurrences(s[1..], x)
  }

  lemma {:induction false} OccurrencesConcat(a: seq<string>, b: seq<string>, x: string)
    ensures Occurrences(a + b, x) == Occurrences(a, x) + Occurrences(b, x)
  {
    if a == [] {
      assert a + b == b;
    } else {
      assert (a + b)[1..] == a[1..] + b;
      OccurrencesConcat(a[1..], b, x);
    }
  }

  lemma {:induction false} OccursOnce(s: seq<string>, i: nat)
    requires Distinct(s) && i < |s|
    ensures Occurrences(s, s[i]) == 1
  {
    if i == 0 {
      NeverOccurs(s[1..], s[0]);
    } else {
      OccursOnce(s[1..], i - 1);
    }
  }

  lemma {:induction false} NeverOccurs(s: seq<string>, x: string)
    requires forall i :: 0 <= i < |s| ==> s[i] != x
    ensures Occurrences(s, x) == 0
  {
    if s != [] {
      NeverOccurs(s[1..], x);
    }
  }

  lemma WindowOccurrences(members: seq<string>, offset: nat, i: nat)
    requires Distinct(members) && i < |members|
    ensures Occurrences(Window(members, offset), members[i]) == if offset <= i < offset + PER_PAGE then 1 else 0
  {
    var window := Window(members, offset);
    if offset <= i < offset + PER_PAGE {
      assert window[i - offset] == members[i];
      OccursOnce(window, i - offset);
    } else {
      NeverOccurs(window, members[i]);
    }
  }

  /** The offset of the last fetch when none fails. */
  function LastPage(n: nat): nat {
    Max(0, n - PER_PAGE + 1)
  }

  /** From a page on, a member is cleared once for every window that covers it. */
  lemma {:induction false} TimesClearedFrom(members: seq<string>, page: nat, fails: nat -> bool, i: nat)
    requires Distinct(members) && i < |members| && page <= LastPage(|members|) && forall p :: !fails(p)
    ensures Occurrences(ClearedFrom(members, page, fails), members[i]) ==
            Max(0, Min(i, LastPage(|members|)) - Max(page, i - PER_PAGE + 1) + 1)
    decreases LastPage(|members|) - page
  {
    WindowOccurrences(members, page, i);
    var window := Window(members, page);
    if |window| == PER_PAGE {
      TimesClearedFrom(members, page + 1, fails, i);
      OccurrencesConcat(window, ClearedFrom(members, page + 1, fails), members[i]);
    }
  }

  /** Where a fetch is the first that fails, the loop ends there: a member is cleared once for every window before it
      that covers the member. */
  lemma {:induction false} TimesClearedUntil(members: seq<string>, page: nat, fails: nat -> bool, k: nat, i: nat)
    requires Distinct(members) && i < |members| && page <= k <= LastPage(|members|)
    requires fails(k) && forall p :: page <= p < k ==> !fails(p)
    ensures Occurrences(ClearedFrom(members, page, fails), members[i]) ==
            Max(0, Min(i, k - 1) - Max(page, i - PER_PAGE + 1) + 1)
    decreases k - page
  {
    if page < k {
      WindowOccurrences(members, page, i);
      TimesClearedUntil(members, page + 1, fails, k, i);
      OccurrencesConcat(Window(members, page), ClearedFrom(members, page + 1, fails), members[i]);
    }
  }

  /** When no fetch fails every member is cleared, member i exactly this many times: once each
      near the ends of the list, and up to a hundred times in the middle. */
  lemma EveryMemberIsCleared(members: seq<string>, fails: nat -> bool, i: nat)
    requires Distinct(members) && i < |members| && forall p :: !fails(p)
    ensures Occurrences(ClearedFrom(members, 0, fails), members[i]) ==
            Min(i, Max(0, |members| - 99)) - Max(0, i - 99) + 1
    ensures 1 <= Occurrences(ClearedFrom(members, 0, fails), members[i]) <= 100
  {
    TimesClearedFrom(members, 0, fails, i);
  }

  /** All clearings together: about a hundred for each member of a large channel. */
  lemma {:induction false} TotalClearings(members: seq<string>, page: nat, fails: nat -> bool)
    requires page <= LastPage(|members|) && forall p :: !fails(p)
    ensures |ClearedFrom(members, page, fails)| ==
            if |members| < PER_PAGE then |members| else PER_PAGE * (|members| - page - PER_PAGE + 1) + PER_PAGE - 1
    decreases LastPage(|members|) - page
  {
    if |Window(members, page)| == PER_PAGE {
      TotalClearings(members, page + 1, fails);
    }
  }
}
