/** Lists without repetition, their elements, and a few facts every component uses. */
module Lists {
  function Min(a: int, b: int): int {
    if a < b then a else b
  }

  function Max(a: int, b: int): int {
    if a < b then b else a
  }

  predicate Distinct<T(==)>(s: seq<T>) {
    forall i, j :: 0 <= i < j < |s| ==> s[i] != s[j]
  }

  function Elements(ids: seq<string>): set<string> {
    set i | 0 <= i < |ids| :: ids[i]
  }

  /** A list has as many elements as entries exactly if none is repeated. */
  lemma {:induction false} ElementCount(ids: seq<string>)
    ensures |Elements(ids)| <= |ids|
    ensures |Elements(ids)| == |ids| <==> Distinct(ids)
  {
    if |ids| > 0 {
      var init, last := ids[..|ids| - 1], ids[|ids| - 1];
      ElementCount(init);
      assert Elements(ids) == Elements(init) + {last};
      if Distinct(init) && last !in Elements(init) {
        forall i, j | 0 <= i < j < |ids| ensures ids[i] != ids[j] {
          assert ids[i] == init[i];
        }
      }
      if last in Elements(init) {
        var i :| 0 <= i < |init| && init[i] == last;
        assert ids[i] == ids[|ids| - 1];
      }
    }
  }

  lemma SubsetSize(a: set<string>, b: set<string>)
    requires a <= b
    ensures |a| <= |b|
  {
    assert |b - a| == |b| - |a|;
  }

  lemma SubsetOfSameSize(a: set<string>, b: set<string>)
    requires a <= b && |a| == |b|
    ensures a == b
  {
    assert |b - a| == |b| - |a|;
  }

  lemma AppendAssociates<T>(a: seq<T>, b: seq<T>, c: seq<T>)
    ensures (a + b) + c == a + (b + c)
  {
  }
}
