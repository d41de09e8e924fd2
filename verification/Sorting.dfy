/** Ascending order, and a sort that keeps every element. */
module Sorting {

  predicate Sorted(s: seq<nat>) {
    forall i, j :: 0 <= i < j < |s| ==> s[i] <= s[j]
  }

  function Insert(x: nat, s: seq<nat>): seq<nat> {
    if s == [] || x <= s[0] then [x] + s else [s[0]] + Insert(x, s[1..])
  }

  lemma {:induction false} InsertKeeps(x: nat, s: seq<nat>)
    ensures multiset(Insert(x, s)) == multiset(s) + multiset{x}
    decreases |s|
  {
    if s != [] && x > s[0] {
      InsertKeeps(x, s[1..]);
      assert s == [s[0]] + s[1..];
    }
  }

  lemma {:induction false} InsertSorts(x: nat, s: seq<nat>)
    requires Sorted(s)
    ensures Sorted(Insert(x, s))
    ensures Insert(x, s) != [] && (Insert(x, s)[0] == x || (s != [] && Insert(x, s)[0] == s[0]))
    decreases |s|
  {
    if s != [] && x > s[0] {
      var rest := s[1..];
      InsertSorts(x, rest);
      var tail := Insert(x, rest);
      assert tail[0] == x || (rest != [] && tail[0] == rest[0]);
      assert rest != [] ==> s[0] <= rest[0];
      assert forall i :: 0 <= i < |tail| ==> tail[0] <= tail[i];
    }
  }

  method Sort(s: seq<nat>) returns (sorted: seq<nat>)
    ensures Sorted(sorted)
    ensures multiset(sorted) == multiset(s)
  {
    sorted := [];
    for i := 0 to |s|
      invariant Sorted(sorted)
      invariant multiset(sorted) == multiset(s[..i])
    {
      InsertSorts(s[i], sorted);
      InsertKeeps(s[i], sorted);
      assert s[..i + 1] == s[..i] + [s[i]];
      sorted := Insert(s[i], sorted);
    }
    assert s[..|s|] == s;
  }
}
