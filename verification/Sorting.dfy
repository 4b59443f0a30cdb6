/** A stable insertion sort and what it keeps. `before(x, y)` says that x must come before y. */
module Sorting {

  ghost predicate StrictOrder<T(!new)>(before: (T, T) -> bool) {
    && (forall x :: !before(x, x))
    && (forall x, y, z :: before(x, y) && before(y, z) ==> before(x, z))
  }

  /** Elements that are not ordered are tied, and ties are transitive. */
  ghost predicate WeakOrder<T(!new)>(before: (T, T) -> bool) {
    StrictOrder(before) && forall x, y, z :: !before(x, y) && !before(y, z) ==> !before(x, z)
  }

  /** Puts `x` behind everything that need not come after it. */
  function Insert<T>(before: (T, T) -> bool, x: T, s: seq<T>): (r: seq<T>)
    ensures |r| == |s| + 1
  {
    if s == [] then [x]
    else if before(x, s[|s| - 1]) then Insert(before, x, s[..|s| - 1]) + [s[|s| - 1]]
    else s + [x]
  }

  function Sort<T>(before: (T, T) -> bool, s: seq<T>): (r: seq<T>)
    ensures |r| == |s|
  {
    if s == [] then [] else Insert(before, s[|s| - 1], Sort(before, s[..|s| - 1]))
  }

  ghost predicate Sorted<T(!new)>(before: (T, T) -> bool, s: seq<T>) {
    forall i, j | 0 <= i < j < |s| :: !before(s[j], s[i])
  }

  lemma {:induction false} InsertElements<T>(before: (T, T) -> bool, x: T, s: seq<T>)
    ensures multiset(Insert(before, x, s)) == multiset(s) + multiset{x}
  {
    if s != [] {
      assert s == s[..|s| - 1] + [s[|s| - 1]];
      if before(x, s[|s| - 1]) { InsertElements(before, x, s[..|s| - 1]); }
    }
  }

  /** Sorting rearranges. */
  lemma {:induction false} SortElements<T>(before: (T, T) -> bool, s: seq<T>)
    ensures multiset(Sort(before, s)) == multiset(s)
  {
    if s != [] {
      SortElements(before, s[..|s| - 1]);
      InsertElements(before, s[|s| - 1], Sort(before, s[..|s| - 1]));
      assert s == s[..|s| - 1] + [s[|s| - 1]];
    }
  }

  lemma SortMembers<T>(before: (T, T) -> bool, s: seq<T>)
    ensures forall x :: x in Sort(before, s) <==> x in s
  {
    SortElements(before, s);
    forall x ensures x in Sort(before, s) <==> x in s {
      assert x in Sort(before, s) <==> x in multiset(Sort(before, s));
      assert x in s <==> x in multiset(s);
    }
  }

  lemma InsertMember<T>(before: (T, T) -> bool, x: T, s: seq<T>, i: nat)
    requires i < |Insert(before, x, s)|
    ensures Insert(before, x, s)[i] == x || Insert(before, x, s)[i] in s
  {
  }

  lemma {:induction false} InsertSorted<T(!new)>(before: (T, T) -> bool, x: T, s: seq<T>)
    requires WeakOrder(before) && Sorted(before, s)
    ensures Sorted(before, Insert(before, x, s))
  {
    var n := |s|;
    var r := Insert(before, x, s);
    if n > 0 && before(x, s[n - 1]) {
      InsertSorted(before, x, s[..n - 1]);
      forall i, j | 0 <= i < j < |r| ensures !before(r[j], r[i]) {
        if j == n {
          InsertMember(before, x, s[..n - 1], i);
          NotBoth(before, x, s[n - 1]);
        }
      }
    } else if n > 0 {
      forall i, j | 0 <= i < j < |r| ensures !before(r[j], r[i]) {
        if j == n && i < n - 1 { assert !before(x, s[n - 1]) && !before(s[n - 1], s[i]); }
      }
    }
  }

  lemma {:induction false} SortSorted<T(!new)>(before: (T, T) -> bool, s: seq<T>)
    requires WeakOrder(before)
    ensures Sorted(before, Sort(before, s))
  {
    if s != [] {
      SortSorted(before, s[..|s| - 1]);
      InsertSorted(before, s[|s| - 1], Sort(before, s[..|s| - 1]));
    }
  }

  /** Any two different elements are ordered, and none comes twice. */
  ghost predicate Separated<T(!new)>(before: (T, T) -> bool, s: seq<T>) {
    forall i, j | 0 <= i < j < |s| :: before(s[i], s[j]) || before(s[j], s[i])
  }

  ghost predicate Ascending<T(!new)>(before: (T, T) -> bool, s: seq<T>) {
    forall i, j | 0 <= i < j < |s| :: before(s[i], s[j])
  }

  lemma {:induction false} InsertAscending<T(!new)>(before: (T, T) -> bool, x: T, s: seq<T>)
    requires StrictOrder(before) && Ascending(before, s)
    requires forall i | 0 <= i < |s| :: before(s[i], x) || before(x, s[i])
    ensures Ascending(before, Insert(before, x, s))
  {
    var n := |s|;
    var r := Insert(before, x, s);
    if n > 0 && before(x, s[n - 1]) {
      InsertAscending(before, x, s[..n - 1]);
      forall i | 0 <= i < n ensures before(r[i], s[n - 1]) {
        InsertMember(before, x, s[..n - 1], i);
      }
    } else if n > 0 {
      forall i | 0 <= i < n ensures before(s[i], x) {
        if i < n - 1 { assert before(s[i], s[n - 1]) && before(s[n - 1], x); }
      }
    }
  }

  /** Elements that are all ordered come out in ascending order. */
  lemma {:induction false} SortAscending<T(!new)>(before: (T, T) -> bool, s: seq<T>)
    requires StrictOrder(before) && Separated(before, s)
    ensures Ascending(before, Sort(before, s))
  {
    if s != [] {
      var n := |s| - 1;
      SortAscending(before, s[..n]);
      SortMembers(before, s[..n]);
      var t := Sort(before, s[..n]);
      forall i | 0 <= i < |t| ensures before(t[i], s[n]) || before(s[n], t[i]) {
        assert t[i] in s[..n];
        var j :| 0 <= j < n && s[j] == t[i];
      }
      InsertAscending(before, s[n], t);
    }
  }

  lemma NotBoth<T(!new)>(before: (T, T) -> bool, x: T, y: T)
    requires StrictOrder(before)
    ensures !(before(x, y) && before(y, x))
  {
    assert before(x, y) && before(y, x) ==> before(x, x);
  }

  lemma FirstLeads<T(!new)>(before: (T, T) -> bool, s: seq<T>, x: T)
    requires Ascending(before, s) && x in s
    ensures x == s[0] || before(s[0], x)
  {
    var k :| 0 <= k < |s| && s[k] == x;
  }

  lemma BothEmpty<T(!new)>(s: seq<T>, t: seq<T>)
    requires forall x :: x in s <==> x in t
    ensures s == [] <==> t == []
  {
    assert s != [] ==> s[0] in s;
    assert t != [] ==> t[0] in t;
  }

  lemma FirstAgrees<T(!new)>(before: (T, T) -> bool, s: seq<T>, t: seq<T>)
    requires StrictOrder(before) && Ascending(before, s) && Ascending(before, t) && s != [] && t != []
    requires s[0] in t && t[0] in s
    ensures s[0] == t[0]
  {
    FirstLeads(before, s, t[0]);
    FirstLeads(before, t, s[0]);
    NotBoth(before, s[0], t[0]);
  }

  lemma TailKept<T(!new)>(before: (T, T) -> bool, s: seq<T>, t: seq<T>, x: T)
    requires StrictOrder(before) && Ascending(before, s) && s != [] && t != [] && s[0] == t[0]
    requires x in s[1..] && x in t
    ensures x in t[1..]
  {
    var i :| 0 <= i < |s[1..]| && s[1..][i] == x;
    assert before(s[0], s[i + 1]);
    var k :| 0 <= k < |t| && t[k] == x;
    assert k > 0 && t[1..][k - 1] == x;
  }

  /** Two ascending sequences with the same elements are equal. */
  lemma {:induction false} AscendingUnique<T(!new)>(before: (T, T) -> bool, s: seq<T>, t: seq<T>)
    requires StrictOrder(before) && Ascending(before, s) && Ascending(before, t)
    requires forall x :: x in s <==> x in t
    ensures s == t
  {
    BothEmpty(s, t);
    if s != [] {
      assert s[0] in s && t[0] in t;
      FirstAgrees(before, s, t);
      forall x ensures x in s[1..] <==> x in t[1..] {
        if x in s[1..] { TailKept(before, s, t, x); }
        if x in t[1..] { TailKept(before, t, s, x); }
      }
      AscendingUnique(before, s[1..], t[1..]);
    }
  }

  /** Sorting forgets the order the elements came in. */
  lemma SortUnique<T(!new)>(before: (T, T) -> bool, s: seq<T>, t: seq<T>)
    requires StrictOrder(before) && Separated(before, s) && Separated(before, t)
    requires forall x :: x in s <==> x in t
    ensures Sort(before, s) == Sort(before, t)
  {
    SortAscending(before, s);
    SortAscending(before, t);
    SortMembers(before, s);
    SortMembers(before, t);
    AscendingUnique(before, Sort(before, s), Sort(before, t));
  }
}
