/** Lifecycle events in time order, sums over maps and sums over the milliseconds of a window. */
module Timeline {
  import opened Wrappers
  import opened Sorting

  type App = string

  datatype Kind = Installed | Uninstalled | ReplicasChanged | Resized | Quarantined | Started | Redeployed | Stopped | Removed

  /** Memory in MB and CPU shares in thousandths; the scratch size is optional. */
  datatype Resources = Resources(memoryMb: nat, milliCpus: nat, tmpSizeMb: Option<nat>)

  /** `at` is in milliseconds. Only some events carry a replica count or a storage size. */
  datatype Event = Event(
    app: App, replica: string, kind: Kind, at: int,
    resources: Resources, replicaCount: Option<nat>, storageBytes: Option<nat>)

  const DAY_MS: nat := 86_400_000

  /** The end of what is accounted of the day that starts at `start`, seen at `asOf`. */
  function AccountingEnd(start: int, asOf: int): (r: int)
    ensures start <= r <= start + DAY_MS
  {
    var late := if asOf > start then asOf else start;
    if late < start + DAY_MS then late else start + DAY_MS
  }

  function Later(a: int, b: int): int { if a >= b then a else b }

  function Sooner(a: int, b: int): int { if a <= b then a else b }

  // ---- time order ----

  predicate Before(e: Event, f: Event) { e.at < f.at }

  function InTimeOrder(events: seq<Event>): seq<Event> { Sort(Before, events) }

  ghost predicate TimeOrdered(events: seq<Event>) { forall i, j | 0 <= i < j < |events| :: events[i].at <= events[j].at }

  lemma InTimeOrderIs(events: seq<Event>)
    ensures TimeOrdered(InTimeOrder(events))
  {
    SortSorted(Before, events);
  }

  function Until(t: int): Event -> bool { (e: Event) => e.at <= t }

  lemma {:induction false} UntilNone(events: seq<Event>, t: int)
    requires forall i | 0 <= i < |events| :: events[i].at > t
    ensures Filter(Until(t), events) == []
  {
    if events != [] { UntilNone(events[1..], t); }
  }

  // ---- filters and the sort ----

  lemma {:induction false} FilterSnoc<T(!new)>(p: T -> bool, s: seq<T>)
    requires s != []
    ensures Filter(p, s) == Filter(p, s[..|s| - 1]) + if p(s[|s| - 1]) then [s[|s| - 1]] else []
  {
    FilterAppend(p, s[..|s| - 1], [s[|s| - 1]]);
    assert s == s[..|s| - 1] + [s[|s| - 1]];
    assert [s[|s| - 1]][1..] == [];
  }

  lemma InsertSnoc<T(!new)>(before: (T, T) -> bool, x: T, init: seq<T>, last: T)
    ensures Insert(before, x, init + [last]) == if before(x, last) then Insert(before, x, init) + [last] else init + [last] + [x]
  {
    assert (init + [last])[..|init|] == init;
  }

  lemma SortSnoc<T(!new)>(before: (T, T) -> bool, init: seq<T>, last: T)
    ensures Sort(before, init + [last]) == Insert(before, last, Sort(before, init))
  {
    assert (init + [last])[..|init|] == init;
  }

  lemma {:induction false} FilterInsert<T(!new)>(p: T -> bool, before: (T, T) -> bool, x: T, s: seq<T>)
    requires WeakOrder(before) && Sorted(before, s)
    ensures Filter(p, Insert(before, x, s)) == if p(x) then Insert(before, x, Filter(p, s)) else Filter(p, s)
  {
    if s == [] {
      assert [x][1..] == [];
    } else {
      var init, last := s[..|s| - 1], s[|s| - 1];
      FilterSnoc(p, s);
      if before(x, last) {
        FilterInsert(p, before, x, init);
        var r := Insert(before, x, s);
        assert r[..|r| - 1] == Insert(before, x, init) && r[|r| - 1] == last;
        FilterSnoc(p, r);
        InsertSnoc(before, x, Filter(p, init), last);
        assert !p(last) ==> Filter(p, s) == Filter(p, init);
      } else {
        assert (s + [x])[..|s|] == s && (s + [x])[|s|] == x;
        FilterSnoc(p, s + [x]);
        NothingLater(p, before, x, s);
      }
    }
  }

  /** Whatever is kept of a sorted sequence that `x` need not precede, `x` need not precede either. */
  lemma NothingLater<T(!new)>(p: T -> bool, before: (T, T) -> bool, x: T, s: seq<T>)
    requires WeakOrder(before) && Sorted(before, s) && s != [] && !before(x, s[|s| - 1])
    ensures Insert(before, x, Filter(p, s)) == Filter(p, s) + [x]
  {
    var f := Filter(p, s);
    if f != [] {
      assert f[|f| - 1] in f;
      var k :| 0 <= k < |s| && s[k] == f[|f| - 1];
      assert k < |s| - 1 ==> !before(s[|s| - 1], s[k]);
      assert !before(x, s[k]);
    }
    hide Filter, Sorted, WeakOrder;
  }

  /** The stable sort and a filter may change places. */
  lemma {:induction false} FilterSort<T(!new)>(p: T -> bool, before: (T, T) -> bool, s: seq<T>)
    requires WeakOrder(before)
    ensures Filter(p, Sort(before, s)) == Sort(before, Filter(p, s))
  {
    if s != [] {
      var init, last := s[..|s| - 1], s[|s| - 1];
      FilterSort(p, before, init);
      SortSorted(before, init);
      FilterInsert(p, before, last, Sort(before, init));
      FilterSnoc(p, s);
      SortSnoc(before, Filter(p, init), last);
      assert !p(last) ==> Filter(p, s) == Filter(p, init);
    }
  }

  lemma {:induction false} FilterTwice<T(!new)>(p: T -> bool, q: T -> bool, r: T -> bool, s: seq<T>)
    requires forall x :: r(x) <==> p(x) && q(x)
    ensures Filter(p, Filter(q, s)) == Filter(r, s)
  {
    if s != [] {
      FilterTwice(p, q, r, s[1..]);
      if q(s[0]) { assert ([s[0]] + Filter(q, s[1..]))[1..] == Filter(q, s[1..]); }
    }
  }

  // ---- sums ----

  /** The sum of `f` over a map. */
  ghost function Total<K(!new), V(!new)>(f: (K, V) -> int, m: map<K, V>): int
    decreases |m|
  {
    if m == map[] then 0 else
      var k :| k in m;
      f(k, m[k]) + Total(f, m - {k})
  }

  lemma {:induction false} TotalWithout<K(!new), V(!new)>(f: (K, V) -> int, m: map<K, V>, k: K)
    requires k in m
    ensures Total(f, m) == f(k, m[k]) + Total(f, m - {k})
    decreases |m|
  {
    var j :| j in m && Total(f, m) == f(j, m[j]) + Total(f, m - {j});
    if j != k {
      TotalWithout(f, m - {j}, k);
      TotalWithout(f, m - {k}, j);
      assert m - {j} - {k} == m - {k} - {j};
    }
  }

  lemma TotalPut<K(!new), V(!new)>(f: (K, V) -> int, m: map<K, V>, k: K, v: V)
    ensures Total(f, m[k := v]) == f(k, v) + Total(f, m - {k})
  {
    TotalWithout(f, m[k := v], k);
    assert m[k := v] - {k} == m - {k};
  }

  lemma TotalDrop<K(!new), V(!new)>(f: (K, V) -> int, m: map<K, V>, k: K)
    ensures Total(f, m) == Total(f, m - {k}) + if k in m then f(k, m[k]) else 0
  {
    if k in m {
      TotalWithout(f, m, k);
    } else {
      assert m - {k} == m;
    }
  }

  /** The sum of `f` over the milliseconds from `lo` up to, not including, `hi`. */
  ghost function Each(f: int -> int, lo: int, hi: int): int
    decreases hi - lo
  {
    if lo >= hi then 0 else Each(f, lo, hi - 1) + f(hi - 1)
  }

  lemma {:induction false} EachJoins(f: int -> int, a: int, b: int, c: int)
    requires a <= b <= c
    ensures Each(f, a, c) == Each(f, a, b) + Each(f, b, c)
    decreases c - b
  {
    if b < c { EachJoins(f, a, b, c - 1); }
  }

  lemma {:induction false} EachSame(f: int -> int, g: int -> int, lo: int, hi: int)
    requires forall t | lo <= t < hi :: f(t) == g(t)
    ensures Each(f, lo, hi) == Each(g, lo, hi)
    decreases hi - lo
  {
    if lo < hi { EachSame(f, g, lo, hi - 1); }
  }

  lemma {:induction false} EachConstant(f: int -> int, c: int, lo: int, hi: int)
    requires lo <= hi && forall t | lo <= t < hi :: f(t) == c
    ensures Each(f, lo, hi) == c * (hi - lo)
    decreases hi - lo
  {
    if lo < hi { EachConstant(f, c, lo, hi - 1); }
  }
}
