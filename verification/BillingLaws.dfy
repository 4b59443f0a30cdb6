/** An app's billed day as a function of what is installed in each millisecond. */
module BillingLaws {
  import opened Wrappers
  import opened Sorting
  import opened Timeline
  import opened Billing

  type Log = int -> Option<Held>

  /** The value of a measure in each millisecond, nothing where nothing is billed. */
  function ValueAt(f: Measure, log: Log): int -> int { (t: int) => if log(t).Some? then f(log(t).value) else 0 }

  /** `m` is the largest value of the measure in the window, or the floor if that is larger or nothing is billed. */
  ghost predicate Peak(f: Measure, floor: int, log: Log, start: int, end: int, m: int) {
    && m >= floor
    && (forall t | start <= t < end && log(t).Some? :: f(log(t).value) <= m)
    && (m == floor || exists t :: start <= t < end && log(t).Some? && f(log(t).value) == m)
  }

  /** What the row promises: time billed, storage summed over it, and the peaks of the resources. */
  ghost predicate Describes(row: Row, log: Log, start: int, end: int) {
    && row.installedMs == Each(ValueAt(One(), log), start, end)
    && row.storageByteMs == Each(ValueAt(Storage(), log), start, end)
    && Peak(Memory(), 0, log, start, end, row.memoryMb) && Peak(Cpus(), 0, log, start, end, row.milliCpus)
    && Peak(Replicas(), 0, log, start, end, row.replicaCount)
    && (exists m :: Peak(Tmp(), -1, log, start, end, m) && row.tmpSizeMb == TmpOf(m))
  }

  function CoverLog(segments: seq<Segment>): Log { (t: int) => CoverAt(segments, t) }

  function BilledLog(events: seq<Event>, removedAt: Option<int>): Log { (t: int) => BilledAt(None, events, removedAt, t) }

  // ---- sums ----

  lemma {:induction false} EachAdds(f: int -> int, g: int -> int, h: int -> int, lo: int, hi: int)
    requires forall t | lo <= t < hi :: h(t) == f(t) + g(t)
    ensures Each(h, lo, hi) == Each(f, lo, hi) + Each(g, lo, hi)
    decreases hi - lo
  {
    if lo < hi { EachAdds(f, g, h, lo, hi - 1); }
  }

  function Alone(c: int, s: Segment): int -> int { (t: int) => if Covers(s, t) then c else 0 }

  /** One segment counts for as long as it reaches into the window. */
  lemma EachAlone(c: int, s: Segment, start: int, end: int)
    requires start <= end
    ensures Each(Alone(c, s), start, end) == c * Length(s, start, end)
  {
    var lo, hi := Sooner(Later(start, s.since), end), Sooner(s.end, end);
    if lo < hi {
      EachJoins(Alone(c, s), start, lo, end);
      EachJoins(Alone(c, s), lo, hi, end);
      EachConstant(Alone(c, s), 0, start, lo);
      EachConstant(Alone(c, s), c, lo, hi);
      EachConstant(Alone(c, s), 0, hi, end);
    } else {
      EachConstant(Alone(c, s), 0, start, end);
    }
  }

  lemma {:induction false} CoverInit(segments: seq<Segment>, t: int)
    requires Apart(segments) && segments != []
    ensures var init, last := segments[..|segments| - 1], segments[|segments| - 1];
            && Apart(init)
            && CoverAt(segments, t) == (if CoverAt(init, t).Some? then CoverAt(init, t) else if Covers(last, t) then Some(last.held) else None)
            && (CoverAt(init, t).Some? ==> !Covers(last, t))
  {
    var init, last := segments[..|segments| - 1], segments[|segments| - 1];
    if |segments| == 1 {
      CoverCons(last, [], t);
      assert segments == [last] + [];
    } else {
      ApartTail(segments);
      CoverInit(segments[1..], t);
      assert init[1..] == segments[1..][..|segments| - 2];
      assert segments[0].end <= last.since;
    }
  }

  lemma ApartTail(segments: seq<Segment>)
    requires Apart(segments) && segments != []
    ensures Apart(segments[1..])
  {
    forall i, j | 0 <= i < j < |segments[1..]| ensures segments[1..][i].end <= segments[1..][j].since {
      assert segments[1..][i] == segments[i + 1] && segments[1..][j] == segments[j + 1];
    }
  }

  /** The weighted length of segments apart is the sum over the milliseconds they cover. */
  lemma {:induction false} WeightedIsEach(f: Measure, segments: seq<Segment>, start: int, end: int)
    requires Apart(segments) && start <= end
    ensures Weighted(f, segments, start, end) == Each(ValueAt(f, CoverLog(segments)), start, end)
  {
    if segments == [] {
      EachConstant(ValueAt(f, CoverLog(segments)), 0, start, end);
    } else {
      var init, last := segments[..|segments| - 1], segments[|segments| - 1];
      CoverInit(segments, start);
      WeightedIsEach(f, init, start, end);
      EachAlone(f(last.held), last, start, end);
      forall t | start <= t < end
        ensures ValueAt(f, CoverLog(segments))(t) == ValueAt(f, CoverLog(init))(t) + Alone(f(last.held), last)(t)
      {
        CoverInit(segments, t);
      }
      EachAdds(ValueAt(f, CoverLog(init)), Alone(f(last.held), last), ValueAt(f, CoverLog(segments)), start, end);
    }
  }

  // ---- peaks ----

  lemma {:induction false} LargestIsPeak(f: Measure, floor: int, segments: seq<Segment>, start: int, end: int)
    requires Apart(segments)
    ensures Peak(f, floor, CoverLog(segments), start, end, Largest(f, floor, segments, start, end))
  {
    if segments != [] {
      CoverInit(segments, start);
      LargestIsPeak(f, floor, segments[..|segments| - 1], start, end);
      PeakGrows(f, floor, segments, start, end);
    }
  }

  lemma PeakGrows(f: Measure, floor: int, segments: seq<Segment>, start: int, end: int)
    requires Apart(segments) && segments != []
    requires var init := segments[..|segments| - 1]; Peak(f, floor, CoverLog(init), start, end, Largest(f, floor, init, start, end))
    ensures Peak(f, floor, CoverLog(segments), start, end, Largest(f, floor, segments, start, end))
  {
    var init, last := segments[..|segments| - 1], segments[|segments| - 1];
    var was, m := Largest(f, floor, init, start, end), Largest(f, floor, segments, start, end);
    forall t | start <= t < end && CoverLog(segments)(t).Some? ensures f(CoverLog(segments)(t).value) <= m {
      CoverInit(segments, t);
      assert CoverLog(init)(t) == CoverAt(init, t);
    }
    if m != floor {
      if m == was {
        var t :| start <= t < end && CoverLog(init)(t).Some? && f(CoverLog(init)(t).value) == m;
        CoverInit(segments, t);
        assert CoverLog(segments)(t).Some? && f(CoverLog(segments)(t).value) == m;
      } else {
        var t := Later(start, last.since);
        CoverInit(segments, t);
        assert CoverLog(segments)(t).Some? && f(CoverLog(segments)(t).value) == m;
      }
    }
  }

  lemma PeakUnique(f: Measure, floor: int, log: Log, start: int, end: int, m: int, n: int)
    requires Peak(f, floor, log, start, end, m) && Peak(f, floor, log, start, end, n)
    ensures m == n
  {
  }

  lemma PeakCarries(f: Measure, floor: int, log: Log, other: Log, start: int, end: int, m: int)
    requires Peak(f, floor, log, start, end, m) && forall t | start <= t < end :: log(t) == other(t)
    ensures Peak(f, floor, other, start, end, m)
  {
    if m != floor {
      var t :| start <= t < end && log(t).Some? && f(log(t).value) == m;
      assert other(t).Some? && f(other(t).value) == m;
    }
  }

  // ---- the row ----

  lemma RowDescribes(segments: seq<Segment>, log: Log, start: int, end: int)
    requires Apart(segments) && start <= end && forall t | start <= t < end :: CoverLog(segments)(t) == log(t)
    ensures Describes(RowOf(segments, start, end), log, start, end)
  {
    var cover := CoverLog(segments);
    WeightedIsEach(One(), segments, start, end);
    WeightedIsEach(Storage(), segments, start, end);
    EachSame(ValueAt(One(), cover), ValueAt(One(), log), start, end);
    EachSame(ValueAt(Storage(), cover), ValueAt(Storage(), log), start, end);
    PeakOf(Memory(), 0, segments, log, start, end);
    PeakOf(Cpus(), 0, segments, log, start, end);
    PeakOf(Replicas(), 0, segments, log, start, end);
    PeakOf(Tmp(), -1, segments, log, start, end);
  }

  lemma PeakOf(f: Measure, floor: int, segments: seq<Segment>, log: Log, start: int, end: int)
    requires Apart(segments) && forall t | start <= t < end :: CoverLog(segments)(t) == log(t)
    ensures Peak(f, floor, log, start, end, Largest(f, floor, segments, start, end))
  {
    LargestIsPeak(f, floor, segments, start, end);
    PeakCarries(f, floor, CoverLog(segments), log, start, end, Largest(f, floor, segments, start, end));
  }

  /** Two rows for the same milliseconds are the same row. */
  lemma DescribesUnique(row: Row, other: Row, log: Log, start: int, end: int)
    requires Describes(row, log, start, end) && Describes(other, log, start, end)
    ensures row == other
  {
    PeakUnique(Memory(), 0, log, start, end, row.memoryMb, other.memoryMb);
    PeakUnique(Cpus(), 0, log, start, end, row.milliCpus, other.milliCpus);
    PeakUnique(Replicas(), 0, log, start, end, row.replicaCount, other.replicaCount);
    var m :| Peak(Tmp(), -1, log, start, end, m) && row.tmpSizeMb == TmpOf(m);
    var n :| Peak(Tmp(), -1, log, start, end, n) && other.tmpSizeMb == TmpOf(n);
    PeakUnique(Tmp(), -1, log, start, end, m, n);
  }

  // ---- one app's day ----

  /** The app's billing events in time order. */
  function AppLog(events: seq<Event>, app: App): seq<Event> { InTimeOrder(Filter(BillingOf(app), events)) }

  function AppRow(events: seq<Event>, app: App, removedAt: Option<int>, start: int, end: int): Row {
    RowOf(Segments(None, AppLog(events, app), removedAt, end), start, end)
  }

  /** The row's time is the number of milliseconds in which the app is billed, and so on for its other fields. */
  lemma BilledIsInstalled(events: seq<Event>, app: App, removedAt: Option<int>, start: int, end: int)
    requires start <= end
    ensures Describes(AppRow(events, app, removedAt, start, end), BilledLog(AppLog(events, app), removedAt), start, end)
    ensures Apart(Segments(None, AppLog(events, app), removedAt, end))
  {
    var log := AppLog(events, app);
    var segments := Segments(None, log, removedAt, end);
    InTimeOrderIs(Filter(BillingOf(app), events));
    SegmentsApart(None, log, removedAt, end);
    forall t | start <= t < end ensures CoverLog(segments)(t) == BilledLog(log, removedAt)(t) {
      CoverIsBilled(None, log, removedAt, end, t);
    }
    RowDescribes(segments, BilledLog(log, removedAt), start, end);
  }

  lemma {:induction false} EachBounded(f: int -> int, lo: int, hi: int)
    requires lo <= hi && forall t | lo <= t < hi :: 0 <= f(t) <= 1
    ensures 0 <= Each(f, lo, hi) <= hi - lo
    decreases hi - lo
  {
    if lo < hi { EachBounded(f, lo, hi - 1); }
  }

  lemma LateEventsFiltered(events: seq<Event>, late: seq<Event>, app: App, end: int, t: int)
    requires t < end && forall i | 0 <= i < |late| :: late[i].at >= end
    ensures Filter(Until(t), AppLog(events + late, app)) == Filter(Until(t), AppLog(events, app))
  {
    var both := (e: Event) => BillingOf(app)(e) && e.at <= t;
    FilterSort(Until(t), Before, Filter(BillingOf(app), events + late));
    FilterSort(Until(t), Before, Filter(BillingOf(app), events));
    FilterTwice(Until(t), BillingOf(app), both, events + late);
    FilterTwice(Until(t), BillingOf(app), both, events);
    FilterAppend(both, events, late);
    NoneKept(both, late);
    assert Filter(both, events) + [] == Filter(both, events);
  }

  lemma {:induction false} NoneKept<T(!new)>(p: T -> bool, s: seq<T>)
    requires forall i | 0 <= i < |s| :: !p(s[i])
    ensures Filter(p, s) == []
  {
    if s != [] { NoneKept(p, s[1..]); }
  }
}
