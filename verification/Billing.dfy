/**
 * The billable day of one app: the segments the loop cuts from its billing events against what the fold
 * of those events says is installed in every millisecond.
 */
module Billing {
  import opened Wrappers
  import opened Sorting
  import opened Timeline

  /** What an installed app is billed for. */
  datatype Held = Held(resources: Resources, replicaCount: nat, storageBytes: Option<nat>)

  datatype Open = Open(since: int, held: Held)

  datatype Segment = Segment(since: int, end: int, held: Held)

  /** The billing part of an app's row; storage in byte-milliseconds. */
  datatype Row = Row(installedMs: int, memoryMb: int, milliCpus: int, tmpSizeMb: Option<int>, replicaCount: int, storageByteMs: int)

  predicate IsBilling(e: Event) {
    e.kind == Installed || e.kind == Uninstalled || e.kind == ReplicasChanged || e.kind == Resized || e.kind == Quarantined
  }

  function BillingOf(app: App): Event -> bool { (e: Event) => e.app == app && IsBilling(e) }

  function OrElse(a: Option<nat>, b: nat): nat { if a.Some? then a.value else b }

  /** What an event makes of the open interval; `None` is not installed. */
  function Next(open: Option<Open>, e: Event): Option<Open> {
    if e.kind == Installed then
      if open.Some? then open else Some(Open(e.at, Held(e.resources, OrElse(e.replicaCount, 1), e.storageBytes)))
    else if open.None? then None
    else if e.kind == ReplicasChanged || e.kind == Resized then
      Some(Open(e.at, Held(e.resources, OrElse(e.replicaCount, open.value.held.replicaCount), open.value.held.storageBytes)))
    else None
  }

  /** The segment an event closes, if it closes one. */
  function Closed(open: Option<Open>, e: Event): seq<Segment> {
    if open.None? || e.kind == Installed then [] else [Segment(open.value.since, e.at, open.value.held)]
  }

  /** The end of an interval that is still open: the end of accounting or the removal recorded for the app. */
  function CutEnd(since: int, removedAt: Option<int>, end: int): int {
    if removedAt.None? then end else Sooner(end, Later(since, removedAt.value))
  }

  function LastSegment(open: Option<Open>, removedAt: Option<int>, end: int): seq<Segment> {
    if open.None? then [] else [Segment(open.value.since, CutEnd(open.value.since, removedAt, end), open.value.held)]
  }

  function Segments(open: Option<Open>, events: seq<Event>, removedAt: Option<int>, end: int): seq<Segment>
    decreases |events|
  {
    if events == [] then LastSegment(open, removedAt, end)
    else Closed(open, events[0]) + Segments(Next(open, events[0]), events[1..], removedAt, end)
  }

  method CutSegments(sorted: seq<Event>, removedAt: Option<int>, end: int) returns (closed: seq<Segment>)
    requires forall i | 0 <= i < |sorted| :: IsBilling(sorted[i])
    ensures closed == Segments(None, sorted, removedAt, end)
  {
    closed := [];
    var open: Option<Open> := None;
    assert sorted[0..] == sorted;
    for n := 0 to |sorted|
      invariant closed + Segments(open, sorted[n..], removedAt, end) == Segments(None, sorted, removedAt, end)
    {
      var e := sorted[n];
      SegmentsTurn(closed, open, sorted[n..], removedAt, end);
      assert sorted[n..][1..] == sorted[n + 1..];
      if e.kind == Installed {
        if open.None? { open := Some(Open(e.at, Held(e.resources, OrElse(e.replicaCount, 1), e.storageBytes))); }
      } else if open.None? {
        continue;
      } else if e.kind == ReplicasChanged || e.kind == Resized {
        closed := closed + [Segment(open.value.since, e.at, open.value.held)];
        open := Some(Open(e.at, Held(e.resources, OrElse(e.replicaCount, open.value.held.replicaCount), open.value.held.storageBytes)));
      } else {
        closed := closed + [Segment(open.value.since, e.at, open.value.held)];
        open := None;
      }
    }
    if open.Some? {
      closed := closed + [Segment(open.value.since, CutEnd(open.value.since, removedAt, end), open.value.held)];
    }
  }

  lemma Regrouped<T>(a: seq<T>, b: seq<T>, c: seq<T>)
    ensures a + (b + c) == a + b + c && a + [] == a
  {
  }

  lemma SegmentsTurn(closed: seq<Segment>, open: Option<Open>, events: seq<Event>, removedAt: Option<int>, end: int)
    requires events != []
    ensures closed + Segments(open, events, removedAt, end)
         == (closed + Closed(open, events[0])) + Segments(Next(open, events[0]), events[1..], removedAt, end)
    ensures closed + [] == closed
  {
    Regrouped(closed, Closed(open, events[0]), Segments(Next(open, events[0]), events[1..], removedAt, end));
  }

  // ---- the row ----

  /** The part of a segment inside the window. */
  function Clip(s: Segment, start: int, end: int): Segment { Segment(Later(start, s.since), Sooner(end, s.end), s.held) }

  function Length(s: Segment, start: int, end: int): nat {
    var c := Clip(s, start, end);
    if c.end <= c.since then 0 else c.end - c.since
  }

  type Measure = Held -> int

  function One(): Measure { (h: Held) => 1 }
  function Memory(): Measure { (h: Held) => h.resources.memoryMb }
  function Cpus(): Measure { (h: Held) => h.resources.milliCpus }
  function Replicas(): Measure { (h: Held) => h.replicaCount }
  function Storage(): Measure { (h: Held) => OrElse(h.storageBytes, 0) }
  /** The scratch size, below zero when there is none. */
  function Tmp(): Measure { (h: Held) => if h.resources.tmpSizeMb.Some? then h.resources.tmpSizeMb.value else -1 }

  /** The length of the segments in the window, each weighted. */
  function Weighted(f: Measure, segments: seq<Segment>, start: int, end: int): int {
    if segments == [] then 0
    else Weighted(f, segments[..|segments| - 1], start, end) + f(segments[|segments| - 1].held) * Length(segments[|segments| - 1], start, end)
  }

  /** The largest value among the segments that reach into the window. */
  function Largest(f: Measure, floor: int, segments: seq<Segment>, start: int, end: int): int {
    if segments == [] then floor
    else
      var init, last := Largest(f, floor, segments[..|segments| - 1], start, end), segments[|segments| - 1];
      if Length(last, start, end) == 0 then init else Later(init, f(last.held))
  }

  function TmpOf(largest: int): Option<int> { if largest < 0 then None else Some(largest) }

  function RowOf(segments: seq<Segment>, start: int, end: int): Row {
    Row(Weighted(One(), segments, start, end), Largest(Memory(), 0, segments, start, end), Largest(Cpus(), 0, segments, start, end),
        TmpOf(Largest(Tmp(), -1, segments, start, end)), Largest(Replicas(), 0, segments, start, end), Weighted(Storage(), segments, start, end))
  }

  method BillSegments(segments: seq<Segment>, start: int, end: int) returns (row: Row)
    ensures row == RowOf(segments, start, end)
  {
    var installedMs, memoryMb, milliCpus, replicaCount, storageByteMs := 0, 0, 0, 0, 0;
    var tmpSizeMb: Option<int> := None;
    for n := 0 to |segments|
      invariant Row(installedMs, memoryMb, milliCpus, tmpSizeMb, replicaCount, storageByteMs) == RowOf(segments[..n], start, end)
    {
      var s := segments[n];
      assert segments[..n + 1][..n] == segments[..n];
      TmpFloor(segments[..n], start, end);
      var segStart, segEnd := Later(start, s.since), Sooner(end, s.end);
      if segEnd <= segStart {
        continue;
      }
      var ms := segEnd - segStart;
      installedMs := installedMs + ms;
      memoryMb := Later(memoryMb, s.held.resources.memoryMb);
      milliCpus := Later(milliCpus, s.held.resources.milliCpus);
      if s.held.resources.tmpSizeMb.Some? {
        tmpSizeMb := Some(Later(if tmpSizeMb.Some? then tmpSizeMb.value else 0, s.held.resources.tmpSizeMb.value));
      }
      replicaCount := Later(replicaCount, s.held.replicaCount);
      if s.held.storageBytes.Some? && s.held.storageBytes.value > 0 {
        storageByteMs := storageByteMs + s.held.storageBytes.value * ms;
      }
    }
    assert segments[..|segments|] == segments;
    row := Row(installedMs, memoryMb, milliCpus, tmpSizeMb, replicaCount, storageByteMs);
  }

  lemma {:induction false} TmpFloor(segments: seq<Segment>, start: int, end: int)
    ensures Largest(Tmp(), -1, segments, start, end) >= -1
  {
    if segments != [] { TmpFloor(segments[..|segments| - 1], start, end); }
  }

  // ---- the reference ----

  function FoldOpen(open: Option<Open>, events: seq<Event>): Option<Open>
    decreases |events|
  {
    if events == [] then open else FoldOpen(Next(open, events[0]), events[1..])
  }

  /**
   * What is billed in the millisecond that starts at `t`: what the events up to `t` leave installed, except
   * that an interval no event ever closes is cut at the removal recorded for the app.
   */
  function BilledAt(open: Option<Open>, events: seq<Event>, removedAt: Option<int>, t: int): Option<Held> {
    var now, last := FoldOpen(open, Filter(Until(t), events)), FoldOpen(open, events);
    if now.None? || (last.Some? && removedAt.Some? && t >= Later(last.value.since, removedAt.value)) then None else Some(now.value.held)
  }

  predicate Covers(s: Segment, t: int) { s.since <= t < s.end }

  /** What the first segment around `t` holds. */
  function CoverAt(segments: seq<Segment>, t: int): Option<Held> {
    if segments == [] then None
    else if Covers(segments[0], t) then Some(segments[0].held)
    else CoverAt(segments[1..], t)
  }

  /** Segments follow each other without overlap. */
  ghost predicate Apart(segments: seq<Segment>) { forall i, j | 0 <= i < j < |segments| :: segments[i].end <= segments[j].since }

  /** Events in time order, none before the open interval began. */
  ghost predicate Ready(open: Option<Open>, events: seq<Event>) {
    TimeOrdered(events) && (open.Some? ==> forall i | 0 <= i < |events| :: events[i].at >= open.value.since)
  }

  ghost predicate NotBefore(open: Option<Open>, events: seq<Event>, lo: int) {
    (open.Some? ==> open.value.since >= lo) && forall i | 0 <= i < |events| :: events[i].at >= lo
  }

  lemma ReadyNext(open: Option<Open>, events: seq<Event>)
    requires Ready(open, events) && events != []
    ensures Ready(Next(open, events[0]), events[1..])
    ensures open.None? || events[0].kind != Installed ==> NotBefore(Next(open, events[0]), events[1..], events[0].at)
  {
    forall i | 0 <= i < |events[1..]| ensures events[1..][i].at >= events[0].at && (open.Some? ==> events[1..][i].at >= open.value.since) {
      assert events[1..][i] == events[i + 1];
    }
  }

  lemma NotBeforeNext(open: Option<Open>, events: seq<Event>, lo: int)
    requires NotBefore(open, events, lo) && events != []
    ensures NotBefore(Next(open, events[0]), events[1..], lo)
  {
  }

  lemma {:induction false} SegmentsNotBefore(open: Option<Open>, events: seq<Event>, removedAt: Option<int>, end: int, lo: int)
    requires NotBefore(open, events, lo)
    ensures forall i | 0 <= i < |Segments(open, events, removedAt, end)| :: Segments(open, events, removedAt, end)[i].since >= lo
    decreases |events|
  {
    if events != [] {
      NotBeforeNext(open, events, lo);
      SegmentsNotBefore(Next(open, events[0]), events[1..], removedAt, end, lo);
    }
  }

  lemma {:induction false} NoCoverBefore(segments: seq<Segment>, t: int)
    requires forall i | 0 <= i < |segments| :: segments[i].since > t
    ensures CoverAt(segments, t) == None
  {
    if segments != [] { NoCoverBefore(segments[1..], t); }
  }

  lemma {:induction false} FoldNotBefore(open: Option<Open>, events: seq<Event>, lo: int)
    requires NotBefore(open, events, lo)
    ensures FoldOpen(open, events).Some? ==> FoldOpen(open, events).value.since >= lo
    decreases |events|
  {
    if events != [] {
      NotBeforeNext(open, events, lo);
      FoldNotBefore(Next(open, events[0]), events[1..], lo);
    }
  }

  /** The segments never overlap. */
  lemma {:induction false} SegmentsApart(open: Option<Open>, events: seq<Event>, removedAt: Option<int>, end: int)
    requires Ready(open, events)
    ensures Apart(Segments(open, events, removedAt, end))
    decreases |events|
  {
    if events != [] {
      ReadyNext(open, events);
      var tail := Segments(Next(open, events[0]), events[1..], removedAt, end);
      SegmentsApart(Next(open, events[0]), events[1..], removedAt, end);
      if Closed(open, events[0]) != [] {
        SegmentsNotBefore(Next(open, events[0]), events[1..], removedAt, end, events[0].at);
        ApartCons(Closed(open, events[0])[0], tail);
      } else {
        assert [] + tail == tail;
      }
    }
  }

  lemma ApartCons(s: Segment, tail: seq<Segment>)
    requires Apart(tail) && forall i | 0 <= i < |tail| :: tail[i].since >= s.end
    ensures Apart([s] + tail)
  {
  }

  lemma NoneUntil(events: seq<Event>, t: int)
    requires TimeOrdered(events) && events != [] && t < events[0].at
    ensures Filter(Until(t), events) == []
  {
    UntilNone(events, t);
  }

  lemma PassedEvent(open: Option<Open>, events: seq<Event>, removedAt: Option<int>, t: int)
    requires events != [] && events[0].at <= t
    ensures BilledAt(open, events, removedAt, t) == BilledAt(Next(open, events[0]), events[1..], removedAt, t)
  {
    var f := Filter(Until(t), events);
    assert f[0] == events[0] && f[1..] == Filter(Until(t), events[1..]);
  }

  lemma CoverCons(s: Segment, tail: seq<Segment>, t: int)
    ensures CoverAt([s] + tail, t) == if Covers(s, t) then Some(s.held) else CoverAt(tail, t)
  {
    assert ([s] + tail)[1..] == tail;
  }

  /** In every millisecond accounted, the segments hold exactly what is billed. */
  lemma {:induction false} CoverIsBilled(open: Option<Open>, events: seq<Event>, removedAt: Option<int>, end: int, t: int)
    requires Ready(open, events) && t < end && (open.Some? ==> t >= open.value.since)
    ensures CoverAt(Segments(open, events, removedAt, end), t) == BilledAt(open, events, removedAt, t)
    decreases |events|
  {
    if events == [] {
      LastCovers(open, removedAt, end, t);
    } else {
      ReadyNext(open, events);
      if t < events[0].at {
        CoverBeforeEvent(open, events, removedAt, end, t);
      } else {
        PassedEvent(open, events, removedAt, t);
        CoverIsBilled(Next(open, events[0]), events[1..], removedAt, end, t);
        var tail := Segments(Next(open, events[0]), events[1..], removedAt, end);
        if Closed(open, events[0]) == [] {
          assert [] + tail == tail;
        } else {
          CoverCons(Closed(open, events[0])[0], tail, t);
        }
      }
    }
  }

  lemma LastCovers(open: Option<Open>, removedAt: Option<int>, end: int, t: int)
    requires t < end && (open.Some? ==> t >= open.value.since)
    ensures CoverAt(Segments(open, [], removedAt, end), t) == BilledAt(open, [], removedAt, t)
  {
    if open.Some? { CoverCons(Segment(open.value.since, CutEnd(open.value.since, removedAt, end), open.value.held), [], t); }
  }

  lemma CoverBeforeEvent(open: Option<Open>, events: seq<Event>, removedAt: Option<int>, end: int, t: int)
    requires Ready(open, events) && t < end && (open.Some? ==> t >= open.value.since) && events != [] && t < events[0].at
    ensures CoverAt(Segments(open, events, removedAt, end), t) == BilledAt(open, events, removedAt, t)
    decreases |events|, 0
  {
    NoneUntil(events, t);
    ReadyNext(open, events);
    var next, rest := Next(open, events[0]), events[1..];
    var tail := Segments(next, rest, removedAt, end);
    if open.Some? && events[0].kind == Installed {
      assert [] + tail == tail;
      CoverIsBilled(open, rest, removedAt, end, t);
      if rest != [] { NoneUntil(rest, t); }
    } else {
      FoldNotBefore(next, rest, events[0].at);
      SegmentsNotBefore(next, rest, removedAt, end, events[0].at);
      NoCoverBefore(tail, t);
      if open.None? {
        assert [] + tail == tail;
      } else {
        CoverCons(Closed(open, events[0])[0], tail, t);
      }
    }
  }
}
