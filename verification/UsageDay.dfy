/**
 * One day of a workspace: apps with billing events are billed by their segments, apps from before there were
 * such events by the life of their document; and what events that arrive late can change.
 */
module UsageDay {
  import opened Wrappers
  import opened Sorting
  import opened Timeline
  import opened Billing
  import opened BillingLaws

  /** An app's document; a removed one keeps the time of its removal in `updatedAt`. */
  datatype Doc = Doc(app: App, removed: bool, createdAt: int, updatedAt: int, resources: Resources, replicas: nat, storageBytes: nat)

  // ---- apps without billing events ----

  /** The removal time of the last removed document of an app. */
  function RemovedAt(docs: seq<Doc>, app: App): Option<int> {
    if docs == [] then None
    else
      var last := docs[|docs| - 1];
      if last.app == app && last.removed then Some(last.updatedAt) else RemovedAt(docs[..|docs| - 1], app)
  }

  predicate EverStarted(events: seq<Event>, app: App) { exists i :: 0 <= i < |events| && events[i].app == app && events[i].kind == Started }

  function RemovalAfter(app: App, created: int): Event -> bool { (e: Event) => e.app == app && e.kind == Removed && e.at > created }

  /** The earliest time among the events. */
  function Earliest(events: seq<Event>): Option<int> {
    if events == [] then None
    else
      var first := Earliest(events[1..]);
      if first.Some? then Some(Sooner(events[0].at, first.value)) else Some(events[0].at)
  }

  /** The first removal event after the creation of a document. */
  function FirstRemoval(events: seq<Event>, doc: Doc): Option<int> { Earliest(Filter(RemovalAfter(doc.app, doc.createdAt), events)) }

  /** When the life of a document ended: at that event, or as recorded. */
  function LifeEnd(events: seq<Event>, doc: Doc, recorded: Option<int>): Option<int> {
    var first := FirstRemoval(events, doc);
    if first.Some? then first else recorded
  }

  /** The window of a document's life inside the day. */
  function LifeRow(doc: Doc, lifeEnd: Option<int>, start: int, end: int): Option<Row> {
    var from, until := Later(start, doc.createdAt), if lifeEnd.Some? then Sooner(end, lifeEnd.value) else end;
    if until <= from then None
    else
      Some(Row(until - from, doc.resources.memoryMb, doc.resources.milliCpus,
               if doc.resources.tmpSizeMb.Some? then Some(doc.resources.tmpSizeMb.value) else None,
               Later(doc.replicas, 1), doc.storageBytes * (until - from)))
  }

  /** A later document's row replaces an earlier one's, but without storage of its own it leaves the storage there. */
  function Over(row: Option<Row>, doc: Doc, life: Row): Row {
    if row.Some? && doc.storageBytes == 0 then life.(storageByteMs := row.value.storageByteMs) else life
  }

  function Turn(row: Option<Row>, events: seq<Event>, doc: Doc, recorded: Option<int>, start: int, end: int): Option<Row> {
    var life := LifeRow(doc, LifeEnd(events, doc, recorded), start, end);
    if life.Some? then Some(Over(row, doc, life.value)) else row
  }

  /** What an app without billing events is billed: nothing before it ever started, else its documents with a life in the day. */
  function LegacyRow(events: seq<Event>, docs: seq<Doc>, recorded: Option<int>, app: App, start: int, end: int): Option<Row> {
    if docs == [] || !EverStarted(events, app) then None
    else
      var last, row := docs[|docs| - 1], LegacyRow(events, docs[..|docs| - 1], recorded, app, start, end);
      if last.app == app then Turn(row, events, last, recorded, start, end) else row
  }

  predicate Lives(doc: Doc, lifeEnd: Option<int>, t: int) { doc.createdAt <= t && (lifeEnd.Some? ==> t < lifeEnd.value) }

  function LifeAt(doc: Doc, lifeEnd: Option<int>): int -> int { (t: int) => if Lives(doc, lifeEnd, t) then 1 else 0 }

  /** A document is billed for the milliseconds of the day it lived in, and not at all if there are none. */
  lemma BilledIsLived(doc: Doc, lifeEnd: Option<int>, start: int, end: int)
    requires start <= end
    ensures (if LifeRow(doc, lifeEnd, start, end).Some? then LifeRow(doc, lifeEnd, start, end).value.installedMs else 0)
         == Each(LifeAt(doc, lifeEnd), start, end)
  {
    var life := Segment(doc.createdAt, if lifeEnd.Some? then lifeEnd.value else end, Held(doc.resources, doc.replicas, None));
    EachAlone(1, life, start, end);
    EachSame(Alone(1, life), LifeAt(doc, lifeEnd), start, end);
  }

  // ---- the day ----

  predicate HasBilling(events: seq<Event>, app: App) { Filter(BillingOf(app), events) != [] }

  /** The billing part of an app's row of the day, if it has one. */
  function DayRow(events: seq<Event>, docs: seq<Doc>, app: App, start: int, end: int): Option<Row> {
    if HasBilling(events, app) then
      var row := AppRow(events, app, RemovedAt(docs, app), start, end);
      if row.installedMs > 0 then Some(row) else None
    else LegacyRow(events, docs, RemovedAt(docs, app), app, start, end)
  }

  lemma {:induction false} LegacyBounded(events: seq<Event>, docs: seq<Doc>, recorded: Option<int>, app: App, start: int, end: int)
    requires start <= end
    ensures LegacyRow(events, docs, recorded, app, start, end).Some? ==>
              0 < LegacyRow(events, docs, recorded, app, start, end).value.installedMs <= end - start
  {
    if docs != [] { LegacyBounded(events, docs[..|docs| - 1], recorded, app, start, end); }
  }

  /** A billed app is billed for more than nothing and at most a day. */
  lemma FractionOfDay(events: seq<Event>, docs: seq<Doc>, app: App, start: int, asOf: int)
    ensures var row := DayRow(events, docs, app, start, AccountingEnd(start, asOf));
            row.Some? ==> 0 < row.value.installedMs <= DAY_MS
  {
    hide AppRow, LegacyRow, RemovedAt, AppLog, HasBilling;
    var end := AccountingEnd(start, asOf);
    BilledIsInstalled(events, app, RemovedAt(docs, app), start, end);
    EachBounded(ValueAt(One(), BilledLog(AppLog(events, app), RemovedAt(docs, app))), start, end);
    LegacyBounded(events, docs, RemovedAt(docs, app), app, start, end);
  }

  // ---- the last open interval ----

  /** An event that closes or re-bases an open interval, from `lo` on. */
  predicate Closes(e: Event, lo: int) { e.kind != Installed && e.at >= lo }

  ghost predicate HasCloser(log: seq<Event>, lo: int) { exists i :: 0 <= i < |log| && Closes(log[i], lo) }

  lemma LaterOnly(log: seq<Event>, lo: int)
    requires TimeOrdered(log) && log != [] && log[0].at >= lo
    ensures forall i | 0 <= i < |log| :: log[i].at >= lo
  {
  }

  lemma TailOrdered(log: seq<Event>)
    requires TimeOrdered(log) && log != []
    ensures TimeOrdered(log[1..])
  {
    forall i, j | 0 <= i < j < |log[1..]| ensures log[1..][i].at <= log[1..][j].at {
      assert log[1..][i] == log[i + 1] && log[1..][j] == log[j + 1];
    }
  }

  /** Once something closes or re-bases at or after `lo`, no interval from before `lo` is left open. */
  lemma {:induction false} CloserMoves(open: Option<Open>, log: seq<Event>, k: nat, lo: int)
    requires TimeOrdered(log) && k < |log| && Closes(log[k], lo)
    ensures FoldOpen(open, log).Some? ==> FoldOpen(open, log).value.since >= lo
    decreases |log|
  {
    TailOrdered(log);
    if k == 0 {
      LaterOnly(log, lo);
      FoldNotBefore(Next(open, log[0]), log[1..], lo);
    } else {
      CloserMoves(Next(open, log[0]), log[1..], k - 1, lo);
    }
  }

  lemma {:induction false} InstallsKeep(open: Option<Open>, log: seq<Event>)
    requires open.Some? && forall i | 0 <= i < |log| :: log[i].kind == Installed
    ensures FoldOpen(open, log) == open
    decreases |log|
  {
    if log != [] { InstallsKeep(open, log[1..]); }
  }

  lemma {:induction false} SinceBefore(open: Option<Open>, log: seq<Event>, lo: int)
    requires (open.Some? ==> open.value.since < lo) && forall i | 0 <= i < |log| :: log[i].at < lo
    ensures FoldOpen(open, log).Some? ==> FoldOpen(open, log).value.since < lo
    decreases |log|
  {
    if log != [] { SinceBefore(Next(open, log[0]), log[1..], lo); }
  }

  lemma {:induction false} NoCloser(open: Option<Open>, log: seq<Event>, lo: int)
    requires TimeOrdered(log) && !HasCloser(log, lo)
    ensures var early, last := FoldOpen(open, Filter(Until(lo - 1), log)), FoldOpen(open, log);
            if early.Some? then last == early else last.Some? ==> last.value.since >= lo
    decreases |log|
  {
    if log != [] {
      TailOrdered(log);
      if log[0].at < lo {
        forall i | 0 <= i < |log[1..]| ensures !Closes(log[1..][i], lo) {
          assert log[1..][i] == log[i + 1];
        }
        NoCloser(Next(open, log[0]), log[1..], lo);
        var f := Filter(Until(lo - 1), log);
        assert f[0] == log[0] && f[1..] == Filter(Until(lo - 1), log[1..]);
      } else {
        LaterOnly(log, lo);
        UntilNone(log, lo - 1);
        forall i | 0 <= i < |log| ensures log[i].kind == Installed {
          assert !Closes(log[i], lo);
        }
        if open.Some? { InstallsKeep(open, log); } else { FoldNotBefore(open, log, lo); }
      }
    }
  }

  /** The interval from before `lo` that is never closed, if there is one. */
  function OpenFor(log: seq<Event>, lo: int): Option<Open> {
    var last := FoldOpen(None, log);
    if last.Some? && last.value.since < lo then last else None
  }

  lemma UntilBefore(log: seq<Event>, lo: int)
    ensures var early := Filter(Until(lo - 1), log);
            forall i | 0 <= i < |early| :: early[i].at < lo
  {
    var early := Filter(Until(lo - 1), log);
    forall i | 0 <= i < |early| ensures early[i].at < lo {
      assert early[i] in early;
    }
  }

  /** It is what the events before `lo` leave open, unless something closes or re-bases it later. */
  lemma OpenForIs(log: seq<Event>, lo: int)
    requires TimeOrdered(log)
    ensures OpenFor(log, lo) == if HasCloser(log, lo) then None else FoldOpen(None, Filter(Until(lo - 1), log))
  {
    if HasCloser(log, lo) {
      var k :| 0 <= k < |log| && Closes(log[k], lo);
      CloserMoves(None, log, k, lo);
    } else {
      NoCloser(None, log, lo);
      UntilBefore(log, lo);
      SinceBefore(None, Filter(Until(lo - 1), log), lo);
    }
  }

  /** Before `lo` only that interval is ever cut. */
  lemma BilledBefore(log: seq<Event>, removedAt: Option<int>, lo: int, t: int)
    requires t < lo
    ensures BilledAt(None, log, removedAt, t)
         == var now, last := FoldOpen(None, Filter(Until(t), log)), OpenFor(log, lo);
            if now.None? || (last.Some? && removedAt.Some? && t >= Later(last.value.since, removedAt.value)) then None else Some(now.value.held)
  {
  }

  // ---- late events ----

  /** A late event of the app that closes or re-bases. */
  ghost predicate LateCloser(late: seq<Event>, app: App) {
    exists i :: 0 <= i < |late| && BillingOf(app)(late[i]) && late[i].kind != Installed
  }

  /** The app's last interval is never closed, and the recorded removal cuts it before the end of accounting. */
  ghost predicate CutByRemoval(events: seq<Event>, app: App, removedAt: Option<int>, end: int) {
    var last := FoldOpen(None, AppLog(events, app));
    last.Some? && removedAt.Some? && Later(last.value.since, removedAt.value) < end
  }

  lemma LogHas(events: seq<Event>, app: App, e: Event)
    ensures e in AppLog(events, app) <==> e in events && BillingOf(app)(e)
  {
    SortMembers(Before, Filter(BillingOf(app), events));
  }

  lemma CloserIn(events: seq<Event>, app: App, lo: int)
    ensures HasCloser(AppLog(events, app), lo) <==> exists e :: e in events && BillingOf(app)(e) && Closes(e, lo)
  {
    var log := AppLog(events, app);
    if HasCloser(log, lo) {
      var k :| 0 <= k < |log| && Closes(log[k], lo);
      LogHas(events, app, log[k]);
    }
    if e :| e in events && BillingOf(app)(e) && Closes(e, lo) {
      LogHas(events, app, e);
      var k :| 0 <= k < |log| && log[k] == e;
      assert Closes(log[k], lo);
    }
  }

  /** Late events move closers only by being closers. */
  lemma LateClosers(events: seq<Event>, late: seq<Event>, app: App, end: int)
    requires forall i | 0 <= i < |late| :: late[i].at >= end
    ensures HasCloser(AppLog(events + late, app), end) <==> HasCloser(AppLog(events, app), end) || LateCloser(late, app)
  {
    CloserIn(events, app, end);
    CloserIn(events + late, app, end);
    if LateCloser(late, app) {
      var i :| 0 <= i < |late| && BillingOf(app)(late[i]) && late[i].kind != Installed;
      assert late[i] in events + late && Closes(late[i], end);
    }
    if e :| e in events + late && BillingOf(app)(e) && Closes(e, end) && e !in events {
      assert e in late;
      var i :| 0 <= i < |late| && late[i] == e;
    }
  }

  lemma LateOpen(events: seq<Event>, late: seq<Event>, app: App, end: int)
    requires forall i | 0 <= i < |late| :: late[i].at >= end
    ensures OpenFor(AppLog(events + late, app), end) == if LateCloser(late, app) then None else OpenFor(AppLog(events, app), end)
  {
    InTimeOrderIs(Filter(BillingOf(app), events));
    InTimeOrderIs(Filter(BillingOf(app), events + late));
    OpenForIs(AppLog(events, app), end);
    OpenForIs(AppLog(events + late, app), end);
    LateClosers(events, late, app, end);
    LateEventsFiltered(events, late, app, end, end - 1);
  }

  lemma SameUnlessUncut(events: seq<Event>, late: seq<Event>, app: App, removedAt: Option<int>, end: int, t: int)
    requires t < end && forall i | 0 <= i < |late| :: late[i].at >= end
    requires !(LateCloser(late, app) && CutByRemoval(events, app, removedAt, end))
    ensures BilledAt(None, AppLog(events + late, app), removedAt, t) == BilledAt(None, AppLog(events, app), removedAt, t)
  {
    LateOpen(events, late, app, end);
    LateEventsFiltered(events, late, app, end, t);
    BilledBefore(AppLog(events, app), removedAt, end, t);
    BilledBefore(AppLog(events + late, app), removedAt, end, t);
  }

  lemma RowsSame(events: seq<Event>, more: seq<Event>, app: App, removedAt: Option<int>, start: int, end: int)
    requires start <= end
    requires forall t | start <= t < end :: BilledAt(None, AppLog(more, app), removedAt, t) == BilledAt(None, AppLog(events, app), removedAt, t)
    ensures AppRow(more, app, removedAt, start, end) == AppRow(events, app, removedAt, start, end)
  {
    var log := AppLog(events, app);
    var segments := Segments(None, AppLog(more, app), removedAt, end);
    BilledIsInstalled(events, app, removedAt, start, end);
    InTimeOrderIs(Filter(BillingOf(app), more));
    SegmentsApart(None, AppLog(more, app), removedAt, end);
    forall t | start <= t < end ensures CoverLog(segments)(t) == BilledLog(log, removedAt)(t) {
      CoverIsBilled(None, AppLog(more, app), removedAt, end, t);
    }
    RowDescribes(segments, BilledLog(log, removedAt), start, end);
    DescribesUnique(RowOf(segments, start, end), AppRow(events, app, removedAt, start, end), BilledLog(log, removedAt), start, end);
  }

  lemma {:induction false} EachLess(f: int -> int, g: int -> int, lo: int, hi: int, at: int)
    requires lo <= at < hi && f(at) < g(at) && forall t | lo <= t < hi :: f(t) <= g(t)
    ensures Each(f, lo, hi) < Each(g, lo, hi)
    decreases hi - lo
  {
    if at < hi - 1 { EachLess(f, g, lo, hi - 1, at); } else { EachAtMost(f, g, lo, hi - 1); }
  }

  lemma {:induction false} EachAtMost(f: int -> int, g: int -> int, lo: int, hi: int)
    requires forall t | lo <= t < hi :: f(t) <= g(t)
    ensures Each(f, lo, hi) <= Each(g, lo, hi)
    decreases hi - lo
  {
    if lo < hi { EachAtMost(f, g, lo, hi - 1); }
  }

  /** Without its cut, the interval is billed on in the millisecond in which it was cut. */
  lemma UncutBillsMore(events: seq<Event>, late: seq<Event>, app: App, removedAt: Option<int>, start: int, end: int)
    requires start < end && forall i | 0 <= i < |late| :: late[i].at >= end
    requires LateCloser(late, app) && CutByRemoval(events, app, removedAt, end)
    ensures AppRow(events, app, removedAt, start, end).installedMs < AppRow(events + late, app, removedAt, start, end).installedMs
  {
    var log, more := AppLog(events, app), AppLog(events + late, app);
    var f, g := ValueAt(One(), BilledLog(log, removedAt)), ValueAt(One(), BilledLog(more, removedAt));
    BilledIsInstalled(events, app, removedAt, start, end);
    BilledIsInstalled(events + late, app, removedAt, start, end);
    forall t | start <= t < end ensures f(t) <= g(t) {
      NeverLess(events, late, app, removedAt, end, t);
    }
    var last := FoldOpen(None, log).value;
    var at := Later(start, Later(last.since, removedAt.value));
    CutThere(events, late, app, removedAt, end, at);
    EachLess(f, g, start, end, at);
  }

  lemma NeverLess(events: seq<Event>, late: seq<Event>, app: App, removedAt: Option<int>, end: int, t: int)
    requires t < end && LateCloser(late, app) && forall i | 0 <= i < |late| :: late[i].at >= end
    ensures BilledAt(None, AppLog(events, app), removedAt, t).Some? ==> BilledAt(None, AppLog(events + late, app), removedAt, t).Some?
  {
    LateOpen(events, late, app, end);
    LateEventsFiltered(events, late, app, end, t);
    BilledBefore(AppLog(events, app), removedAt, end, t);
    BilledBefore(AppLog(events + late, app), removedAt, end, t);
  }

  lemma CutThere(events: seq<Event>, late: seq<Event>, app: App, removedAt: Option<int>, end: int, t: int)
    requires LateCloser(late, app) && CutByRemoval(events, app, removedAt, end) && forall i | 0 <= i < |late| :: late[i].at >= end
    requires Later(FoldOpen(None, AppLog(events, app)).value.since, removedAt.value) <= t < end
    ensures BilledAt(None, AppLog(events, app), removedAt, t).None? && BilledAt(None, AppLog(events + late, app), removedAt, t).Some?
  {
    var log := AppLog(events, app);
    InTimeOrderIs(Filter(BillingOf(app), events));
    LateOpen(events, late, app, end);
    LateEventsFiltered(events, late, app, end, t);
    BilledBefore(log, removedAt, end, t);
    BilledBefore(AppLog(events + late, app), removedAt, end, t);
    OpenForIs(log, t + 1);
  }

  lemma StillBilling(events: seq<Event>, late: seq<Event>, app: App)
    requires HasBilling(events, app)
    ensures HasBilling(events + late, app)
  {
    FilterAppend(BillingOf(app), events, late);
  }

  /**
   * For an app with a billing event, events at or after the end of accounting change its row exactly when a
   * recorded removal cuts its last interval before that end and one of them closes or re-bases it.
   */
  lemma LateEventsChange(events: seq<Event>, late: seq<Event>, docs: seq<Doc>, app: App, start: int, end: int)
    requires start < end && HasBilling(events, app) && forall i | 0 <= i < |late| :: late[i].at >= end
    ensures DayRow(events + late, docs, app, start, end) == DayRow(events, docs, app, start, end)
       <==> !(CutByRemoval(events, app, RemovedAt(docs, app), end) && LateCloser(late, app))
  {
    var removedAt := RemovedAt(docs, app);
    StillBilling(events, late, app);
    if CutByRemoval(events, app, removedAt, end) && LateCloser(late, app) {
      UncutBillsMore(events, late, app, removedAt, start, end);
      BilledIsInstalled(events, app, removedAt, start, end);
      EachBounded(ValueAt(One(), BilledLog(AppLog(events, app), removedAt)), start, end);
    } else {
      forall t | start <= t < end ensures BilledAt(None, AppLog(events + late, app), removedAt, t) == BilledAt(None, AppLog(events, app), removedAt, t) {
        SameUnlessUncut(events, late, app, removedAt, end, t);
      }
      RowsSame(events, events + late, app, removedAt, start, end);
    }
  }

  /** With no removal recorded, late events change nothing in the row of an app with a billing event. */
  lemma LateEventsIgnored(events: seq<Event>, late: seq<Event>, docs: seq<Doc>, app: App, start: int, end: int)
    requires start < end && HasBilling(events, app) && RemovedAt(docs, app) == None && forall i | 0 <= i < |late| :: late[i].at >= end
    ensures DayRow(events + late, docs, app, start, end) == DayRow(events, docs, app, start, end)
  {
    LateEventsChange(events, late, docs, app, start, end);
  }

  // ---- late events and the apps without billing events ----

  predicate OneDocEach(docs: seq<Doc>) { forall i, j | 0 <= i < j < |docs| :: docs[i].app != docs[j].app }

  lemma {:induction false} NoDocOf(events: seq<Event>, docs: seq<Doc>, recorded: Option<int>, app: App, start: int, end: int)
    requires forall i | 0 <= i < |docs| :: docs[i].app != app
    ensures RemovedAt(docs, app) == None && LegacyRow(events, docs, recorded, app, start, end) == None
  {
    if docs != [] { NoDocOf(events, docs[..|docs| - 1], recorded, app, start, end); }
  }

  function Recorded(doc: Doc): Option<int> { if doc.removed then Some(doc.updatedAt) else None }

  lemma {:induction false} OneDoc(events: seq<Event>, docs: seq<Doc>, k: nat, recorded: Option<int>, start: int, end: int)
    requires OneDocEach(docs) && k < |docs|
    ensures RemovedAt(docs, docs[k].app) == Recorded(docs[k])
    ensures LegacyRow(events, docs, recorded, docs[k].app, start, end)
         == if EverStarted(events, docs[k].app) then LifeRow(docs[k], LifeEnd(events, docs[k], recorded), start, end) else None
    decreases |docs|
  {
    var init := docs[..|docs| - 1];
    if k == |docs| - 1 { NoDocOf(events, init, recorded, docs[k].app, start, end); } else { OneDoc(events, init, k, recorded, start, end); }
  }

  lemma {:induction false} EarliestOf(early: seq<Event>, more: seq<Event>)
    ensures Earliest(early + more) == if early == [] then Earliest(more) else if more == [] then Earliest(early)
                                      else Some(Sooner(Earliest(early).value, Earliest(more).value))
    ensures Earliest(early).Some? <==> early != []
    ensures Earliest(more).Some? <==> more != []
    decreases |early| + |more|
  {
    assert [] + more == more && early + [] == early;
    if early != [] {
      assert (early + more)[1..] == early[1..] + more;
      EarliestOf(early[1..], more);
    } else if more != [] {
      EarliestOf(more[1..], []);
    }
  }

  lemma {:induction false} EarliestIn(events: seq<Event>, lo: int)
    requires forall i | 0 <= i < |events| :: events[i].at >= lo
    ensures Earliest(events).Some? ==> Earliest(events).value >= lo
  {
    if events != [] { EarliestIn(events[1..], lo); }
  }

  /** A late removal event counts for the life of a document only if there was none before, and lies past the end. */
  lemma LateRemoval(events: seq<Event>, late: seq<Event>, doc: Doc, end: int)
    requires forall i | 0 <= i < |late| :: late[i].at >= end
    ensures var before, after, rest := FirstRemoval(events, doc), FirstRemoval(events + late, doc), FirstRemoval(late, doc);
            && (rest.Some? ==> rest.value >= end)
            && after == if before.None? then rest else if rest.None? then before else Some(Sooner(before.value, rest.value))
  {
    var p := RemovalAfter(doc.app, doc.createdAt);
    FilterAppend(p, events, late);
    EarliestOf(Filter(p, events), Filter(p, late));
    forall i | 0 <= i < |Filter(p, late)| ensures Filter(p, late)[i].at >= end {
      assert Filter(p, late)[i] in Filter(p, late);
    }
    EarliestIn(Filter(p, late), end);
  }

  /** The app of the document starts for the first time, in a life that reaches into the day. */
  predicate LateStart(events: seq<Event>, late: seq<Event>, doc: Doc, start: int) {
    && EverStarted(late, doc.app)
    && (if FirstRemoval(events, doc).Some? then FirstRemoval(events, doc).value > Later(start, doc.createdAt)
        else FirstRemoval(late, doc).Some? || !doc.removed || doc.updatedAt > Later(start, doc.createdAt))
  }

  /** The first removal event of a document whose recorded removal cuts the day. */
  predicate LateRemoved(events: seq<Event>, late: seq<Event>, doc: Doc, end: int) {
    FirstRemoval(events, doc).None? && FirstRemoval(late, doc).Some? && doc.removed && doc.updatedAt < end
  }

  /**
   * For an app that has no billing event, late ones included, late events change its row exactly when its document
   * existed before the end of accounting and they are its first start, or the first removal event of a document
   * whose recorded removal cut the row.
   */
  lemma LateEventsChangeLegacy(events: seq<Event>, late: seq<Event>, docs: seq<Doc>, k: nat, start: int, end: int)
    requires start < end && OneDocEach(docs) && k < |docs| && forall i | 0 <= i < |late| :: late[i].at >= end
    requires !HasBilling(events + late, docs[k].app)
    ensures DayRow(events + late, docs, docs[k].app, start, end) == DayRow(events, docs, docs[k].app, start, end)
       <==> !(docs[k].createdAt < end && if EverStarted(events, docs[k].app) then LateRemoved(events, late, docs[k], end)
                                         else LateStart(events, late, docs[k], start))
  {
    hide AppRow, RemovedAt, LegacyRow, HasBilling, FirstRemoval, EverStarted;
    var doc := docs[k];
    if HasBilling(events, doc.app) { StillBilling(events, late, doc.app); }
    OneDoc(events, docs, k, Recorded(doc), start, end);
    OneDoc(events + late, docs, k, Recorded(doc), start, end);
    LateRemoval(events, late, doc, end);
    StartedIn(events, late, doc.app);
  }

  lemma StartedIn(events: seq<Event>, late: seq<Event>, app: App)
    ensures EverStarted(events + late, app) <==> EverStarted(events, app) || EverStarted(late, app)
  {
    if i :| 0 <= i < |late| && late[i].app == app && late[i].kind == Started {
      assert (events + late)[|events| + i] == late[i];
    }
    if i :| 0 <= i < |events| && events[i].app == app && events[i].kind == Started {
      assert (events + late)[i] == events[i];
    }
  }

  /** The first billing event of an app drops its row when it comes late. */
  lemma LateBillingDrops(events: seq<Event>, late: seq<Event>, docs: seq<Doc>, app: App, start: int, end: int)
    requires start < end && !HasBilling(events, app) && HasBilling(late, app) && forall i | 0 <= i < |late| :: late[i].at >= end
    ensures DayRow(events + late, docs, app, start, end) == None
  {
    var more, removedAt := events + late, RemovedAt(docs, app);
    FilterAppend(BillingOf(app), events, late);
    BilledIsInstalled(more, app, removedAt, start, end);
    forall t | start <= t < end ensures BilledAt(None, AppLog(more, app), removedAt, t).None? {
      LateEventsFiltered(events, late, app, end, t);
      SortMembers(Before, Filter(BillingOf(app), events));
      BilledBefore(AppLog(more, app), removedAt, end, t);
    }
    EachConstant(ValueAt(One(), BilledLog(AppLog(more, app), removedAt)), 0, start, end);
  }

  // ---- the workspace ----

  /** Bills every app that has a billing event, then by their documents the apps that have none. */
  method BillWorkspace(events: seq<Event>, docs: seq<Doc>, start: int, end: int) returns (rows: map<App, Row>)
    requires start <= end
    ensures forall app :: app in rows <==> DayRow(events, docs, app, start, end).Some?
    ensures forall app | app in rows :: DayRow(events, docs, app, start, end) == Some(rows[app])
  {
    hide AppRow, RemovedAt, LegacyRow, Turn, LifeRow, LifeEnd, EverStarted, Over, Filter;
    var byApp := GroupByApp(events);
    var removedAt := RemovalTimes(docs);
    rows := BillApps(events, docs, byApp, removedAt, start, end);
    ghost var billed := rows;
    forall app ensures LegacyRow(events, docs[..0], RemovedAt(docs, app), app, start, end) == None {
      NoDocs(events, docs[..0], RemovedAt(docs, app), app, start, end);
    }
    for n := 0 to |docs|
      invariant forall app | app in byApp :: RowIn(rows, app) == RowIn(billed, app)
      invariant forall app | app !in byApp :: LegacyRow(events, docs[..n], RemovedAt(docs, app), app, start, end) == RowIn(rows, app)
    {
      var doc := docs[n];
      forall app ensures LegacyRow(events, docs[..n + 1], RemovedAt(docs, app), app, start, end)
                      == LegacyStep(events, docs, n, RemovedAt(docs, app), app, start, end) {
        LegacyTurn(events, docs, n, RemovedAt(docs, app), app, start, end);
      }
      if doc.app in byApp {
        continue;
      }
      if !EverStarted(events, doc.app) {
        continue;
      }
      var life := LifeRow(doc, LifeEnd(events, doc, if doc.app in removedAt then Some(removedAt[doc.app]) else None), start, end);
      TurnIs(RowIn(rows, doc.app), events, doc, RemovedAt(docs, doc.app), start, end);
      if life.Some? { rows := rows[doc.app := Over(RowIn(rows, doc.app), doc, life.value)]; }
    }
    assert docs[..|docs|] == docs;
  }

  function RowIn(rows: map<App, Row>, app: App): Option<Row> { if app in rows then Some(rows[app]) else None }

  lemma NoDocs(events: seq<Event>, docs: seq<Doc>, recorded: Option<int>, app: App, start: int, end: int)
    requires docs == []
    ensures LegacyRow(events, docs, recorded, app, start, end) == None
  {
  }

  lemma TurnIs(row: Option<Row>, events: seq<Event>, doc: Doc, recorded: Option<int>, start: int, end: int)
    ensures var life := LifeRow(doc, LifeEnd(events, doc, recorded), start, end);
            Turn(row, events, doc, recorded, start, end) == if life.Some? then Some(Over(row, doc, life.value)) else row
  {
  }

  /** What the next document makes of a legacy row. */
  function LegacyStep(events: seq<Event>, docs: seq<Doc>, n: nat, recorded: Option<int>, app: App, start: int, end: int): Option<Row>
    requires n < |docs|
  {
    var row := LegacyRow(events, docs[..n], recorded, app, start, end);
    if docs[n].app == app && EverStarted(events, app) then Turn(row, events, docs[n], recorded, start, end) else row
  }

  lemma {:induction false} LegacyTurn(events: seq<Event>, docs: seq<Doc>, n: nat, recorded: Option<int>, app: App, start: int, end: int)
    requires n < |docs|
    ensures LegacyRow(events, docs[..n + 1], recorded, app, start, end) == LegacyStep(events, docs, n, recorded, app, start, end)
  {
    hide Turn;
    assert docs[..n + 1][..n] == docs[..n];
    if !EverStarted(events, app) && n > 0 { assert docs[..n] != []; }
  }

  /** The apps with billing events. */
  method BillApps(events: seq<Event>, ghost docs: seq<Doc>, byApp: map<App, seq<Event>>, removedAt: map<App, int>, start: int, end: int)
      returns (rows: map<App, Row>)
    requires forall app :: app in byApp <==> HasBilling(events, app)
    requires forall app | app in byApp :: byApp[app] == Filter(BillingOf(app), events)
    requires forall app :: RemovedAt(docs, app) == if app in removedAt then Some(removedAt[app]) else None
    ensures forall app | app in byApp :: DayRow(events, docs, app, start, end) == if app in rows then Some(rows[app]) else None
    ensures forall app | app in rows :: app in byApp
  {
    hide AppRow, RemovedAt, LegacyRow;
    rows := map[];
    var left := byApp;
    while left != map[]
      invariant forall app | app in left :: app in byApp && left[app] == byApp[app]
      invariant forall app | app in rows :: app in byApp && app !in left
      invariant forall app | app in byApp && app !in left ::
                  DayRow(events, docs, app, start, end) == if app in rows then Some(rows[app]) else None
      decreases |left|
    {
      var app :| app in left;
      var row := BillApp(byApp[app], events, app, if app in removedAt then Some(removedAt[app]) else None, start, end);
      left := left - {app};
      if row.installedMs > 0 { rows := rows[app := row]; }
    }
  }

  method BillApp(list: seq<Event>, ghost events: seq<Event>, ghost app: App, removedAt: Option<int>, start: int, end: int) returns (row: Row)
    requires list == Filter(BillingOf(app), events)
    ensures row == AppRow(events, app, removedAt, start, end)
  {
    BillingOnly(list, events, app);
    var segments := CutSegments(InTimeOrder(list), removedAt, end);
    row := BillSegments(segments, start, end);
  }

  lemma BillingOnly(list: seq<Event>, events: seq<Event>, app: App)
    requires list == Filter(BillingOf(app), events)
    ensures forall i | 0 <= i < |InTimeOrder(list)| :: IsBilling(InTimeOrder(list)[i])
  {
    SortMembers(Before, list);
    forall i | 0 <= i < |InTimeOrder(list)| ensures IsBilling(InTimeOrder(list)[i]) {
      assert InTimeOrder(list)[i] in list;
    }
  }

  method GroupByApp(events: seq<Event>) returns (byApp: map<App, seq<Event>>)
    ensures forall app :: app in byApp <==> Filter(BillingOf(app), events) != []
    ensures forall app | app in byApp :: byApp[app] == Filter(BillingOf(app), events)
  {
    byApp := map[];
    for n := 0 to |events|
      invariant forall app :: app in byApp <==> Filter(BillingOf(app), events[..n]) != []
      invariant forall app | app in byApp :: byApp[app] == Filter(BillingOf(app), events[..n])
    {
      var e := events[n];
      forall app ensures Filter(BillingOf(app), events[..n + 1]) == Filter(BillingOf(app), events[..n]) + if BillingOf(app)(e) then [e] else [] {
        FilterSnoc(BillingOf(app), events[..n + 1]);
        assert events[..n + 1][..n] == events[..n];
      }
      if IsBilling(e) {
        byApp := byApp[e.app := (if e.app in byApp then byApp[e.app] else []) + [e]];
      }
    }
    assert events[..|events|] == events;
  }

  method RemovalTimes(docs: seq<Doc>) returns (times: map<App, int>)
    ensures forall app :: RemovedAt(docs, app) == if app in times then Some(times[app]) else None
  {
    times := map[];
    for n := 0 to |docs|
      invariant forall app :: RemovedAt(docs[..n], app) == if app in times then Some(times[app]) else None
    {
      assert docs[..n + 1][..n] == docs[..n];
      if docs[n].removed { times := times[docs[n].app := docs[n].updatedAt]; }
    }
    assert docs[..|docs|] == docs;
  }
}
