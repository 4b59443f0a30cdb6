/**
 * Replica metering: the loop that integrates running intervals over one day equals, for every app, the
 * sum over every millisecond accounted of what runs in that millisecond.
 */
module UsageMeter {
  import opened Wrappers
  import opened Sorting
  import opened Timeline

  /** What a replica runs with, and for which app. */
  datatype Load = Load(app: App, resources: Resources)

  datatype Interval = Interval(load: Load, since: int)

  type Running = map<string, Interval>

  /** How much a load counts for, for instance an app's memory. */
  type Weight = Load -> nat

  function MemoryOf(app: App): Weight { (l: Load) => if l.app == app then l.resources.memoryMb else 0 }

  function CpuOf(app: App): Weight { (l: Load) => if l.app == app then l.resources.milliCpus else 0 }

  function KeyOf(e: Event): string { e.app + ":" + e.replica }

  predicate IsAppLevel(e: Event) { e.kind == Installed || e.kind == Uninstalled || e.kind == ReplicasChanged || e.kind == Resized }

  predicate IsReplicaEvent(e: Event) { !IsAppLevel(e) }

  function ReplicaBefore(end: int): Event -> bool { (e: Event) => IsReplicaEvent(e) && e.at < end }

  // ---- the loop ----

  /** The running intervals after an event that takes effect at `at`. */
  function Apply(running: Running, e: Event, at: int): Running {
    var key := KeyOf(e);
    if e.kind == Started || (e.kind == Redeployed && key in running) then running[key := Interval(Load(e.app, e.resources), at)]
    else if e.kind == Redeployed then running
    else running - {key}
  }

  /** What the event makes the loop add for the interval it ends. */
  function Charge(w: Weight, running: Running, e: Event, at: int): int {
    if KeyOf(e) in running then Accrued(w, at)(KeyOf(e), running[KeyOf(e)]) else 0
  }

  function Accrued(w: Weight, until: int): (string, Interval) -> int {
    (key: string, i: Interval) => w(i.load) * Later(0, until - i.since)
  }

  /** The whole loop, for one weight: events in time order, then the intervals still open at the end. */
  ghost function Meter(w: Weight, running: Running, events: seq<Event>, start: int, end: int): int
    decreases |events|
  {
    if events == [] then Total(Accrued(w, end), running)
    else
      var at := Later(start, events[0].at);
      Charge(w, running, events[0], at) + Meter(w, Apply(running, events[0], at), events[1..], start, end)
  }

  datatype Usage = Usage(memoryMbMs: int, milliCpuMs: int)

  type PerApp = map<App, Usage>

  function UsageOf(perApp: PerApp, app: App): Usage { if app in perApp then perApp[app] else Usage(0, 0) }

  function Integrate(perApp: PerApp, running: Running, key: string, until: int): PerApp {
    if key !in running then perApp
    else
      var i, u := running[key], UsageOf(perApp, running[key].load.app);
      var ms := Later(0, until - i.since);
      perApp[i.load.app := Usage(u.memoryMbMs + i.load.resources.memoryMb * ms, u.milliCpuMs + i.load.resources.milliCpus * ms)]
  }

  /** For every app, what is charged so far and what is still to come make up the whole. */
  ghost predicate OnTrack(perApp: PerApp, running: Running, rest: seq<Event>, all: seq<Event>, start: int, end: int) {
    forall app ::
      && UsageOf(perApp, app).memoryMbMs + Meter(MemoryOf(app), running, rest, start, end) == Meter(MemoryOf(app), map[], all, start, end)
      && UsageOf(perApp, app).milliCpuMs + Meter(CpuOf(app), running, rest, start, end) == Meter(CpuOf(app), map[], all, start, end)
  }

  lemma IntegrateCharges(perApp: PerApp, running: Running, key: string, until: int, app: App)
    ensures var was, now := UsageOf(perApp, app), UsageOf(Integrate(perApp, running, key, until), app);
            && now.memoryMbMs == was.memoryMbMs + (if key in running then Accrued(MemoryOf(app), until)(key, running[key]) else 0)
            && now.milliCpuMs == was.milliCpuMs + (if key in running then Accrued(CpuOf(app), until)(key, running[key]) else 0)
  {
  }

  method MeterReplicas(events: seq<Event>, start: int, end: int) returns (perApp: PerApp)
    ensures forall app :: UsageOf(perApp, app).memoryMbMs == Metered(MemoryOf(app), events, start, end)
    ensures forall app :: UsageOf(perApp, app).milliCpuMs == Metered(CpuOf(app), events, start, end)
  {
    var sorted := InTimeOrder(Filter(ReplicaBefore(end), events));
    var running: Running := map[];
    perApp := map[];
    assert sorted[0..] == sorted;
    for n := 0 to |sorted|
      invariant OnTrack(perApp, running, sorted[n..], sorted, start, end)
    {
      var e := sorted[n];
      var key, at := KeyOf(e), Later(start, e.at);
      OnTrackTurn(perApp, running, sorted[n..], sorted, start, end);
      assert sorted[n..][1..] == sorted[n + 1..];
      if e.kind == Started {
        perApp := Integrate(perApp, running, key, at);
        running := running[key := Interval(Load(e.app, e.resources), at)];
      } else if e.kind == Redeployed {
        if key in running {
          perApp := Integrate(perApp, running, key, at);
          running := running[key := Interval(Load(e.app, e.resources), at)];
        }
      } else {
        perApp := Integrate(perApp, running, key, at);
        running := running - {key};
      }
    }
    assert sorted[|sorted|..] == [];
    perApp := Drain(perApp, running, sorted, start, end);
  }

  lemma OnTrackTurn(perApp: PerApp, running: Running, rest: seq<Event>, all: seq<Event>, start: int, end: int)
    requires rest != [] && OnTrack(perApp, running, rest, all, start, end)
    ensures var e, at := rest[0], Later(start, rest[0].at);
            OnTrack(if e.kind == Redeployed && KeyOf(e) !in running then perApp else Integrate(perApp, running, KeyOf(e), at),
                    Apply(running, e, at), rest[1..], all, start, end)
  {
    var e, at := rest[0], Later(start, rest[0].at);
    forall app
      ensures Meter(MemoryOf(app), running, rest, start, end)
           == Charge(MemoryOf(app), running, e, at) + Meter(MemoryOf(app), Apply(running, e, at), rest[1..], start, end)
      ensures Meter(CpuOf(app), running, rest, start, end)
           == Charge(CpuOf(app), running, e, at) + Meter(CpuOf(app), Apply(running, e, at), rest[1..], start, end)
      ensures UsageOf(Integrate(perApp, running, KeyOf(e), at), app).memoryMbMs == UsageOf(perApp, app).memoryMbMs + Charge(MemoryOf(app), running, e, at)
      ensures UsageOf(Integrate(perApp, running, KeyOf(e), at), app).milliCpuMs == UsageOf(perApp, app).milliCpuMs + Charge(CpuOf(app), running, e, at)
    {
      IntegrateCharges(perApp, running, KeyOf(e), at, app);
    }
  }

  lemma OnTrackDrain(perApp: PerApp, left: Running, key: string, all: seq<Event>, start: int, end: int)
    requires key in left && OnTrack(perApp, left, [], all, start, end)
    ensures OnTrack(Integrate(perApp, left, key, end), left - {key}, [], all, start, end)
  {
    forall app
      ensures Total(Accrued(MemoryOf(app), end), left) == Accrued(MemoryOf(app), end)(key, left[key]) + Total(Accrued(MemoryOf(app), end), left - {key})
      ensures Total(Accrued(CpuOf(app), end), left) == Accrued(CpuOf(app), end)(key, left[key]) + Total(Accrued(CpuOf(app), end), left - {key})
      ensures UsageOf(Integrate(perApp, left, key, end), app).memoryMbMs == UsageOf(perApp, app).memoryMbMs + Accrued(MemoryOf(app), end)(key, left[key])
      ensures UsageOf(Integrate(perApp, left, key, end), app).milliCpuMs == UsageOf(perApp, app).milliCpuMs + Accrued(CpuOf(app), end)(key, left[key])
    {
      IntegrateCharges(perApp, left, key, end, app);
      TotalWithout(Accrued(MemoryOf(app), end), left, key);
      TotalWithout(Accrued(CpuOf(app), end), left, key);
    }
  }

  /** The intervals that are still open are charged to the end, in any order. */
  method Drain(before: PerApp, running: Running, ghost all: seq<Event>, start: int, end: int) returns (perApp: PerApp)
    requires OnTrack(before, running, [], all, start, end)
    ensures forall app :: UsageOf(perApp, app).memoryMbMs == Meter(MemoryOf(app), map[], all, start, end)
    ensures forall app :: UsageOf(perApp, app).milliCpuMs == Meter(CpuOf(app), map[], all, start, end)
  {
    perApp := before;
    var left := running;
    while left != map[]
      invariant OnTrack(perApp, left, [], all, start, end)
      decreases |left|
    {
      var key :| key in left;
      OnTrackDrain(perApp, left, key, all, start, end);
      perApp := Integrate(perApp, left, key, end);
      left := left - {key};
    }
  }

  // ---- the reference ----

  type Loads = map<string, Load>

  /** What runs after an event, with no regard to time. */
  function Step(loads: Loads, e: Event): Loads {
    var key := KeyOf(e);
    if e.kind == Started || (e.kind == Redeployed && key in loads) then loads[key := Load(e.app, e.resources)]
    else if e.kind == Redeployed then loads
    else loads - {key}
  }

  function Fold(loads: Loads, events: seq<Event>): Loads
    decreases |events|
  {
    if events == [] then loads else Fold(Step(loads, events[0]), events[1..])
  }

  function ByLoad(w: Weight): (string, Load) -> int { (key: string, l: Load) => w(l) }

  /** What counts in the millisecond that starts at `t`: the loads left by the events up to `t`. */
  ghost function InForce(w: Weight, loads: Loads, events: seq<Event>, t: int): int {
    Total(ByLoad(w), Fold(loads, Filter(Until(t), events)))
  }

  ghost function AtInstant(w: Weight, loads: Loads, events: seq<Event>): int -> int {
    (t: int) => InForce(w, loads, events, t)
  }

  function LoadsOf(running: Running): Loads { map key | key in running :: running[key].load }

  // ---- the two agree ----

  lemma StepAgrees(running: Running, e: Event, at: int)
    ensures LoadsOf(Apply(running, e, at)) == Step(LoadsOf(running), e)
  {
  }

  /** Waiting from `a` to `b` adds the running weight times the time waited. */
  lemma {:induction false} AccruedGrows(w: Weight, running: Running, a: int, b: int)
    requires a <= b && forall key | key in running :: running[key].since <= a
    ensures Total(Accrued(w, b), running) == Total(Accrued(w, a), running) + Total(ByLoad(w), LoadsOf(running)) * (b - a)
    decreases |running|
  {
    if running != map[] {
      var key :| key in running;
      var others := running - {key};
      AccruedGrows(w, others, a, b);
      TotalWithout(Accrued(w, b), running, key);
      TotalWithout(Accrued(w, a), running, key);
      TotalWithout(ByLoad(w), LoadsOf(running), key);
      assert LoadsOf(running) - {key} == LoadsOf(others);
      WeightGrows(w(running[key].load), running[key].since, a, b, Total(ByLoad(w), LoadsOf(others)));
    }
  }

  lemma WeightGrows(w: nat, since: int, a: int, b: int, others: int)
    requires since <= a <= b
    ensures w * (b - since) + others * (b - a) == w * (a - since) + (w + others) * (b - a)
  {
    assert w * (b - since) == w * (a - since) + w * (b - a);
    assert (w + others) * (b - a) == w * (b - a) + others * (b - a);
  }

  /** Nothing accrues at the moment an interval starts, so an event moves no more than it charges. */
  lemma ApplyCharges(w: Weight, running: Running, e: Event, at: int)
    ensures Charge(w, running, e, at) + Total(Accrued(w, at), Apply(running, e, at)) == Total(Accrued(w, at), running)
         || (e.kind == Redeployed && KeyOf(e) !in running)
    ensures e.kind == Redeployed && KeyOf(e) !in running ==> Charge(w, running, e, at) == 0 && Apply(running, e, at) == running
  {
    var key := KeyOf(e);
    assert Accrued(w, at)(key, Interval(Load(e.app, e.resources), at)) == w(Load(e.app, e.resources)) * 0;
    TotalDrop(Accrued(w, at), running, key);
    TotalPut(Accrued(w, at), running, key, Interval(Load(e.app, e.resources), at));
  }

  lemma NoneYet(w: Weight, loads: Loads, events: seq<Event>, t: int)
    requires forall i | 0 <= i < |events| :: events[i].at > t
    ensures InForce(w, loads, events, t) == Total(ByLoad(w), loads)
  {
    UntilNone(events, t);
  }

  lemma OnePassed(w: Weight, loads: Loads, events: seq<Event>, t: int)
    requires events != [] && events[0].at <= t
    ensures InForce(w, loads, events, t) == InForce(w, Step(loads, events[0]), events[1..], t)
  {
    var f := Filter(Until(t), events);
    assert f[0] == events[0] && f[1..] == Filter(Until(t), events[1..]);
  }

  /** Before the next event takes effect, the same loads count in every millisecond. */
  lemma QuietStretch(w: Weight, loads: Loads, events: seq<Event>, cur: int, at: int)
    requires cur <= at && forall i | 0 <= i < |events| :: events[i].at >= at || cur == at
    ensures Each(AtInstant(w, loads, events), cur, at) == Total(ByLoad(w), loads) * (at - cur)
  {
    forall t | cur <= t < at ensures AtInstant(w, loads, events)(t) == Total(ByLoad(w), loads) {
      NoneYet(w, loads, events, t);
    }
    EachConstant(AtInstant(w, loads, events), Total(ByLoad(w), loads), cur, at);
  }

  lemma AfterEvent(w: Weight, loads: Loads, events: seq<Event>, at: int, end: int)
    requires events != [] && events[0].at <= at
    ensures Each(AtInstant(w, loads, events), at, end) == Each(AtInstant(w, Step(loads, events[0]), events[1..]), at, end)
  {
    forall t | at <= t < end ensures AtInstant(w, loads, events)(t) == AtInstant(w, Step(loads, events[0]), events[1..])(t) {
      OnePassed(w, loads, events, t);
    }
    EachSame(AtInstant(w, loads, events), AtInstant(w, Step(loads, events[0]), events[1..]), at, end);
  }

  /** The state between two events: every interval began by `cur`, and no event is due before it. */
  ghost predicate Between(running: Running, events: seq<Event>, start: int, cur: int, end: int) {
    && start <= cur <= end && TimeOrdered(events)
    && (forall key | key in running :: running[key].since <= cur)
    && (forall i | 0 <= i < |events| :: events[i].at < end && Later(start, events[i].at) >= cur)
  }

  lemma BetweenNext(running: Running, events: seq<Event>, start: int, cur: int, end: int)
    requires Between(running, events, start, cur, end) && events != []
    ensures var at := Later(start, events[0].at);
            cur <= at <= end && Between(Apply(running, events[0], at), events[1..], start, at, end)
    ensures forall i | 0 <= i < |events| :: events[i].at >= Later(start, events[0].at) || cur == Later(start, events[0].at)
  {
    var at := Later(start, events[0].at);
    forall i | 0 <= i < |events[1..]| ensures events[1..][i].at < end && Later(start, events[1..][i].at) >= at {
      assert events[1..][i] == events[i + 1] && events[0].at <= events[i + 1].at;
    }
    assert TimeOrdered(events[1..]);
  }

  lemma {:induction false} MeterAgrees(w: Weight, running: Running, events: seq<Event>, start: int, cur: int, end: int)
    requires Between(running, events, start, cur, end)
    ensures Meter(w, running, events, start, end)
         == Total(Accrued(w, cur), running) + Each(AtInstant(w, LoadsOf(running), events), cur, end)
    decreases |events|
  {
    var loads := LoadsOf(running);
    if events == [] {
      AccruedGrows(w, running, cur, end);
      QuietStretch(w, loads, events, cur, end);
    } else {
      var e, at := events[0], Later(start, events[0].at);
      BetweenNext(running, events, start, cur, end);
      AccruedGrows(w, running, cur, at);
      ApplyCharges(w, running, e, at);
      StepAgrees(running, e, at);
      QuietStretch(w, loads, events, cur, at);
      AfterEvent(w, loads, events, at, end);
      EachJoins(AtInstant(w, loads, events), cur, at, end);
      MeterAgrees(w, Apply(running, e, at), events[1..], start, at, end);
    }
  }

  // ---- the day ----

  /** All replica events there are, in time order. */
  function Log(events: seq<Event>): seq<Event> { InTimeOrder(Filter(IsReplicaEvent, events)) }

  /** What the loop computes from the events before the end of accounting. */
  ghost function Metered(w: Weight, events: seq<Event>, start: int, end: int): int {
    Meter(w, map[], InTimeOrder(Filter(ReplicaBefore(end), events)), start, end)
  }

  /** What the log says is in force, summed over every millisecond of a window. */
  ghost function PerInstant(w: Weight, events: seq<Event>, lo: int, hi: int): int {
    Each(AtInstant(w, map[], Log(events)), lo, hi)
  }

  lemma LaterEventsAside(w: Weight, events: seq<Event>, end: int, t: int)
    requires t < end
    ensures InForce(w, map[], InTimeOrder(Filter(ReplicaBefore(end), events)), t) == InForce(w, map[], Log(events), t)
  {
    var both := (e: Event) => IsReplicaEvent(e) && e.at <= t;
    FilterSort(Until(t), Before, Filter(ReplicaBefore(end), events));
    FilterSort(Until(t), Before, Filter(IsReplicaEvent, events));
    FilterTwice(Until(t), ReplicaBefore(end), both, events);
    FilterTwice(Until(t), IsReplicaEvent, both, events);
  }

  lemma DueBefore(events: seq<Event>, start: int, end: int)
    requires start <= end
    ensures Between(map[], InTimeOrder(Filter(ReplicaBefore(end), events)), start, start, end)
  {
    var due := Filter(ReplicaBefore(end), events);
    InTimeOrderIs(due);
    SortMembers(Before, due);
    forall i | 0 <= i < |InTimeOrder(due)| ensures InTimeOrder(due)[i].at < end {
      assert InTimeOrder(due)[i] in due;
    }
  }

  /** The loop's result is the per-millisecond sum over the window, for every app, memory and CPU alike. */
  lemma MeteredIsPerInstant(w: Weight, events: seq<Event>, start: int, end: int)
    requires start <= end
    ensures Metered(w, events, start, end) == PerInstant(w, events, start, end)
  {
    var due := InTimeOrder(Filter(ReplicaBefore(end), events));
    DueBefore(events, start, end);
    MeterAgrees(w, map[], due, start, start, end);
    assert LoadsOf(map[]) == map[];
    forall t | start <= t < end ensures AtInstant(w, map[], due)(t) == AtInstant(w, map[], Log(events))(t) {
      LaterEventsAside(w, events, end, t);
    }
    EachSame(AtInstant(w, map[], due), AtInstant(w, map[], Log(events)), start, end);
  }

  /** Totals of adjacent windows add up to the total of the joined window. */
  lemma AdjacentWindowsAdd(w: Weight, events: seq<Event>, a: int, b: int, c: int)
    requires a <= b <= c
    ensures Metered(w, events, a, b) + Metered(w, events, b, c) == Metered(w, events, a, c)
  {
    MeteredIsPerInstant(w, events, a, b);
    MeteredIsPerInstant(w, events, b, c);
    MeteredIsPerInstant(w, events, a, c);
    EachJoins(AtInstant(w, map[], Log(events)), a, b, c);
  }
}
