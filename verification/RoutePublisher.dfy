/**
 * The publication protocol as a state machine: any number of masters over one database, each
 * allocating revisions, reading three collections at different moments and pushing tables to
 * agents over a network that delays, loses and repeats messages.
 *
 * `history` is every database version so far; the last one is current. `allocAt[r - 1]` is the
 * version that was current when revision r was allocated. These two, the versions `seen` kept next
 * to a pushed table, and the fields `lastMark` and `done` of a master only record what happened: no
 * step looks at them to decide what happens next.
 *
 * A database error inside a pass rejects a promise nobody handles, which ends the process; its supervisor
 * starts it again, and a starting master marks its tables dirty.
 */
module RoutePublisher {
  import opened Wrappers
  import opened HostTables

  datatype Kind = RuntimeKind | IngressKind

  /** Which version of each collection a snapshot was read from. */
  datatype Reads = Reads(apps: nat, nodes: nat, hosts: nat)

  datatype Push = Push(kind: Kind, nodeId: string, table: Stored, seen: Reads)

  datatype Ack = Ack(kind: Kind, nodeId: string, revision: nat)

  datatype Held = Held(table: Stored, seen: Reads)

  /** Where the pump of one master stands; a living master is pumping unless `Idle`. */
  datatype Pass =
    | Idle
    | Looping
    | Allocating
    | Reading(revision: nat, apps: Option<nat>, nodes: Option<nat>, hosts: Option<nat>)
    | Pushing(revision: nat, seen: Reads, kind: Kind, waiting: set<string>, failed: bool)
    | Backoff(revision: nat, seen: Reads)
    | Down

  datatype Published = Published(revision: nat, seen: Reads)

  datatype Master = Master(dirty: bool, pass: Pass, lastMark: Option<nat>, done: Option<Published>)

  datatype System = System(
    history: seq<Db>, allocAt: seq<nat>, masters: seq<Master>,
    sent: set<Push>, acks: set<Ack>, tables: map<(Kind, string), Held>)

  datatype Step =
    | Commit(db: Db)
    | MarkDirty(m: nat)
    | Allocate(m: nat)
    | ReadApps(m: nat)
    | ReadNodes(m: nat)
    | ReadHosts(m: nat)
    | StartPush(m: nat)
    | Deliver(push: Push)
    | Acked(m: nat, nodeId: string)
    | Failed(m: nat, nodeId: string)
    | NextKind(m: nat)
    | EndPush(m: nat)
    | Retry(m: nat)
    | Loop(m: nat)
    | DatabaseError(m: nat)
    | Restart(m: nat)

  // ---- snapshots and tables ----

  predicate ReadsWithin(seen: Reads, low: nat, high: nat) {
    low <= seen.apps < high && low <= seen.nodes < high && low <= seen.hosts < high
  }

  function SnapshotAt(history: seq<Db>, seen: Reads): Snapshot
    requires ReadsWithin(seen, 0, |history|)
  {
    SnapshotOf(history[seen.apps].apps, history[seen.nodes].nodes, history[seen.hosts].hosts)
  }

  function TableOf(kind: Kind, nodeId: string, snapshot: Snapshot): Payload {
    match kind
    case RuntimeKind => RuntimePayload(RuntimeTable(nodeId, snapshot.apps, snapshot.rules))
    case IngressKind => IngressPayload(snapshot.rules, snapshot.signingKeys)
  }

  function IdsOf(nodes: seq<Node>): set<string> { set n <- nodes :: n.nodeId }

  /** The nodes a pass pushes tables of this kind to. */
  function Targets(kind: Kind, nodes: seq<Node>): set<string> {
    match kind
    case RuntimeKind => IdsOf(RuntimeNodes(nodes))
    case IngressKind => IdsOf(IngressNodes(nodes))
  }

  function Pushes(history: seq<Db>, revision: nat, seen: Reads, kind: Kind): set<Push>
    requires ReadsWithin(seen, 0, |history|)
  {
    set id <- Targets(kind, history[seen.nodes].nodes) ::
      Push(kind, id, Stored(revision, TableOf(kind, id, SnapshotAt(history, seen))), seen)
  }

  // ---- steps ----

  function Latest(s: System): nat
    requires |s.history| > 0
  {
    |s.history| - 1
  }

  predicate Enabled(s: System, step: Step) {
    && |s.history| > 0
    && match step
       case Commit(_) => true
       case Deliver(push) => push in s.sent
       case MarkDirty(m) => m < |s.masters| && !s.masters[m].pass.Down?
       case Allocate(m) => m < |s.masters| && s.masters[m].pass.Allocating?
       case ReadApps(m) => m < |s.masters| && s.masters[m].pass.Reading? && s.masters[m].pass.apps.None?
       case ReadNodes(m) => m < |s.masters| && s.masters[m].pass.Reading? && s.masters[m].pass.nodes.None?
       case ReadHosts(m) => m < |s.masters| && s.masters[m].pass.Reading? && s.masters[m].pass.hosts.None?
       case StartPush(m) =>
         && m < |s.masters| && s.masters[m].pass.Reading?
         && var p := s.masters[m].pass;
            p.apps.Some? && p.nodes.Some? && p.hosts.Some? && ReadsWithin(Reads(p.apps.value, p.nodes.value, p.hosts.value), 0, |s.history|)
       case Acked(m, id) =>
         && m < |s.masters| && s.masters[m].pass.Pushing? && id in s.masters[m].pass.waiting
         && Ack(s.masters[m].pass.kind, id, s.masters[m].pass.revision) in s.acks
       case Failed(m, id) => m < |s.masters| && s.masters[m].pass.Pushing? && id in s.masters[m].pass.waiting
       case NextKind(m) =>
         && m < |s.masters| && s.masters[m].pass.Pushing? && s.masters[m].pass.waiting == {} && s.masters[m].pass.kind.RuntimeKind?
         && ReadsWithin(s.masters[m].pass.seen, 0, |s.history|)
       case EndPush(m) =>
         m < |s.masters| && s.masters[m].pass.Pushing? && s.masters[m].pass.waiting == {} && s.masters[m].pass.kind.IngressKind?
       case Retry(m) =>
         m < |s.masters| && s.masters[m].pass.Backoff? && ReadsWithin(s.masters[m].pass.seen, 0, |s.history|)
       case Loop(m) => m < |s.masters| && s.masters[m].pass.Looping?
       case DatabaseError(m) => m < |s.masters| && (s.masters[m].pass.Allocating? || s.masters[m].pass.Reading?)
       case Restart(m) => m < |s.masters|
  }

  function With(s: System, m: nat, master: Master): System
    requires m < |s.masters|
  {
    s.(masters := s.masters[m := master])
  }

  /** Sends every table of one kind and waits for the replies. */
  function SendAll(s: System, m: nat, revision: nat, seen: Reads, kind: Kind, failed: bool): System
    requires m < |s.masters| && ReadsWithin(seen, 0, |s.history|)
  {
    With(s, m, s.masters[m].(pass := Pushing(revision, seen, kind, Targets(kind, s.history[seen.nodes].nodes), failed)))
    .(sent := s.sent + Pushes(s.history, revision, seen, kind))
  }

  function Current(s: System, kind: Kind, nodeId: string): Option<Stored> {
    if (kind, nodeId) in s.tables then Some(s.tables[(kind, nodeId)].table) else None
  }

  /** The agent stores a newer table and answers with success in both cases. */
  function DeliverTo(s: System, push: Push): System {
    var ack := Ack(push.kind, push.nodeId, push.table.revision);
    if IsNewer(push.table.revision, Current(s, push.kind, push.nodeId)) then
      s.(tables := s.tables[(push.kind, push.nodeId) := Held(push.table, push.seen)], acks := s.acks + {ack})
    else s.(acks := s.acks + {ack})
  }

  /** `markDirty` of a master that is not pumping clears the flag and starts a pass in the same tick. */
  function Mark(master: Master, version: nat): Master {
    if master.pass.Idle? then master.(dirty := false, pass := Allocating, lastMark := Some(version))
    else master.(dirty := true, lastMark := Some(version))
  }

  function Apply(s: System, step: Step): System
    requires Enabled(s, step)
  {
    match step
    case Commit(db) => s.(history := s.history + [db])
    case Deliver(push) => DeliverTo(s, push)
    case MarkDirty(m) => With(s, m, Mark(s.masters[m], Latest(s)))
    case Allocate(m) =>
      With(s, m, s.masters[m].(pass := Reading(|s.allocAt| + 1, None, None, None))).(allocAt := s.allocAt + [Latest(s)])
    case ReadApps(m) => With(s, m, s.masters[m].(pass := s.masters[m].pass.(apps := Some(Latest(s)))))
    case ReadNodes(m) => With(s, m, s.masters[m].(pass := s.masters[m].pass.(nodes := Some(Latest(s)))))
    case ReadHosts(m) => With(s, m, s.masters[m].(pass := s.masters[m].pass.(hosts := Some(Latest(s)))))
    case StartPush(m) =>
      var p := s.masters[m].pass;
      SendAll(s, m, p.revision, Reads(p.apps.value, p.nodes.value, p.hosts.value), RuntimeKind, false)
    case Acked(m, id) => With(s, m, s.masters[m].(pass := s.masters[m].pass.(waiting := s.masters[m].pass.waiting - {id})))
    case Failed(m, id) => With(s, m, s.masters[m].(pass := s.masters[m].pass.(waiting := s.masters[m].pass.waiting - {id}, failed := true)))
    case NextKind(m) => var p := s.masters[m].pass; SendAll(s, m, p.revision, p.seen, IngressKind, p.failed)
    case EndPush(m) =>
      var p := s.masters[m].pass;
      if !p.failed then With(s, m, s.masters[m].(pass := Looping, done := Some(Published(p.revision, p.seen))))
      else if s.masters[m].dirty then With(s, m, s.masters[m].(pass := Looping))
      else With(s, m, s.masters[m].(pass := Backoff(p.revision, p.seen)))
    case Retry(m) => var p := s.masters[m].pass; SendAll(s, m, p.revision, p.seen, RuntimeKind, false)
    case Loop(m) =>
      if s.masters[m].dirty then With(s, m, s.masters[m].(dirty := false, pass := Allocating))
      else With(s, m, s.masters[m].(pass := Idle))
    case DatabaseError(m) => With(s, m, s.masters[m].(dirty := false, pass := Down))
    case Restart(m) => With(s, m, Master(false, Allocating, Some(Latest(s)), None))
  }

  /** `steps` leads from `s` to `t`. */
  predicate Runs(s: System, steps: seq<Step>, t: System)
    decreases |steps|
  {
    if steps == [] then s == t
    else Enabled(s, steps[0]) && Runs(Apply(s, steps[0]), steps[1..], t)
  }

  predicate Init(s: System) {
    && |s.history| == 1 && s.allocAt == [] && s.sent == {} && s.acks == {} && s.tables == map[]
    && forall master <- s.masters :: master == Master(false, Idle, None, None)
  }

  // ---- the invariant ----

  /** The revision was allocated, and nothing in the snapshot is older than its allocation. */
  ghost predicate Fresh(s: System, revision: nat, seen: Reads) {
    1 <= revision <= |s.allocAt| && ReadsWithin(seen, s.allocAt[revision - 1], |s.history|)
  }

  /** A table that was really derived from the snapshot it names. */
  ghost predicate Genuine(s: System, kind: Kind, nodeId: string, table: Stored, seen: Reads) {
    && Fresh(s, table.revision, seen)
    && table.payload == TableOf(kind, nodeId, SnapshotAt(s.history, seen))
  }

  ghost predicate AllocInv(s: System) {
    && |s.history| > 0
    && (forall i | 0 <= i < |s.allocAt| :: s.allocAt[i] < |s.history|)
    && (forall i, j | 0 <= i <= j < |s.allocAt| :: s.allocAt[i] <= s.allocAt[j])
  }

  ghost predicate NetworkInv(s: System) {
    && (forall push <- s.sent :: Genuine(s, push.kind, push.nodeId, push.table, push.seen))
    && (forall key <- s.tables :: Genuine(s, key.0, key.1, s.tables[key].table, s.tables[key].seen))
    && (forall ack <- s.acks :: Holds(s, ack.kind, ack.nodeId, ack.revision))
  }

  /** The agent's table of this kind is at least this new. */
  ghost predicate Holds(s: System, kind: Kind, nodeId: string, revision: nat) {
    (kind, nodeId) in s.tables && s.tables[(kind, nodeId)].table.revision >= revision
  }

  /** Every target of the snapshot outside `waiting` holds the revision. */
  ghost predicate Delivered(s: System, kind: Kind, revision: nat, seen: Reads, waiting: set<string>)
    requires ReadsWithin(seen, 0, |s.history|)
  {
    forall id | id in Targets(kind, s.history[seen.nodes].nodes) && id !in waiting :: Holds(s, kind, id, revision)
  }

  ghost predicate ReadOk(s: System, revision: nat, read: Option<nat>) {
    read.Some? ==> 1 <= revision <= |s.allocAt| && s.allocAt[revision - 1] <= read.value < |s.history|
  }

  /** What the pass of a master has achieved so far. */
  ghost predicate PassInv(s: System, master: Master) {
    match master.pass
    case Idle | Looping | Allocating | Down => true
    case Reading(r, apps, nodes, hosts) =>
      1 <= r <= |s.allocAt| && ReadOk(s, r, apps) && ReadOk(s, r, nodes) && ReadOk(s, r, hosts)
    case Pushing(r, seen, kind, waiting, failed) =>
      && Fresh(s, r, seen)
      && (!failed ==> Delivered(s, kind, r, seen, waiting))
      && (!failed && kind.IngressKind? ==> Delivered(s, RuntimeKind, r, seen, {}))
    case Backoff(r, seen) => Fresh(s, r, seen)
  }

  ghost predicate DoneInv(s: System, published: Published) {
    && Fresh(s, published.revision, published.seen)
    && Delivered(s, RuntimeKind, published.revision, published.seen, {})
    && Delivered(s, IngressKind, published.revision, published.seen, {})
  }

  /** The revision was allocated after the master was last marked. */
  ghost predicate Covers(s: System, revision: nat, master: Master) {
    1 <= revision <= |s.allocAt| && (master.lastMark.Some? ==> master.lastMark.value <= s.allocAt[revision - 1])
  }

  /** Every mark is still pending, being published, or published. */
  ghost predicate MarkInv(s: System, master: Master) {
    || master.dirty
    || match master.pass
       case Allocating | Down => true
       case Reading(r, _, _, _) => Covers(s, r, master)
       case Pushing(r, _, _, _, _) => Covers(s, r, master)
       case Backoff(r, _) => Covers(s, r, master)
       case Idle | Looping => master.lastMark.Some? ==> master.done.Some? && Covers(s, master.done.value.revision, master)
  }

  ghost predicate MasterInv(s: System, master: Master) {
    && (master.lastMark.Some? ==> master.lastMark.value < |s.history|)
    && PassInv(s, master)
    && (master.done.Some? ==> DoneInv(s, master.done.value))
    && MarkInv(s, master)
  }

  ghost predicate Inv(s: System) {
    AllocInv(s) && NetworkInv(s) && forall i | 0 <= i < |s.masters| :: MasterInv(s, s.masters[i])
  }

  /** Nothing recorded is ever taken back: versions, allocations and agent revisions only grow. */
  ghost predicate Grows(s: System, t: System) {
    && s.history <= t.history && s.allocAt <= t.allocAt
    && forall kind, id, r: nat :: Holds(s, kind, id, r) ==> Holds(t, kind, id, r)
  }

  lemma StepGrows(s: System, step: Step)
    requires Enabled(s, step)
    ensures Grows(s, Apply(s, step))
  {
  }

  lemma GenuineStable(s: System, t: System, kind: Kind, id: string, table: Stored, seen: Reads)
    requires Grows(s, t) && Genuine(s, kind, id, table, seen)
    ensures Genuine(t, kind, id, table, seen)
  {
  }

  lemma DeliveredStable(s: System, t: System, kind: Kind, r: nat, seen: Reads, waiting: set<string>)
    requires Grows(s, t) && ReadsWithin(seen, 0, |s.history|) && Delivered(s, kind, r, seen, waiting)
    ensures Delivered(t, kind, r, seen, waiting)
  {
  }

  lemma MasterStable(s: System, t: System, master: Master)
    requires Grows(s, t) && MasterInv(s, master)
    ensures MasterInv(t, master)
  {
    if master.done.Some? {
      DeliveredStable(s, t, RuntimeKind, master.done.value.revision, master.done.value.seen, {});
      DeliveredStable(s, t, IngressKind, master.done.value.revision, master.done.value.seen, {});
    }
    if master.pass.Pushing? && !master.pass.failed {
      var p := master.pass;
      DeliveredStable(s, t, p.kind, p.revision, p.seen, p.waiting);
      if p.kind.IngressKind? { DeliveredStable(s, t, RuntimeKind, p.revision, p.seen, {}); }
    }
  }

  lemma AllocStep(s: System, step: Step)
    requires Enabled(s, step) && AllocInv(s)
    ensures AllocInv(Apply(s, step))
  {
  }

  lemma PushesGenuine(s: System, r: nat, seen: Reads, kind: Kind)
    requires Fresh(s, r, seen)
    ensures forall push <- Pushes(s.history, r, seen, kind) :: Genuine(s, push.kind, push.nodeId, push.table, push.seen)
  {
  }

  lemma NetworkSend(s: System, m: nat, r: nat, seen: Reads, kind: Kind, failed: bool)
    requires NetworkInv(s) && m < |s.masters| && Fresh(s, r, seen)
    ensures NetworkInv(SendAll(s, m, r, seen, kind, failed))
  {
    hide Genuine, Pushes, Targets;
    var t := SendAll(s, m, r, seen, kind, failed);
    PushesGenuine(s, r, seen, kind);
    forall push <- t.sent ensures Genuine(t, push.kind, push.nodeId, push.table, push.seen) {
      GenuineStable(s, t, push.kind, push.nodeId, push.table, push.seen);
    }
    forall key <- t.tables ensures Genuine(t, key.0, key.1, t.tables[key].table, t.tables[key].seen) {
      GenuineStable(s, t, key.0, key.1, t.tables[key].table, t.tables[key].seen);
    }
  }

  lemma DeliverAcks(s: System, push: Push)
    requires NetworkInv(s) && Grows(s, DeliverTo(s, push))
    ensures forall ack <- DeliverTo(s, push).acks :: Holds(DeliverTo(s, push), ack.kind, ack.nodeId, ack.revision)
  {
    forall ack <- DeliverTo(s, push).acks ensures Holds(DeliverTo(s, push), ack.kind, ack.nodeId, ack.revision) {
      if ack in s.acks { assert Holds(s, ack.kind, ack.nodeId, ack.revision); }
    }
  }

  lemma DeliverTable(s: System, push: Push, key: (Kind, string))
    requires NetworkInv(s) && push in s.sent && Grows(s, DeliverTo(s, push)) && key in DeliverTo(s, push).tables
    ensures var t := DeliverTo(s, push); Genuine(t, key.0, key.1, t.tables[key].table, t.tables[key].seen)
  {
    hide Genuine;
    var t := DeliverTo(s, push);
    if key in s.tables && t.tables[key] == s.tables[key] {
      GenuineStable(s, t, key.0, key.1, t.tables[key].table, t.tables[key].seen);
    } else {
      assert key == (push.kind, push.nodeId) && t.tables[key] == Held(push.table, push.seen);
      GenuineStable(s, t, push.kind, push.nodeId, push.table, push.seen);
    }
  }

  lemma NetworkDeliver(s: System, push: Push)
    requires NetworkInv(s) && push in s.sent && Grows(s, DeliverTo(s, push))
    ensures NetworkInv(DeliverTo(s, push))
  {
    var t := DeliverTo(s, push);
    DeliverAcks(s, push);
    forall key <- t.tables ensures Genuine(t, key.0, key.1, t.tables[key].table, t.tables[key].seen) {
      DeliverTable(s, push, key);
    }
    forall p <- t.sent ensures Genuine(t, p.kind, p.nodeId, p.table, p.seen) {
      GenuineStable(s, t, p.kind, p.nodeId, p.table, p.seen);
    }
  }

  lemma NetworkQuiet(s: System, t: System)
    requires NetworkInv(s) && Grows(s, t) && t.sent == s.sent && t.tables == s.tables && t.acks == s.acks
    ensures NetworkInv(t)
  {
    forall p <- t.sent ensures Genuine(t, p.kind, p.nodeId, p.table, p.seen) {
      GenuineStable(s, t, p.kind, p.nodeId, p.table, p.seen);
    }
    forall key <- t.tables ensures Genuine(t, key.0, key.1, t.tables[key].table, t.tables[key].seen) {
      GenuineStable(s, t, key.0, key.1, t.tables[key].table, t.tables[key].seen);
    }
  }

  lemma NetworkStep(s: System, step: Step)
    requires Enabled(s, step) && Inv(s)
    ensures NetworkInv(Apply(s, step))
  {
    StepGrows(s, step);
    match step
    case Deliver(push) => NetworkDeliver(s, push);
    case StartPush(m) =>
      var p := s.masters[m].pass;
      NetworkSend(s, m, p.revision, Reads(p.apps.value, p.nodes.value, p.hosts.value), RuntimeKind, false);
    case NextKind(m) => NetworkSend(s, m, s.masters[m].pass.revision, s.masters[m].pass.seen, IngressKind, s.masters[m].pass.failed);
    case Retry(m) => NetworkSend(s, m, s.masters[m].pass.revision, s.masters[m].pass.seen, RuntimeKind, false);
    case _ => NetworkAlone(s, step);
  }

  lemma NetworkAlone(s: System, step: Step)
    requires Enabled(s, step) && Inv(s) && !step.Deliver? && !step.StartPush? && !step.NextKind? && !step.Retry?
    ensures NetworkInv(Apply(s, step))
  {
    hide AllocInv, MasterInv, NetworkInv, Grows;
    StepGrows(s, step);
    NetworkQuiet(s, Apply(s, step));
  }

  /** The master a step belongs to; the network's steps belong to none. */
  function Owner(step: Step): Option<nat> {
    match step
    case Commit(_) => None
    case Deliver(_) => None
    case MarkDirty(m) => Some(m)
    case Allocate(m) => Some(m)
    case ReadApps(m) => Some(m)
    case ReadNodes(m) => Some(m)
    case ReadHosts(m) => Some(m)
    case StartPush(m) => Some(m)
    case Acked(m, _) => Some(m)
    case Failed(m, _) => Some(m)
    case NextKind(m) => Some(m)
    case EndPush(m) => Some(m)
    case Retry(m) => Some(m)
    case Loop(m) => Some(m)
    case DatabaseError(m) => Some(m)
    case Restart(m) => Some(m)
  }

  lemma OwnSend(s: System, step: Step, m: nat)
    requires Enabled(s, step) && Inv(s) && Owner(step) == Some(m) && (step.StartPush? || step.NextKind? || step.Retry?)
    ensures MasterInv(Apply(s, step), Apply(s, step).masters[m])
  {
    StepGrows(s, step);
    MasterStable(s, Apply(s, step), s.masters[m]);
  }

  /** A master whose push was acknowledged by an agent that holds the revision. */
  lemma AckedMaster(s: System, master: Master, id: string)
    requires MasterInv(s, master) && master.pass.Pushing? && Holds(s, master.pass.kind, id, master.pass.revision)
    ensures MasterInv(s, master.(pass := master.pass.(waiting := master.pass.waiting - {id})))
  {
    hide Fresh, DoneInv, Holds, Targets;
  }

  lemma OwnAcked(s: System, m: nat, id: string)
    requires Enabled(s, Acked(m, id)) && Inv(s)
    ensures MasterInv(Apply(s, Acked(m, id)), Apply(s, Acked(m, id)).masters[m])
  {
    var p, t := s.masters[m].pass, Apply(s, Acked(m, id));
    assert Holds(s, p.kind, id, p.revision) by {
      assert Ack(p.kind, id, p.revision) in s.acks;
    }
    hide NetworkInv, AllocInv, MasterInv, Holds, Targets;
    StepGrows(s, Acked(m, id));
    MasterStable(s, t, s.masters[m]);
    AckedMaster(t, s.masters[m], id);
  }

  lemma OwnFailed(s: System, m: nat, id: string)
    requires Enabled(s, Failed(m, id)) && Inv(s)
    ensures MasterInv(Apply(s, Failed(m, id)), Apply(s, Failed(m, id)).masters[m])
  {
    hide NetworkInv, DoneInv, Targets;
    StepGrows(s, Failed(m, id));
    MasterStable(s, Apply(s, Failed(m, id)), s.masters[m]);
  }

  lemma OwnEnd(s: System, step: Step, m: nat)
    requires Enabled(s, step) && Inv(s) && step == EndPush(m)
    ensures MasterInv(Apply(s, step), Apply(s, step).masters[m])
  {
    StepGrows(s, step);
    MasterStable(s, Apply(s, step), s.masters[m]);
  }

  lemma OwnRead(s: System, step: Step, m: nat)
    requires Enabled(s, step) && Inv(s) && Owner(step) == Some(m) && (step.Allocate? || step.ReadApps? || step.ReadNodes? || step.ReadHosts?)
    ensures MasterInv(Apply(s, step), Apply(s, step).masters[m])
  {
    hide NetworkInv, DoneInv, Targets;
    StepGrows(s, step);
    MasterStable(s, Apply(s, step), s.masters[m]);
  }

  lemma OwnPump(s: System, step: Step, m: nat)
    requires Enabled(s, step) && Inv(s) && Owner(step) == Some(m) && (step.MarkDirty? || step.Loop? || step.DatabaseError? || step.Restart?)
    ensures MasterInv(Apply(s, step), Apply(s, step).masters[m])
  {
    hide NetworkInv, DoneInv, Targets;
    StepGrows(s, step);
    MasterStable(s, Apply(s, step), s.masters[m]);
  }

  /** Every step keeps the invariant. */
  lemma InvStep(s: System, step: Step)
    requires Enabled(s, step) && Inv(s)
    ensures Inv(Apply(s, step))
  {
    var t := Apply(s, step);
    AllocStep(s, step);
    NetworkStep(s, step);
    StepGrows(s, step);
    forall i | 0 <= i < |t.masters| ensures MasterInv(t, t.masters[i]) {
      if Owner(step) == Some(i) {
        if step.StartPush? || step.NextKind? || step.Retry? {
          OwnSend(s, step, i);
        } else if step.Acked? {
          OwnAcked(s, i, step.nodeId);
        } else if step.Failed? {
          OwnFailed(s, i, step.nodeId);
        } else if step.EndPush? {
          OwnEnd(s, step, i);
        } else if step.MarkDirty? || step.Loop? || step.DatabaseError? || step.Restart? {
          OwnPump(s, step, i);
        } else {
          OwnRead(s, step, i);
        }
      } else {
        assert t.masters[i] == s.masters[i];
        MasterStable(s, t, s.masters[i]);
      }
    }
  }

  lemma {:induction false} InvRuns(s: System, steps: seq<Step>, t: System)
    requires Inv(s) && Runs(s, steps, t)
    ensures Inv(t) && Grows(s, t)
    decreases |steps|
  {
    if steps != [] {
      InvStep(s, steps[0]);
      StepGrows(s, steps[0]);
      InvRuns(Apply(s, steps[0]), steps[1..], t);
    }
  }

  lemma InitInv(s: System)
    requires Init(s)
    ensures Inv(s)
  {
    forall i | 0 <= i < |s.masters| ensures MasterInv(s, s.masters[i]) {
      assert s.masters[i] in s.masters;
    }
  }

  // ---- main results ----

  /** The table covers every write up to `version`, in each of the three collections. */
  ghost predicate CoversWrites(s: System, kind: Kind, nodeId: string, version: nat) {
    && (kind, nodeId) in s.tables
    && exists seen: Reads :: ReadsWithin(seen, version, |s.history|)
         && s.tables[(kind, nodeId)].table.payload == TableOf(kind, nodeId, SnapshotAt(s.history, seen))
  }

  /** The node is a target of this kind in every database version from `version` on. */
  ghost predicate TargetSince(s: System, kind: Kind, nodeId: string, version: nat) {
    forall v | version <= v < |s.history| :: nodeId in Targets(kind, s.history[v].nodes)
  }

  /** A living master that is neither dirty nor pumping. */
  ghost predicate QuietMaster(master: Master) { !master.dirty && master.pass.Idle? }

  lemma MarkStays(s: System, step: Step, m: nat)
    requires Inv(s) && Enabled(s, step) && m < |s.masters| && s.masters[m].lastMark.Some?
    ensures var t := Apply(s, step);
            m < |t.masters| && t.masters[m].lastMark.Some? && s.masters[m].lastMark.value <= t.masters[m].lastMark.value
  {
    hide AllocInv, NetworkInv, PassInv, DoneInv, MarkInv, Targets, Pushes;
    assert MasterInv(s, s.masters[m]);
  }

  /** What a master has marked stays marked, through database errors and restarts of its process. */
  lemma {:induction false} MarksRise(s: System, steps: seq<Step>, t: System, m: nat)
    requires Inv(s) && Runs(s, steps, t) && m < |s.masters| && s.masters[m].lastMark.Some?
    ensures m < |t.masters| && t.masters[m].lastMark.Some? && s.masters[m].lastMark.value <= t.masters[m].lastMark.value
    decreases |steps|
  {
    if steps != [] {
      InvStep(s, steps[0]);
      MarkStays(s, steps[0], m);
      hide Inv, Enabled, Apply;
      MarksRise(Apply(s, steps[0]), steps[1..], t, m);
    }
  }

  /**
   * Whatever version a master has marked, and whatever happens then, database errors and the death and
   * restart of any master included: whenever that master is quiet, each node that has been a target since
   * that version holds a table that covers every write up to it.
   */
  lemma QuietCoversMarks(init: System, before: seq<Step>, s: System, after: seq<Step>, t: System, m: nat, kind: Kind, nodeId: string)
    requires Init(init) && Runs(init, before, s) && m < |s.masters| && s.masters[m].lastMark.Some?
    requires Runs(s, after, t) && m < |t.masters| && QuietMaster(t.masters[m])
    requires TargetSince(t, kind, nodeId, s.masters[m].lastMark.value)
    ensures CoversWrites(t, kind, nodeId, s.masters[m].lastMark.value)
  {
    InitInv(init);
    InvRuns(init, before, s);
    InvRuns(s, after, t);
    MarksRise(s, after, t, m);
    assert MasterInv(t, t.masters[m]);
    HeldCovers(t, t.masters[m].done.value, t.masters[m].lastMark.value, kind, nodeId);
    EarlierCovered(t, kind, nodeId, s.masters[m].lastMark.value, t.masters[m].lastMark.value);
  }

  lemma EarlierCovered(s: System, kind: Kind, nodeId: string, earlier: nat, later: nat)
    requires earlier <= later && CoversWrites(s, kind, nodeId, later)
    ensures CoversWrites(s, kind, nodeId, earlier)
  {
    var seen: Reads :| ReadsWithin(seen, later, |s.history|)
         && s.tables[(kind, nodeId)].table.payload == TableOf(kind, nodeId, SnapshotAt(s.history, seen));
    assert ReadsWithin(seen, earlier, |s.history|);
  }

  /** A master that met a database error does nothing more until it restarts, and then publishes the database as it is. */
  lemma ErrorEndsInRestart(init: System, steps: seq<Step>, s: System, m: nat, step: Step)
    requires Init(init) && Runs(init, steps, s) && m < |s.masters| && s.masters[m].pass.Down?
    requires Enabled(s, step) && Apply(s, step).masters[m] != s.masters[m]
    ensures step == Restart(m) && Apply(s, step).masters[m] == Master(false, Allocating, Some(Latest(s)), None)
    ensures s.masters[m].lastMark.Some? ==> s.masters[m].lastMark.value <= Latest(s)
  {
    InitInv(init);
    InvRuns(init, steps, s);
    assert MasterInv(s, s.masters[m]);
  }

  lemma HeldCovers(s: System, published: Published, version: nat, kind: Kind, nodeId: string)
    requires Inv(s) && DoneInv(s, published) && version <= s.allocAt[published.revision - 1]
    requires TargetSince(s, kind, nodeId, version)
    ensures CoversWrites(s, kind, nodeId, version)
  {
    assert Holds(s, kind, nodeId, published.revision);
    var held := s.tables[(kind, nodeId)];
    assert Genuine(s, kind, nodeId, held.table, held.seen);
    assert s.allocAt[published.revision - 1] <= s.allocAt[held.table.revision - 1];
    assert ReadsWithin(held.seen, version, |s.history|);
  }

  /** Once a quiet master has marked the latest write, every target holds exactly its table of the current database. */
  lemma QuietIsCurrent(init: System, steps: seq<Step>, s: System, m: nat, kind: Kind, nodeId: string)
    requires Init(init) && Runs(init, steps, s) && |s.history| > 0
    requires m < |s.masters| && QuietMaster(s.masters[m]) && s.masters[m].lastMark == Some(Latest(s))
    requires nodeId in Targets(kind, s.history[Latest(s)].nodes)
    ensures (kind, nodeId) in s.tables
    ensures var db := s.history[Latest(s)];
            s.tables[(kind, nodeId)].table.payload == TableOf(kind, nodeId, SnapshotOf(db.apps, db.nodes, db.hosts))
  {
    assert Runs(s, [], s);
    QuietCoversMarks(init, steps, s, [], s, m, kind, nodeId);
    LatestReads(s, kind, nodeId);
  }

  lemma LatestReads(s: System, kind: Kind, nodeId: string)
    requires |s.history| > 0 && CoversWrites(s, kind, nodeId, Latest(s))
    ensures var db := s.history[Latest(s)];
            s.tables[(kind, nodeId)].table.payload == TableOf(kind, nodeId, SnapshotOf(db.apps, db.nodes, db.hosts))
  {
    var seen: Reads :| ReadsWithin(seen, Latest(s), |s.history|)
         && s.tables[(kind, nodeId)].table.payload == TableOf(kind, nodeId, SnapshotAt(s.history, seen));
    assert seen == Reads(Latest(s), Latest(s), Latest(s));
  }

  /** In every run a stored table covers every write committed before its revision was allocated. */
  lemma StoredCoversAllocation(init: System, steps: seq<Step>, s: System, kind: Kind, nodeId: string)
    requires Init(init) && Runs(init, steps, s) && (kind, nodeId) in s.tables
    ensures var r := s.tables[(kind, nodeId)].table.revision;
            1 <= r <= |s.allocAt| && CoversWrites(s, kind, nodeId, s.allocAt[r - 1])
  {
    InitInv(init);
    InvRuns(init, steps, s);
    var held := s.tables[(kind, nodeId)];
    assert Genuine(s, kind, nodeId, held.table, held.seen);
  }

  /** A node's revision never falls, and a success reply proves the node holds at least that revision, now and later. */
  lemma RevisionsRise(init: System, before: seq<Step>, s: System, after: seq<Step>, t: System, ack: Ack)
    requires Init(init) && Runs(init, before, s) && Runs(s, after, t) && ack in s.acks
    ensures Holds(s, ack.kind, ack.nodeId, ack.revision) && Holds(t, ack.kind, ack.nodeId, ack.revision)
    ensures forall key <- s.tables :: key in t.tables && t.tables[key].table.revision >= s.tables[key].table.revision
  {
    InitInv(init);
    InvRuns(init, before, s);
    InvRuns(s, after, t);
    forall key <- s.tables ensures key in t.tables && t.tables[key].table.revision >= s.tables[key].table.revision {
      assert Holds(s, key.0, key.1, s.tables[key].table.revision);
      assert Holds(t, key.0, key.1, s.tables[key].table.revision);
      assert (key.0, key.1) == key;
    }
  }

  /** The two routes of an agent do what `DeliverTo` says, and their success reply is the `Ack`. */
  method DeliverRuntime(agent: HostTableAgent, s: System, push: Push) returns (reply: Reply)
    requires push.kind.RuntimeKind? && push.table.payload.RuntimePayload? && push.table.revision > 0
    requires agent.runtimeTable == Current(s, RuntimeKind, push.nodeId)
    modifies agent
    ensures agent.runtimeTable == Current(DeliverTo(s, push), RuntimeKind, push.nodeId)
    ensures agent.ingressTable == old(agent.ingressTable)
    ensures reply.Reply? && reply.revision >= push.table.revision
  {
    reply := agent.PutRuntime(push.table.revision, push.table.payload.entries);
  }

  // ---- a quiet master that has published is reached ----

  ghost predicate Reached(s: System) { exists init, steps :: Init(init) && Runs(init, steps, s) }

  lemma {:induction false} OneMore(init: System, steps: seq<Step>, s: System, step: Step)
    requires Runs(init, steps, s) && Enabled(s, step)
    ensures Runs(init, steps + [step], Apply(s, step))
    decreases |steps|
  {
    if steps == [] {
      assert [step][1..] == [];
    } else {
      OneMore(Apply(init, steps[0]), steps[1..], s, step);
      assert (steps + [step])[1..] == steps[1..] + [step];
    }
  }

  lemma ReachedNext(s: System, step: Step)
    requires Reached(s) && Enabled(s, step)
    ensures Reached(Apply(s, step))
  {
    var init, steps :| Init(init) && Runs(init, steps, s);
    OneMore(init, steps, s, step);
  }

  /** A database of one node that runs apps and routes nothing, and one master whose pass is here. */
  function Small(node: Node, allocAt: seq<nat>, pass: Pass, lastMark: Option<nat>, done: Option<Published>): System {
    System([Db([], [node], [])], allocAt, [Master(false, pass, lastMark, done)], {}, {}, map[])
  }

  lemma SmallNext(node: Node, allocAt: seq<nat>, pass: Pass, lastMark: Option<nat>, step: Step, allocAt': seq<nat>, pass': Pass, lastMark': Option<nat>)
    requires Reached(Small(node, allocAt, pass, lastMark, None)) && Enabled(Small(node, allocAt, pass, lastMark, None), step)
    requires Apply(Small(node, allocAt, pass, lastMark, None), step) == Small(node, allocAt', pass', lastMark', None)
    ensures Reached(Small(node, allocAt', pass', lastMark', None))
  {
    hide Reached, Small;
    ReachedNext(Small(node, allocAt, pass, lastMark, None), step);
  }

  lemma Allocated0(node: Node)
    ensures Reached(Small(node, [0], Reading(1, None, None, None), Some(0), None))
  {
    assert Reached(Small(node, [], Idle, None, None)) by {
      assert Runs(Small(node, [], Idle, None, None), [], Small(node, [], Idle, None, None));
    }
    hide Reached;
    SmallNext(node, [], Idle, None, MarkDirty(0), [], Allocating, Some(0));
    SmallNext(node, [], Allocating, Some(0), Allocate(0), [0], Reading(1, None, None, None), Some(0));
  }

  lemma Read0(node: Node)
    ensures Reached(Small(node, [0], Reading(1, Some(0), Some(0), Some(0)), Some(0), None))
  {
    hide Reached;
    Allocated0(node);
    SmallNext(node, [0], Reading(1, None, None, None), Some(0), ReadApps(0), [0], Reading(1, Some(0), None, None), Some(0));
    SmallNext(node, [0], Reading(1, Some(0), None, None), Some(0), ReadNodes(0), [0], Reading(1, Some(0), Some(0), None), Some(0));
    SmallNext(node, [0], Reading(1, Some(0), Some(0), None), Some(0), ReadHosts(0), [0], Reading(1, Some(0), Some(0), Some(0)), Some(0));
  }

  lemma FilterOne(node: Node)
    ensures forall p: Node -> bool :: Filter(p, [node]) == if p(node) then [node] else []
  {
  }

  lemma OneTarget(node: Node)
    requires node.active && node.role == Runtime
    ensures Targets(RuntimeKind, [node]) == {node.nodeId} && Targets(IngressKind, [node]) == {}
  {
    FilterOne(node);
    assert ActiveNodes([node]) == [node];
    assert RuntimeNodes([node]) == [node];
    assert IngressNodes([node]) == [];
  }

  /** The one push of the first pass, delivered and acknowledged. */
  lemma Pushed0(node: Node) returns (s: System)
    requires node.active && node.role == Runtime
    ensures Reached(s) && |s.history| == 1 && s.history[0].nodes == [node]
    ensures s.masters == [Master(false, Pushing(1, Reads(0, 0, 0), RuntimeKind, {}, false), Some(0), None)]
    ensures Holds(s, RuntimeKind, node.nodeId, 1)
  {
    Read0(node);
    OneTarget(node);
    hide Reached, Targets, TableOf, SnapshotAt;
    var s1, id, seen := Small(node, [0], Reading(1, Some(0), Some(0), Some(0)), Some(0), None), node.nodeId, Reads(0, 0, 0);
    ReachedNext(s1, StartPush(0));
    var s2 := Apply(s1, StartPush(0));
    var push := Push(RuntimeKind, id, Stored(1, TableOf(RuntimeKind, id, SnapshotAt(s1.history, seen))), seen);
    assert push in s2.sent;
    ReachedNext(s2, Deliver(push));
    var s3 := Apply(s2, Deliver(push));
    ReachedNext(s3, Acked(0, id));
    s := Apply(s3, Acked(0, id));
    assert {id} - {id} == {};
  }

  lemma Ended0(node: Node) returns (s: System)
    requires node.active && node.role == Runtime
    ensures Reached(s) && |s.history| == 1 && Holds(s, RuntimeKind, node.nodeId, 1)
    ensures s.masters == [Master(false, Looping, Some(0), Some(Published(1, Reads(0, 0, 0))))]
  {
    var s0 := Pushed0(node);
    OneTarget(node);
    hide Reached, Targets, TableOf, SnapshotAt;
    ReachedNext(s0, NextKind(0));
    var s1 := Apply(s0, NextKind(0));
    ReachedNext(s1, EndPush(0));
    s := Apply(s1, EndPush(0));
  }

  /** A pass that reaches every node leaves its master quiet, with its mark published. */
  lemma QuietReached(node: Node)
    requires node.active && node.role == Runtime
    ensures exists s :: Reached(s) && |s.masters| == 1 && QuietMaster(s.masters[0]) && s.masters[0].lastMark == Some(0)
                     && Holds(s, RuntimeKind, node.nodeId, 1)
  {
    var s := Ended0(node);
    hide Reached;
    ReachedNext(s, Loop(0));
    assert QuietMaster(Apply(s, Loop(0)).masters[0]);
  }
}
