/**
 * ensureReady, status, activate, remove, artifact erase and startup rebind over the ledger, Docker
 * and the broker directories, as a state machine. Each step is one effect; a call may throw and the
 * process may die between any two. One thread at a time holds a runtime id's lock.
 *
 * `minted` (every random replica id so far) and the two reply logs are history.
 */
module RuntimeService {
  import opened Wrappers
  import opened L = RuntimeLedger

  datatype Policy =
    | Preactivation(request: Request, replicaId: nat)
    | ActivePhase(request: Request, activation: Activation, replicaId: nat)

  /** A container under the runtime's one deterministic name. */
  datatype Container = Container(policy: Policy, id: nat)

  /** What follows once READY evidence is known. */
  datatype Then = ReplyReady | Activate(activation: Activation)

  datatype Purpose = Replace(request: Request, next: Then) | Remove | Erase

  /** The next effect of the thread that holds a lock. A `record` is the row as the thread last read it. */
  datatype Pc =
    | TearContainer(record: Record, purpose: Purpose)
    | TearReplica(record: Record, purpose: Purpose)
    | TearActive(record: Record, purpose: Purpose)
    | TearRow(record: Record, purpose: Purpose)
    | Claiming(request: Request, next: Then)
    | Preparing(record: Record, next: Then)
    | Creating(record: Record, next: Then)
    | Registering(record: Record, next: Then)
    | Recording(record: Record, next: Then, containerId: nat)
    | Readying(record: Record, next: Then)
    | ClaimingActivation(activation: Activation, request: Request)
    | PreparingActive(record: Record)
    | Swapping(record: Record)
    | CleaningReplica(record: Record)
    | CreatingActive(record: Record)
    | RegisteringActive(record: Record)
    | RecordingActive(record: Record, containerId: nat)
    | ReadyingActive(record: Record)
    | Activating(record: Record, readyAt: nat)
    | Confirming(torn: Option<Record>)

  datatype Process = Down | Rebinding(todo: set<RuntimeId>) | Serving

  datatype System = System(
    file: File, containers: map<RuntimeId, Container>, dirs: set<nat>, minted: set<nat>,
    process: Process, threads: map<RuntimeId, Pc>,
    readyReplies: map<RuntimeId, set<ReadyEvidence>>, activeReplies: map<RuntimeId, set<ActiveEvidence>>)

  /** Values the environment supplies: the clock, a random id, Docker's container id. */
  datatype Choice = Choice(now: nat, uuid: nat, containerId: nat)

  datatype Step =
    | EnsureReady(request: Request)
    | Status(id: RuntimeId)
    | ActivateRuntime(activation: Activation)
    | RemoveRuntime(id: RuntimeId)
    | EraseArtifactOf(id: RuntimeId)
    | Advance(id: RuntimeId, choice: Choice)
    | Throw(id: RuntimeId)
    | LoseContainer(id: RuntimeId)
    | Crash
    | HostReboot
    | Boot
    | RebindCleanup(id: RuntimeId)
    | RebindPrepare(id: RuntimeId)
    | RebindDone(id: RuntimeId, now: nat)
    | RebindFailed(id: RuntimeId)
    | RebindAbandoned
    | Sweep(orphans: set<nat>)

  function IdOf(request: Request): RuntimeId { RuntimeId(request.affinity) }

  /** The replica ids a row remembers. */
  function Names(row: Record): set<nat> {
    {row.replicaId} + if row.activeReplicaId.Some? then {row.activeReplicaId.value} else {}
  }

  function Known(file: File): set<nat> { set id, n | id in file.rows && n in Names(file.rows[id]) :: n }

  function ActiveIds(file: File): set<RuntimeId> { set id | id in file.rows && file.rows[id].state == ACTIVE }

  function PreOf(row: Record): Policy { Preactivation(row.requestJson, row.replicaId) }

  function ActiveOf(row: Record): Policy
    requires row.activationJson.Some? && row.activeReplicaId.Some?
  {
    ActivePhase(row.requestJson, row.activationJson.value, row.activeReplicaId.value)
  }

  // ---- steps ----

  function Goto(s: System, id: RuntimeId, pc: Pc): System { s.(threads := s.threads[id := pc]) }

  function End(s: System, id: RuntimeId): System { s.(threads := s.threads - {id}) }

  function Write(s: System, op: Op): System { s.(file := After(s.file, op)) }

  function RepliesTo<T>(log: map<RuntimeId, set<T>>, id: RuntimeId): set<T> { if id in log then log[id] else {} }

  /** Entering ensureReady: a candidate that never activated is torn down when the request changed. */
  function EnterPc(file: File, request: Request, next: Then): Pc {
    var id := IdOf(request);
    if id in file.rows && (file.rows[id].state == CLAIMED || file.rows[id].state == READY) && file.rows[id].requestHash != OfRequest(request)
    then TearContainer(file.rows[id], Replace(request, next))
    else Claiming(request, next)
  }

  function Enter(s: System, request: Request, next: Then): System { Goto(s, IdOf(request), EnterPc(s.file, request, next)) }

  function Answered(s: System, id: RuntimeId, ready: ReadyEvidence, request: Request, next: Then): System {
    match next
    case ReplyReady => End(s, id).(readyReplies := s.readyReplies[id := RepliesTo(s.readyReplies, id) + {ready}])
    case Activate(activation) => Goto(s, id, ClaimingActivation(activation, request))
  }

  function AnsweredActive(s: System, id: RuntimeId, active: ActiveEvidence): System {
    End(s, id).(activeReplies := s.activeReplies[id := RepliesTo(s.activeReplies, id) + {active}])
  }

  function ClaimOp(request: Request, choice: Choice): Op {
    Claim(ClaimInput(request.affinity.generationId, OfRequest(request), request, IdOf(request), request.artifact, OfSpec(Spec(request, None))),
          choice.now, choice.uuid)
  }

  function ActivationOp(activation: Activation, request: Request, choice: Choice): Op {
    L.Op.ClaimActivation(
      ActivationInput(activation.runtimeId, OfRequest(request), OfActivation(activation), activation, OfSpec(Spec(request, Some(activation)))),
      choice.now, choice.uuid)
  }

  function Mint(s: System, choice: Choice): System { s.(minted := s.minted + {choice.uuid}) }

  /** The teardown of a recorded runtime: container, broker directories, then the row. */
  function Tear(s: System, id: RuntimeId, pc: Pc): System
    requires pc.TearContainer? || pc.TearReplica? || pc.TearActive? || pc.TearRow?
  {
    match pc
    case TearContainer(record, purpose) => Goto(s.(containers := s.containers - {id}), id, TearReplica(record, purpose))
    case TearReplica(record, purpose) =>
      Goto(s.(dirs := s.dirs - {record.replicaId}), id, if record.activeReplicaId.Some? then TearActive(record, purpose) else TearRow(record, purpose))
    case TearActive(record, purpose) =>
      Goto(s.(dirs := if record.activeReplicaId.Some? then s.dirs - {record.activeReplicaId.value} else s.dirs), id, TearRow(record, purpose))
    case TearRow(record, purpose) =>
      var t := Write(s, Delete(id)).(readyReplies := s.readyReplies - {id}, activeReplies := s.activeReplies - {id});
      match purpose
      case Replace(request, next) => Goto(t, id, Claiming(request, next))
      case Remove => Goto(t, id, Confirming(Some(record)))
      case Erase => End(t, id)
  }

  /** ensureReady from the claim to the READY evidence. */
  function Ready(s: System, id: RuntimeId, pc: Pc, choice: Choice): System
    requires pc.Claiming? || pc.Preparing? || pc.Creating? || pc.Registering? || pc.Recording? || pc.Readying?
  {
    match pc
    case Claiming(request, next) =>
      var op := ClaimOp(request, choice);
      var answer := Answer(s.file, op);
      var t := Mint(Write(s, op), choice);
      if answer.Err? then End(t, id)
      else if answer.value.readyResponse.Some? then Answered(t, id, answer.value.readyResponse.value, request, next)
      else Goto(t, id, Preparing(answer.value, next))
    case Preparing(record, next) => Goto(s.(dirs := s.dirs + {record.replicaId}), id, Creating(record, next))
    case Creating(record, next) =>
      Goto(if id in s.containers then s else s.(containers := s.containers[id := Container(PreOf(record), choice.containerId)]), id, Registering(record, next))
    case Registering(record, next) =>
      if id !in s.containers || s.containers[id].policy != PreOf(record) then End(s, id)
      else Goto(Write(s, RecordBrokerRegistered(id, choice.now)), id, Recording(record, next, s.containers[id].id))
    case Recording(record, next, containerId) =>
      var op := RecordContainer(id, record.requestHash, containerId, choice.now);
      if Answer(s.file, op).Err? then End(s, id) else Goto(Write(s, op), id, Readying(Answer(s.file, op).value, next))
    case Readying(record, next) =>
      var op := MarkReady(id, record.requestHash, ReadyEvidence(id, record.requestJson, choice.now), choice.now);
      var answer := Answer(s.file, op);
      if answer.Err? || answer.value.readyResponse.None? then End(s, id)
      else Answered(Write(s, op), id, answer.value.readyResponse.value, record.requestJson, next)
  }

  /** activate from the claim of the activation to the ACTIVE evidence. */
  function Active(s: System, id: RuntimeId, pc: Pc, choice: Choice): System
    requires pc.ClaimingActivation? || pc.PreparingActive? || pc.Swapping? || pc.CleaningReplica? || pc.CreatingActive?
             || pc.RegisteringActive? || pc.RecordingActive? || pc.ReadyingActive? || pc.Activating?
  {
    match pc
    case ClaimingActivation(activation, request) =>
      var op := ActivationOp(activation, request, choice);
      var answer := Answer(s.file, op);
      var t := Mint(Write(s, op), choice);
      if answer.Err? then End(t, id)
      else if answer.value.state == ACTIVE && answer.value.activeResponse.Some? then AnsweredActive(t, id, answer.value.activeResponse.value)
      else if answer.value.activationJson.None? || answer.value.activeReplicaId.None? then End(t, id)
      else Goto(t, id, PreparingActive(answer.value))
    case PreparingActive(record) =>
      Goto(if record.activeReplicaId.Some? then s.(dirs := s.dirs + {record.activeReplicaId.value}) else s, id, Swapping(record))
    case Swapping(record) =>
      if record.activationJson.None? || record.activeReplicaId.None? then End(s, id)
      else if id in s.containers && s.containers[id].policy == ActiveOf(record) then Goto(s, id, CreatingActive(record))
      else if id in s.containers && s.containers[id].policy != PreOf(record) then End(s, id)
      else Goto(s.(containers := s.containers - {id}), id, CleaningReplica(record))
    case CleaningReplica(record) => Goto(s.(dirs := s.dirs - {record.replicaId}), id, CreatingActive(record))
    case CreatingActive(record) =>
      if record.activationJson.None? || record.activeReplicaId.None? then End(s, id)
      else Goto(if id in s.containers then s else s.(containers := s.containers[id := Container(ActiveOf(record), choice.containerId)]), id, RegisteringActive(record))
    case RegisteringActive(record) =>
      if record.activationJson.None? || record.activeReplicaId.None? || id !in s.containers || s.containers[id].policy != ActiveOf(record) then End(s, id)
      else Goto(Write(s, RecordBrokerRegistered(id, choice.now)), id, RecordingActive(record, s.containers[id].id))
    case RecordingActive(record, containerId) =>
      var op := RecordContainer(id, record.requestHash, containerId, choice.now);
      if Answer(s.file, op).Err? then End(s, id) else Goto(Write(s, op), id, ReadyingActive(record))
    case ReadyingActive(record) =>
      if record.activationJson.None? then End(s, id)
      else
        var op := RecordActiveReady(id, OfActivation(record.activationJson.value), choice.now);
        var answer := Answer(s.file, op);
        if answer.Err? || answer.value.activeReadyAt.None? then End(s, id)
        else Goto(Write(s, op), id, Activating(record, answer.value.activeReadyAt.value))
    case Activating(record, readyAt) =>
      if record.activationJson.None? then End(s, id)
      else
        var op := MarkActive(id, OfActivation(record.activationJson.value), ActiveEvidence(record.activationJson.value, readyAt), choice.now);
        var answer := Answer(s.file, op);
        if answer.Err? || answer.value.activeResponse.None? then End(s, id)
        else AnsweredActive(Write(s, op), id, answer.value.activeResponse.value)
  }

  /** `remove` answers ABSENT here, unless the container or the row is still there. */
  predicate AnswersAbsent(s: System, id: RuntimeId) {
    id in s.threads && s.threads[id].Confirming? && id !in s.containers && id !in s.file.rows
  }

  function AdvanceThread(s: System, id: RuntimeId, choice: Choice): System
    requires id in s.threads
  {
    var pc := s.threads[id];
    if pc.TearContainer? || pc.TearReplica? || pc.TearActive? || pc.TearRow? then Tear(s, id, pc)
    else if pc.Claiming? || pc.Preparing? || pc.Creating? || pc.Registering? || pc.Recording? || pc.Readying? then Ready(s, id, pc, choice)
    else if pc.Confirming? then End(s, id)
    else Active(s, id, pc, choice)
  }

  predicate Enabled(s: System, step: Step) {
    match step
    case EnsureReady(request) => s.process.Serving? && IdOf(request) !in s.threads
    case Status(id) => s.process.Serving? && id !in s.threads && id in s.file.rows && IdOf(s.file.rows[id].requestJson) == id
    case ActivateRuntime(a) =>
      && s.process.Serving? && a.runtimeId !in s.threads && a.runtimeId in s.file.rows
      && a.request == s.file.rows[a.runtimeId].requestJson && IdOf(a.request) == a.runtimeId
    case RemoveRuntime(id) => s.process.Serving? && id !in s.threads
    case EraseArtifactOf(id) => s.process.Serving? && id !in s.threads && id in s.file.rows && s.file.rows[id].activationHash.None?
    case Advance(id, choice) => id in s.threads && choice.now >= 1 && choice.uuid !in s.minted
    case Throw(id) => id in s.threads
    case LoseContainer(id) => id in s.containers
    case Crash => true
    case HostReboot => true
    case Boot => s.process.Down?
    case RebindCleanup(id) => s.process.Rebinding? && id in s.process.todo && id in s.file.rows && s.file.rows[id].activeReplicaId.Some?
    case RebindPrepare(id) => s.process.Rebinding? && id in s.process.todo && id in s.file.rows && s.file.rows[id].activeReplicaId.Some?
    case RebindDone(id, now) => s.process.Rebinding? && id in s.process.todo && now >= 1
    case RebindFailed(id) => s.process.Rebinding? && id in s.process.todo
    case RebindAbandoned => s.process.Rebinding? && (s.process.todo == ActiveIds(s.file) || s.process.todo == {})
    case Sweep(orphans) => s.process.Rebinding? && s.process.todo == {} && orphans * Known(s.file) == {}
  }

  function Apply(s: System, step: Step): System
    requires Enabled(s, step)
  {
    match step
    case EnsureReady(request) => Enter(s, request, ReplyReady)
    case Status(id) => Enter(s, s.file.rows[id].requestJson, ReplyReady)
    case ActivateRuntime(a) => Enter(s, a.request, Activate(a))
    case RemoveRuntime(id) => Goto(s, id, if id in s.file.rows then TearContainer(s.file.rows[id], Remove) else Confirming(None))
    case EraseArtifactOf(id) => Goto(s, id, TearContainer(s.file.rows[id], Erase))
    case Advance(id, choice) => AdvanceThread(s, id, choice)
    case Throw(id) => End(s, id)
    case LoseContainer(id) => s.(containers := s.containers - {id})
    case Crash => s.(process := Down, threads := map[])
    case HostReboot => s.(process := Down, threads := map[], dirs := {})
    case Boot => s.(process := Rebinding(ActiveIds(s.file)))
    case RebindCleanup(id) => s.(dirs := s.dirs - {s.file.rows[id].activeReplicaId.value})
    case RebindPrepare(id) => s.(dirs := s.dirs + {s.file.rows[id].activeReplicaId.value})
    case RebindDone(id, now) => Write(s, RecordBrokerRegistered(id, now)).(process := Rebinding(s.process.todo - {id}))
    case RebindFailed(id) => s.(process := Rebinding(s.process.todo - {id}))
    case RebindAbandoned => s.(process := Serving)
    case Sweep(orphans) => s.(dirs := s.dirs - orphans, process := Serving)
  }

  predicate Runs(s: System, steps: seq<Step>, t: System)
    decreases |steps|
  {
    if steps == [] then s == t
    else Enabled(s, steps[0]) && Runs(Apply(s, steps[0]), steps[1..], t)
  }

  predicate Init(s: System) {
    && s.file == File(map[], map[]) && s.containers == map[] && s.dirs == {} && s.process == Down && s.threads == map[]
    && s.readyReplies == map[] && s.activeReplies == map[]
  }

  // ---- the invariant, one runtime id at a time ----

  /** A row whose hashes and evidence belong to its own request and activation. */
  ghost predicate RowOk(id: RuntimeId, row: Record) {
    && row.runtimeId == id == IdOf(row.requestJson)
    && row.requestHash == OfRequest(row.requestJson)
    && row.artifactDigest == row.requestJson.artifact
    && (row.activationJson.Some? ==>
          && row.activationHash == Some(OfActivation(row.activationJson.value))
          && row.activationJson.value.runtimeId == id && row.activationJson.value.request == row.requestJson)
    && (row.activeReplicaId.Some? ==> row.activeReplicaId.value != row.replicaId)
  }

  /** Below ACTIVE the container may be the preactivation one; from ACTIVATING on it may be the active one. */
  ghost predicate ContainerOk(row: Record, container: Container) {
    || (row.state != ACTIVE && container.policy == PreOf(row))
    || (row.activationJson.Some? && row.activeReplicaId.Some? && container.policy == ActiveOf(row))
  }

  ghost predicate ActivationFor(activation: Activation, id: RuntimeId, request: Request) {
    activation.runtimeId == id && activation.request == request
  }

  ghost predicate ThenOk(next: Then, id: RuntimeId, request: Request) {
    next.Activate? ==> ActivationFor(next.activation, id, request)
  }

  ghost predicate Torn(s: System, id: RuntimeId, record: Record, purpose: Purpose) {
    && id in s.file.rows && s.file.rows[id] == record
    && (!purpose.Remove? ==> record.activationHash.None?)
    && (purpose.Replace? ==> IdOf(purpose.request) == id && ThenOk(purpose.next, id, purpose.request))
  }

  ghost predicate Claimed(s: System, id: RuntimeId, record: Record, next: Then) {
    && id in s.file.rows && s.file.rows[id].state == CLAIMED && record.state == CLAIMED && RowGrows(record, s.file.rows[id])
    && ThenOk(next, id, record.requestJson)
  }

  ghost predicate InActivation(s: System, id: RuntimeId, record: Record) {
    && id in s.file.rows && s.file.rows[id].state == ACTIVATING && record.state == ACTIVATING && RowGrows(record, s.file.rows[id])
    && record.activationHash.Some? && record.activationJson.Some? && record.activeReplicaId.Some?
  }

  ghost predicate Swapped(s: System, id: RuntimeId, record: Record) {
    InActivation(s, id, record) && (id in s.containers ==> s.containers[id].policy == ActiveOf(record))
  }

  ghost predicate PcOk(s: System, id: RuntimeId, pc: Pc) {
    match pc
    case TearContainer(record, purpose) => Torn(s, id, record, purpose)
    case TearReplica(record, purpose) => Torn(s, id, record, purpose) && id !in s.containers
    case TearActive(record, purpose) => Torn(s, id, record, purpose) && id !in s.containers && record.replicaId !in s.dirs
    case TearRow(record, purpose) => Torn(s, id, record, purpose) && id !in s.containers && Names(record) !! s.dirs
    case Claiming(request, next) => IdOf(request) == id && ThenOk(next, id, request)
    case Preparing(record, next) => Claimed(s, id, record, next)
    case Creating(record, next) => Claimed(s, id, record, next)
    case Registering(record, next) => Claimed(s, id, record, next)
    case Recording(record, next, _) => Claimed(s, id, record, next)
    case Readying(record, next) => Claimed(s, id, record, next)
    case ClaimingActivation(activation, request) =>
      id in s.file.rows && s.file.rows[id].requestJson == request && s.file.rows[id].state != CLAIMED && ActivationFor(activation, id, request)
    case PreparingActive(record) => InActivation(s, id, record)
    case Swapping(record) => InActivation(s, id, record)
    case CleaningReplica(record) => Swapped(s, id, record)
    case CreatingActive(record) => Swapped(s, id, record)
    case RegisteringActive(record) => Swapped(s, id, record)
    case RecordingActive(record, _) => Swapped(s, id, record)
    case ReadyingActive(record) => Swapped(s, id, record)
    case Activating(record, readyAt) => Swapped(s, id, record) && s.file.rows[id].activeReadyAt == Some(readyAt)
    case Confirming(torn) =>
      id !in s.file.rows && (torn.Some? ==> Names(torn.value) !! s.dirs && Names(torn.value) !! Known(s.file) && Names(torn.value) <= s.minted)
  }

  ghost predicate OwnInv(s: System, id: RuntimeId) {
    && (id in s.file.rows ==> RowOk(id, s.file.rows[id]) && Names(s.file.rows[id]) <= s.minted)
    && (id in s.containers ==> id in s.file.rows && ContainerOk(s.file.rows[id], s.containers[id]))
    && (id in s.threads ==> PcOk(s, id, s.threads[id]))
    && (forall e <- RepliesTo(s.readyReplies, id) :: id in s.file.rows && s.file.rows[id].readyResponse == Some(e))
    && (forall e <- RepliesTo(s.activeReplies, id) :: id in s.file.rows && s.file.rows[id].activeResponse == Some(e))
  }

  ghost predicate Inv(s: System) {
    && L.Inv(s.file)
    && (forall id :: OwnInv(s, id))
    && (forall a, b | a in s.file.rows && b in s.file.rows && a != b :: Names(s.file.rows[a]) !! Names(s.file.rows[b]))
    && s.dirs <= Known(s.file)
    && (!s.process.Serving? ==> s.threads == map[])
  }

  // ---- a step of one thread leaves the others alone ----

  ghost predicate SameElsewhere<T(!new)>(a: map<RuntimeId, T>, b: map<RuntimeId, T>, id: RuntimeId) {
    forall other | other != id :: (other in a <==> other in b) && (other in a ==> a[other] == b[other])
  }

  ghost predicate Local(s: System, t: System, id: RuntimeId) {
    && SameElsewhere(s.file.rows, t.file.rows, id) && SameElsewhere(s.containers, t.containers, id)
    && SameElsewhere(s.threads, t.threads, id) && SameElsewhere(s.readyReplies, t.readyReplies, id)
    && SameElsewhere(s.activeReplies, t.activeReplies, id)
    && s.minted <= t.minted && t.process == s.process
    && (id in t.file.rows ==> Names(t.file.rows[id]) <= (if id in s.file.rows then Names(s.file.rows[id]) else {}) + (t.minted - s.minted))
    && (id in s.file.rows ==> (if id in t.file.rows then Names(s.file.rows[id]) <= Names(t.file.rows[id]) else Names(s.file.rows[id]) !! t.dirs))
    && t.dirs <= s.dirs + if id in t.file.rows then Names(t.file.rows[id]) else {}
  }

  lemma KnownHas(file: File, id: RuntimeId)
    requires id in file.rows
    ensures Names(file.rows[id]) <= Known(file)
  {
  }

  lemma OtherPcStays(s: System, t: System, id: RuntimeId, other: RuntimeId, pc: Pc)
    requires Local(s, t, id) && other != id && PcOk(s, other, pc)
    requires id in t.file.rows && other in t.file.rows ==> Names(t.file.rows[id]) !! Names(t.file.rows[other])
    ensures PcOk(t, other, pc)
  {
    assert other in t.file.rows <==> other in s.file.rows;
    assert other in t.containers <==> other in s.containers;
    if pc.Confirming? && pc.torn.Some? {
      TornStays(s, t, id, Names(pc.torn.value));
    }
  }

  lemma OthersStay(s: System, t: System, id: RuntimeId, other: RuntimeId)
    requires Inv(s) && Local(s, t, id) && other != id
    ensures OwnInv(t, other)
  {
    assert OwnInv(s, other);
    assert RepliesTo(t.readyReplies, other) == RepliesTo(s.readyReplies, other);
    assert RepliesTo(t.activeReplies, other) == RepliesTo(s.activeReplies, other);
    if other in t.threads {
      if id in t.file.rows && other in t.file.rows { NamesStayApart(s, t, id, id, other); }
      OtherPcStays(s, t, id, other, s.threads[other]);
    }
  }

  lemma TornStays(s: System, t: System, id: RuntimeId, names: set<nat>)
    requires Local(s, t, id) && names !! s.dirs && names !! Known(s.file) && names <= s.minted
    ensures names !! t.dirs && names !! Known(t.file) && names <= t.minted
  {
    if id in s.file.rows { KnownHas(s.file, id); }
    forall n | n in Known(t.file) ensures n !in names {
      var r :| r in t.file.rows && n in Names(t.file.rows[r]);
      if r != id { KnownHas(s.file, r); }
    }
    if id in t.file.rows { KnownHas(t.file, id); }
  }

  /** A local step keeps the invariant when it keeps the ledger's and its own runtime's. */
  lemma LocalKeeps(s: System, t: System, id: RuntimeId)
    requires Inv(s) && Local(s, t, id) && L.Inv(t.file) && OwnInv(t, id)
    requires !t.process.Serving? ==> t.threads == map[]
    ensures Inv(t)
  {
    forall other ensures OwnInv(t, other) {
      if other != id { OthersStay(s, t, id, other); }
    }
    forall a, b | a in t.file.rows && b in t.file.rows && a != b ensures Names(t.file.rows[a]) !! Names(t.file.rows[b]) {
      NamesStayApart(s, t, id, a, b);
    }
    forall d | d in t.dirs ensures d in Known(t.file) {
      DirStaysKnown(s, t, id, d);
    }
  }

  lemma NamesStayApart(s: System, t: System, id: RuntimeId, a: RuntimeId, b: RuntimeId)
    requires Inv(s) && Local(s, t, id) && a in t.file.rows && b in t.file.rows && a != b
    ensures Names(t.file.rows[a]) !! Names(t.file.rows[b])
  {
    assert OwnInv(s, a) && OwnInv(s, b);
    var x := if a == id then b else a;
    if a == id || b == id {
      assert Names(s.file.rows[x]) <= s.minted;
      assert Names(t.file.rows[x]) == Names(s.file.rows[x]);
    }
  }

  lemma DirStaysKnown(s: System, t: System, id: RuntimeId, d: nat)
    requires Inv(s) && Local(s, t, id) && d in t.dirs
    ensures d in Known(t.file)
  {
    if id in t.file.rows { KnownHas(t.file, id); }
    if d in s.dirs {
      var r :| r in s.file.rows && d in Names(s.file.rows[r]);
      if r != id { KnownHas(t.file, r); }
    }
  }

  // ---- the effects a thread is made of, each while its own program counter is out of the way ----

  lemma EndKeeps(s: System, id: RuntimeId)
    requires Inv(s)
    ensures Inv(End(s, id))
  {
    assert OwnInv(s, id);
    LocalKeeps(s, End(s, id), id);
  }

  lemma GotoKeeps(s: System, id: RuntimeId, pc: Pc)
    requires Inv(s) && s.process.Serving? && id !in s.threads && PcOk(s, id, pc)
    ensures Inv(Goto(s, id, pc))
  {
    assert OwnInv(s, id);
    LocalKeeps(s, Goto(s, id, pc), id);
  }

  /** The thread moves on from `s` after the effects that lead from `End(s, id)` to `e`. */
  lemma ResumeKeeps(s: System, e: System, t: System, id: RuntimeId, pc: Pc)
    requires Inv(e) && e.process.Serving? && e.threads == s.threads - {id} && PcOk(e, id, pc)
    requires t == e.(threads := s.threads[id := pc])
    ensures Inv(t)
  {
    GotoKeeps(e, id, pc);
    assert e.threads[id := pc] == s.threads[id := pc];
  }

  lemma DirsKeep(s: System, id: RuntimeId, dirs: set<nat>)
    requires Inv(s) && id !in s.threads && dirs <= s.dirs + if id in s.file.rows then Names(s.file.rows[id]) else {}
    ensures Inv(s.(dirs := dirs))
  {
    assert OwnInv(s, id);
    LocalKeeps(s, s.(dirs := dirs), id);
  }

  lemma ContainersKeep(s: System, id: RuntimeId, containers: map<RuntimeId, Container>)
    requires Inv(s) && id !in s.threads && SameElsewhere(s.containers, containers, id)
    requires id in containers ==> id in s.file.rows && ContainerOk(s.file.rows[id], containers[id])
    ensures Inv(s.(containers := containers))
  {
    assert OwnInv(s, id);
    LocalKeeps(s, s.(containers := containers), id);
  }

  lemma MintKeeps(s: System, minted: set<nat>)
    requires Inv(s) && s.minted <= minted
    ensures Inv(s.(minted := minted))
  {
    var t := s.(minted := minted);
    forall id ensures OwnInv(t, id) { assert OwnInv(s, id); }
  }

  /** A program counter depends on the file, the containers, the directories and the minted ids alone. */
  lemma SamePc(s: System, t: System, id: RuntimeId, pc: Pc)
    requires t.file == s.file && t.containers == s.containers && t.dirs == s.dirs && s.minted <= t.minted && PcOk(s, id, pc)
    ensures PcOk(t, id, pc)
  {
  }

  /** Logging a reply that is the row's own document. */
  lemma LogKeeps(s: System, t: System, id: RuntimeId)
    requires Inv(s) && t == s.(readyReplies := t.readyReplies, activeReplies := t.activeReplies)
    requires SameElsewhere(s.readyReplies, t.readyReplies, id) && SameElsewhere(s.activeReplies, t.activeReplies, id)
    requires forall e <- RepliesTo(t.readyReplies, id) :: id in s.file.rows && s.file.rows[id].readyResponse == Some(e)
    requires forall e <- RepliesTo(t.activeReplies, id) :: id in s.file.rows && s.file.rows[id].activeResponse == Some(e)
    ensures Inv(t)
  {
    forall other ensures OwnInv(t, other) {
      assert OwnInv(s, other);
      if other in s.threads { SamePc(s, t, other, s.threads[other]); }
      if other != id {
        assert RepliesTo(t.readyReplies, other) == RepliesTo(s.readyReplies, other);
        assert RepliesTo(t.activeReplies, other) == RepliesTo(s.activeReplies, other);
      }
    }
  }

  lemma LogReadyKeeps(s: System, id: RuntimeId, e: ReadyEvidence)
    requires Inv(s) && id in s.file.rows && s.file.rows[id].readyResponse == Some(e)
    ensures Inv(s.(readyReplies := s.readyReplies[id := RepliesTo(s.readyReplies, id) + {e}]))
  {
    assert OwnInv(s, id);
    LogKeeps(s, s.(readyReplies := s.readyReplies[id := RepliesTo(s.readyReplies, id) + {e}]), id);
  }

  lemma LogActiveKeeps(s: System, id: RuntimeId, e: ActiveEvidence)
    requires Inv(s) && id in s.file.rows && s.file.rows[id].activeResponse == Some(e)
    ensures Inv(s.(activeReplies := s.activeReplies[id := RepliesTo(s.activeReplies, id) + {e}]))
  {
    assert OwnInv(s, id);
    LogKeeps(s, s.(activeReplies := s.activeReplies[id := RepliesTo(s.activeReplies, id) + {e}]), id);
  }

  /** The row remembers what it did, and at most newly minted ids beside that. */
  ghost predicate NamesGrow(s: System, id: RuntimeId, row: Record, minted: set<nat>) {
    && s.minted <= minted
    && Names(row) <= (if id in s.file.rows then Names(s.file.rows[id]) else {}) + (minted - s.minted)
    && (id in s.file.rows ==> Names(s.file.rows[id]) <= Names(row))
  }

  /** What the ledger may do to a row under the feet of everything else. */
  ghost predicate RowStep(s: System, id: RuntimeId, file: File, minted: set<nat>) {
    && L.Inv(file) && SameElsewhere(s.file.rows, file.rows, id) && id in file.rows
    && RowOk(id, file.rows[id]) && NamesGrow(s, id, file.rows[id], minted)
    && (id in s.file.rows ==> RowGrows(s.file.rows[id], file.rows[id]))
    && (id in s.containers ==> ContainerOk(file.rows[id], s.containers[id]))
  }

  lemma RowKeeps(s: System, id: RuntimeId, file: File, minted: set<nat>)
    requires Inv(s) && id !in s.threads && RowStep(s, id, file, minted)
    ensures Inv(s.(file := file, minted := minted))
  {
    var t := s.(file := file, minted := minted);
    assert OwnInv(s, id);
    assert OwnInv(t, id);
    LocalKeeps(s, t, id);
  }

  lemma UpdateElsewhere<T(!new)>(a: map<RuntimeId, T>, id: RuntimeId, value: T)
    ensures SameElsewhere(a, a[id := value], id)
  {
  }

  /** A successful write of one row, given what its answer keeps of the row that was there. */
  lemma AnswerSteps(s: System, id: RuntimeId, op: Op, minted: set<nat>)
    requires Inv(s) && !op.Delete? && Answer(s.file, op).Ok? && Answer(s.file, op).value.runtimeId == id
    requires var row := Answer(s.file, op).value;
             RowOk(id, row) && NamesGrow(s, id, row, minted) && (id in s.containers ==> ContainerOk(row, s.containers[id]))
    ensures RowStep(s, id, After(s.file, op), minted) && id in After(s.file, op).rows && After(s.file, op).rows[id] == Answer(s.file, op).value
  {
    assert L.Inv(s.file);
    hide Inv, OwnInv, L.Inv, Answer, After, RowOk, ContainerOk, NamesGrow, RowShape, RowGrows, SameElsewhere;
    WritesOneRow(s.file, op);
    UpdateElsewhere(s.file.rows, id, Answer(s.file, op).value);
  }

  /** What the invariant says of one runtime. */
  lemma OwnFacts(s: System, id: RuntimeId)
    requires Inv(s)
    ensures id in s.file.rows ==> RowOk(id, s.file.rows[id]) && Names(s.file.rows[id]) <= s.minted
    ensures id in s.containers ==> id in s.file.rows && ContainerOk(s.file.rows[id], s.containers[id])
    ensures id in s.threads ==> PcOk(s, id, s.threads[id])
  {
    assert OwnInv(s, id);
  }

  // ---- teardown ----

  lemma TearContainerKeeps(s: System, id: RuntimeId)
    requires Inv(s) && id in s.threads && s.threads[id].TearContainer? && s.process.Serving?
    ensures Inv(Tear(s, id, s.threads[id]))
  {
    hide Inv, OwnInv, L.Inv, After;
    var pc := s.threads[id];
    OwnFacts(s, id);
    var e := End(s, id);
    EndKeeps(s, id);
    ContainersKeep(e, id, s.containers - {id});
    ResumeKeeps(s, e.(containers := s.containers - {id}), Tear(s, id, pc), id, TearReplica(pc.record, pc.purpose));
  }

  lemma TearDirsKeeps(s: System, id: RuntimeId)
    requires Inv(s) && id in s.threads && (s.threads[id].TearReplica? || s.threads[id].TearActive?) && s.process.Serving?
    ensures Inv(Tear(s, id, s.threads[id]))
  {
    hide Inv, OwnInv, L.Inv, After;
    var pc, t := s.threads[id], Tear(s, id, s.threads[id]);
    OwnFacts(s, id);
    var e := End(s, id);
    EndKeeps(s, id);
    DirsKeep(e, id, t.dirs);
    ResumeKeeps(s, e.(dirs := t.dirs), t, id, t.threads[id]);
  }

  lemma DeletedNames(file: File, id: RuntimeId)
    requires L.Inv(file) && id in file.rows
    requires forall a, b | a in file.rows && b in file.rows && a != b :: Names(file.rows[a]) !! Names(file.rows[b])
    ensures After(file, Delete(id)).rows == file.rows - {id}
    ensures Names(file.rows[id]) !! Known(After(file, Delete(id)))
  {
    var next := After(file, Delete(id));
    forall n | n in Known(next) ensures n !in Names(file.rows[id]) {
      var r :| r in next.rows && n in Names(next.rows[r]);
    }
  }

  /** The row, its replies and its names leave together. */
  function Forget(s: System, id: RuntimeId): System {
    Write(s, Delete(id)).(readyReplies := s.readyReplies - {id}, activeReplies := s.activeReplies - {id})
  }

  lemma ForgetKeeps(s: System, id: RuntimeId)
    requires Inv(s) && id !in s.threads && id in s.file.rows && id !in s.containers && Names(s.file.rows[id]) !! s.dirs
    ensures Inv(Forget(s, id))
  {
    OpKeeps(s.file, Delete(id));
    DeletedNames(s.file, id);
    assert OwnInv(s, id);
    LocalKeeps(s, Forget(s, id), id);
  }

  lemma TearRowKeeps(s: System, id: RuntimeId)
    requires Inv(s) && id in s.threads && s.threads[id].TearRow? && s.process.Serving?
    ensures Inv(Tear(s, id, s.threads[id]))
  {
    var pc, t := s.threads[id], Tear(s, id, s.threads[id]);
    assert OwnInv(s, id);
    var e := End(s, id);
    EndKeeps(s, id);
    DeletedNames(s.file, id);
    ForgetKeeps(e, id);
    if !pc.purpose.Erase? {
      ResumeKeeps(s, Forget(e, id), t, id, t.threads[id]);
    }
  }

  // ---- ensureReady ----

  lemma ErrWritesNothing(file: File, op: Op)
    requires Answer(file, op).Err?
    ensures After(file, op) == file
  {
  }

  lemma ClaimRow(s: System, id: RuntimeId, request: Request, choice: Choice)
    requires Inv(s) && IdOf(request) == id && choice.uuid !in s.minted && Answer(s.file, ClaimOp(request, choice)).Ok?
    ensures var file, row := After(s.file, ClaimOp(request, choice)), Answer(s.file, ClaimOp(request, choice)).value;
            && RowStep(s, id, file, s.minted + {choice.uuid}) && file.rows[id] == row && row.requestJson == request
            && (row.readyResponse.None? <==> row.state == CLAIMED)
  {
    var op, minted := ClaimOp(request, choice), s.minted + {choice.uuid};
    OwnFacts(s, id);
    assert L.Inv(s.file);
    hide Inv, OwnInv, After, RowStep;
    AnswerSteps(s, id, op, minted);
  }

  lemma AnsweredKeeps(s: System, e: System, id: RuntimeId, request: Request, next: Then)
    requires Inv(e) && e.process.Serving? && e.threads == s.threads - {id} && ThenOk(next, id, request)
    requires id in e.file.rows && e.file.rows[id].requestJson == request && e.file.rows[id].readyResponse.Some?
    ensures Inv(Answered(e.(threads := s.threads), id, e.file.rows[id].readyResponse.value, request, next))
  {
    var ready := e.file.rows[id].readyResponse.value;
    var t := Answered(e.(threads := s.threads), id, ready, request, next);
    if next.ReplyReady? {
      LogReadyKeeps(e, id, ready);
    } else {
      ResumeKeeps(s, e, t, id, ClaimingActivation(next.activation, request));
    }
  }

  lemma ClaimKeeps(s: System, id: RuntimeId, choice: Choice)
    requires Inv(s) && Enabled(s, Advance(id, choice)) && s.threads[id].Claiming? && s.process.Serving?
    ensures Inv(Ready(s, id, s.threads[id], choice))
  {
    hide Inv, OwnInv, L.Inv, After;
    var pc, t := s.threads[id], Ready(s, id, s.threads[id], choice);
    var op := ClaimOp(pc.request, choice);
    OwnFacts(s, id);
    var e := End(s, id);
    EndKeeps(s, id);
    if Answer(s.file, op).Err? {
      ErrWritesNothing(s.file, op);
      MintKeeps(e, s.minted + {choice.uuid});
    } else {
      ClaimRow(e, id, pc.request, choice);
      RowKeeps(e, id, After(s.file, op), s.minted + {choice.uuid});
      var f := Mint(Write(e, op), choice);
      if Answer(s.file, op).value.readyResponse.Some? {
        AnsweredKeeps(s, f, id, pc.request, pc.next);
      } else {
        ResumeKeeps(s, f, t, id, Preparing(Answer(s.file, op).value, pc.next));
      }
    }
  }

  lemma PrepareKeeps(s: System, id: RuntimeId, choice: Choice)
    requires Inv(s) && Enabled(s, Advance(id, choice)) && s.threads[id].Preparing? && s.process.Serving?
    ensures Inv(Ready(s, id, s.threads[id], choice))
  {
    hide Inv, OwnInv, L.Inv, After;
    var pc, t := s.threads[id], Ready(s, id, s.threads[id], choice);
    OwnFacts(s, id);
    var e := End(s, id);
    EndKeeps(s, id);
    DirsKeep(e, id, t.dirs);
    ResumeKeeps(s, e.(dirs := t.dirs), t, id, Creating(pc.record, pc.next));
  }

  lemma CreateKeeps(s: System, id: RuntimeId, choice: Choice)
    requires Inv(s) && Enabled(s, Advance(id, choice)) && s.threads[id].Creating? && s.process.Serving?
    ensures Inv(Ready(s, id, s.threads[id], choice))
  {
    hide Inv, OwnInv, L.Inv, After;
    var pc, t := s.threads[id], Ready(s, id, s.threads[id], choice);
    OwnFacts(s, id);
    var e := End(s, id);
    EndKeeps(s, id);
    ContainersKeep(e, id, t.containers);
    ResumeKeeps(s, e.(containers := t.containers), t, id, Registering(pc.record, pc.next));
  }

  /** Recording a registration or a container id changes nothing the rest of the service depends on. */
  ghost predicate Noted(row: Record, next: Record) {
    next == row.(containerId := next.containerId, brokerRegisteredAt := next.brokerRegisteredAt, updatedAt := next.updatedAt)
  }

  lemma NoteKeeps(s: System, id: RuntimeId, op: Op)
    requires Inv(s) && id !in s.threads && (op.RecordBrokerRegistered? || op.RecordContainer?) && op.id == id
    ensures Inv(Write(s, op))
    ensures id in s.file.rows ==> id in After(s.file, op).rows && Noted(s.file.rows[id], After(s.file, op).rows[id])
  {
    hide Inv, OwnInv, After, RowStep;
    OwnFacts(s, id);
    if Answer(s.file, op).Ok? {
      AnswerSteps(s, id, op, s.minted);
      RowKeeps(s, id, After(s.file, op), s.minted);
    } else {
      ErrWritesNothing(s.file, op);
    }
  }

  lemma RegisterKeeps(s: System, id: RuntimeId, choice: Choice)
    requires Inv(s) && Enabled(s, Advance(id, choice)) && s.threads[id].Registering? && s.process.Serving?
    ensures Inv(Ready(s, id, s.threads[id], choice))
  {
    hide Inv, OwnInv, L.Inv, After;
    var pc, t := s.threads[id], Ready(s, id, s.threads[id], choice);
    OwnFacts(s, id);
    EndKeeps(s, id);
    if id in s.containers && s.containers[id].policy == PreOf(pc.record) {
      NoteKeeps(End(s, id), id, RecordBrokerRegistered(id, choice.now));
      ResumeKeeps(s, Write(End(s, id), RecordBrokerRegistered(id, choice.now)), t, id, Recording(pc.record, pc.next, s.containers[id].id));
    }
  }

  lemma RecordKeeps(s: System, id: RuntimeId, choice: Choice)
    requires Inv(s) && Enabled(s, Advance(id, choice)) && s.threads[id].Recording? && s.process.Serving?
    ensures Inv(Ready(s, id, s.threads[id], choice))
  {
    hide Inv, OwnInv, L.Inv, After;
    var pc, t := s.threads[id], Ready(s, id, s.threads[id], choice);
    var op := RecordContainer(id, pc.record.requestHash, pc.containerId, choice.now);
    OwnFacts(s, id);
    EndKeeps(s, id);
    if Answer(s.file, op).Ok? {
      NoteKeeps(End(s, id), id, op);
      ResumeKeeps(s, Write(End(s, id), op), t, id, Readying(Answer(s.file, op).value, pc.next));
    }
  }

  lemma MarkReadyRow(s: System, id: RuntimeId, op: Op)
    requires Inv(s) && id in s.file.rows && s.file.rows[id].state == CLAIMED && op.MarkReady? && op.id == id && Answer(s.file, op).Ok?
    ensures RowStep(s, id, After(s.file, op), s.minted)
    ensures var row := After(s.file, op).rows[id]; row.readyResponse == Answer(s.file, op).value.readyResponse && row.readyResponse.Some?
  {
    assert OwnInv(s, id);
    hide Inv, OwnInv, L.Inv, After, RowStep;
    AnswerSteps(s, id, op, s.minted);
  }

  lemma ReadyKeeps(s: System, id: RuntimeId, choice: Choice)
    requires Inv(s) && Enabled(s, Advance(id, choice)) && s.threads[id].Readying? && s.process.Serving?
    ensures Inv(Ready(s, id, s.threads[id], choice))
  {
    hide Inv, OwnInv, L.Inv, After;
    var pc, t := s.threads[id], Ready(s, id, s.threads[id], choice);
    var op := MarkReady(id, pc.record.requestHash, ReadyEvidence(id, pc.record.requestJson, choice.now), choice.now);
    OwnFacts(s, id);
    EndKeeps(s, id);
    if Answer(s.file, op).Ok? {
      var e := End(s, id);
      MarkReadyRow(e, id, op);
      RowKeeps(e, id, After(s.file, op), s.minted);
      AnsweredKeeps(s, Write(e, op), id, pc.record.requestJson, pc.next);
    }
  }

  // ---- activate ----

  lemma ActivationAnswer(s: System, id: RuntimeId, activation: Activation, request: Request, choice: Choice)
    requires L.Inv(s.file) && OwnInv(s, id) && choice.uuid !in s.minted && ActivationFor(activation, id, request)
    requires id in s.file.rows && s.file.rows[id].requestJson == request && s.file.rows[id].state != CLAIMED
    requires Answer(s.file, ActivationOp(activation, request, choice)).Ok?
    ensures var row, next := s.file.rows[id], Answer(s.file, ActivationOp(activation, request, choice)).value;
            && RowOk(id, next) && (id in s.containers ==> ContainerOk(next, s.containers[id]))
            && next.activationHash.Some? && next.activationJson.Some? && next.activeReplicaId.Some?
            && next.runtimeId == id && Names(row) <= Names(next) <= Names(row) + ({choice.uuid} - s.minted)
            && (next.state == ACTIVATING || (next.state == ACTIVE && next.activeResponse.Some?))
  {
    var row := s.file.rows[id];
    assert RowShape(row);
    assert row.replicaId in Names(row);
  }

  lemma ClaimActivationRow(s: System, id: RuntimeId, activation: Activation, request: Request, choice: Choice)
    requires Inv(s) && choice.uuid !in s.minted && ActivationFor(activation, id, request)
    requires id in s.file.rows && s.file.rows[id].requestJson == request && s.file.rows[id].state != CLAIMED
    requires Answer(s.file, ActivationOp(activation, request, choice)).Ok?
    ensures var file, row := After(s.file, ActivationOp(activation, request, choice)), Answer(s.file, ActivationOp(activation, request, choice)).value;
            && RowStep(s, id, file, s.minted + {choice.uuid}) && file.rows[id] == row
            && row.activationHash.Some? && row.activationJson.Some? && row.activeReplicaId.Some?
            && (row.state == ACTIVATING || (row.state == ACTIVE && row.activeResponse.Some?))
  {
    assert OwnInv(s, id);
    ActivationAnswer(s, id, activation, request, choice);
    hide Inv, OwnInv, L.Inv, Answer, After, RowStep, RowOk, ContainerOk;
    AnswerSteps(s, id, ActivationOp(activation, request, choice), s.minted + {choice.uuid});
  }

  lemma ClaimActivationKeeps(s: System, id: RuntimeId, choice: Choice)
    requires Inv(s) && Enabled(s, Advance(id, choice)) && s.threads[id].ClaimingActivation? && s.process.Serving?
    ensures Inv(Active(s, id, s.threads[id], choice))
  {
    hide Inv, OwnInv, L.Inv, After, Answer;
    var pc, t := s.threads[id], Active(s, id, s.threads[id], choice);
    var op := ActivationOp(pc.activation, pc.request, choice);
    OwnFacts(s, id);
    var e := End(s, id);
    EndKeeps(s, id);
    if Answer(s.file, op).Err? {
      ErrWritesNothing(s.file, op);
      MintKeeps(e, s.minted + {choice.uuid});
    } else {
      ClaimActivationRow(e, id, pc.activation, pc.request, choice);
      RowKeeps(e, id, After(s.file, op), s.minted + {choice.uuid});
      var f := Mint(Write(e, op), choice);
      var row := Answer(s.file, op).value;
      if row.state == ACTIVE {
        LogActiveKeeps(f, id, row.activeResponse.value);
      } else {
        ResumeKeeps(s, f, t, id, PreparingActive(row));
      }
    }
  }

  lemma PrepareActiveKeeps(s: System, id: RuntimeId, choice: Choice)
    requires Inv(s) && Enabled(s, Advance(id, choice)) && s.process.Serving?
    requires s.threads[id].PreparingActive? || s.threads[id].CleaningReplica?
    ensures Inv(Active(s, id, s.threads[id], choice))
  {
    hide Inv, OwnInv, L.Inv, After;
    var t := Active(s, id, s.threads[id], choice);
    OwnFacts(s, id);
    var e := End(s, id);
    EndKeeps(s, id);
    DirsKeep(e, id, t.dirs);
    ResumeKeeps(s, e.(dirs := t.dirs), t, id, t.threads[id]);
  }

  lemma SwapKeeps(s: System, id: RuntimeId, choice: Choice)
    requires Inv(s) && Enabled(s, Advance(id, choice)) && s.process.Serving? && s.threads[id].Swapping?
    ensures Inv(Active(s, id, s.threads[id], choice))
  {
    hide Inv, OwnInv, L.Inv, After;
    var t, record := Active(s, id, s.threads[id], choice), s.threads[id].record;
    OwnFacts(s, id);
    var e := End(s, id);
    EndKeeps(s, id);
    if id in s.containers && s.containers[id].policy == ActiveOf(record) {
      ResumeKeeps(s, e, t, id, CreatingActive(record));
    } else if id !in s.containers || s.containers[id].policy == PreOf(record) {
      ContainersKeep(e, id, s.containers - {id});
      ResumeKeeps(s, e.(containers := s.containers - {id}), t, id, CleaningReplica(record));
    }
  }

  lemma CreateActiveKeeps(s: System, id: RuntimeId, choice: Choice)
    requires Inv(s) && Enabled(s, Advance(id, choice)) && s.process.Serving? && s.threads[id].CreatingActive?
    ensures Inv(Active(s, id, s.threads[id], choice))
  {
    hide Inv, OwnInv, L.Inv, After;
    var t, record := Active(s, id, s.threads[id], choice), s.threads[id].record;
    OwnFacts(s, id);
    var e := End(s, id);
    EndKeeps(s, id);
    ContainersKeep(e, id, t.containers);
    ResumeKeeps(s, e.(containers := t.containers), t, id, RegisteringActive(record));
  }

  lemma RegisterActiveKeeps(s: System, id: RuntimeId, choice: Choice)
    requires Inv(s) && Enabled(s, Advance(id, choice)) && s.process.Serving? && s.threads[id].RegisteringActive?
    ensures Inv(Active(s, id, s.threads[id], choice))
  {
    hide Inv, OwnInv, L.Inv, After;
    var pc, t := s.threads[id], Active(s, id, s.threads[id], choice);
    OwnFacts(s, id);
    EndKeeps(s, id);
    if id in s.containers && s.containers[id].policy == ActiveOf(pc.record) {
      NoteKeeps(End(s, id), id, RecordBrokerRegistered(id, choice.now));
      ResumeKeeps(s, Write(End(s, id), RecordBrokerRegistered(id, choice.now)), t, id, RecordingActive(pc.record, s.containers[id].id));
    }
  }

  lemma RecordActiveKeeps(s: System, id: RuntimeId, choice: Choice)
    requires Inv(s) && Enabled(s, Advance(id, choice)) && s.process.Serving? && s.threads[id].RecordingActive?
    ensures Inv(Active(s, id, s.threads[id], choice))
  {
    hide Inv, OwnInv, L.Inv, Answer, After;
    var pc, t := s.threads[id], Active(s, id, s.threads[id], choice);
    var op := RecordContainer(id, pc.record.requestHash, pc.containerId, choice.now);
    OwnFacts(s, id);
    EndKeeps(s, id);
    if Answer(s.file, op).Ok? {
      NoteKeeps(End(s, id), id, op);
      ResumeKeeps(s, Write(End(s, id), op), t, id, ReadyingActive(pc.record));
    }
  }

  lemma ReadyActiveRow(s: System, id: RuntimeId, op: Op)
    requires Inv(s) && id in s.file.rows && s.file.rows[id].state == ACTIVATING && op.RecordActiveReady? && op.id == id && Answer(s.file, op).Ok?
    ensures RowStep(s, id, After(s.file, op), s.minted)
    ensures var row := After(s.file, op).rows[id]; row == Answer(s.file, op).value && row.state == ACTIVATING && row.activeReadyAt.Some?
  {
    assert OwnInv(s, id);
    hide Inv, OwnInv, L.Inv, After, RowStep;
    AnswerSteps(s, id, op, s.minted);
  }

  lemma ReadyActiveKeeps(s: System, id: RuntimeId, choice: Choice)
    requires Inv(s) && Enabled(s, Advance(id, choice)) && s.process.Serving? && s.threads[id].ReadyingActive?
    ensures Inv(Active(s, id, s.threads[id], choice))
  {
    hide Inv, OwnInv, L.Inv, After;
    var pc, t := s.threads[id], Active(s, id, s.threads[id], choice);
    OwnFacts(s, id);
    EndKeeps(s, id);
    var op := RecordActiveReady(id, OfActivation(pc.record.activationJson.value), choice.now);
    if Answer(s.file, op).Ok? {
      var e := End(s, id);
      ReadyActiveRow(e, id, op);
      RowKeeps(e, id, After(s.file, op), s.minted);
      ResumeKeeps(s, Write(e, op), t, id, Activating(pc.record, Answer(s.file, op).value.activeReadyAt.value));
    }
  }

  lemma MarkActiveRow(s: System, id: RuntimeId, op: Op)
    requires Inv(s) && id in s.file.rows && s.file.rows[id].state == ACTIVATING && op.MarkActive? && op.id == id && Answer(s.file, op).Ok?
    requires id in s.containers ==> s.file.rows[id].activationJson.Some? && s.file.rows[id].activeReplicaId.Some? && s.containers[id].policy == ActiveOf(s.file.rows[id])
    ensures RowStep(s, id, After(s.file, op), s.minted)
    ensures var row := After(s.file, op).rows[id]; row.activeResponse == Answer(s.file, op).value.activeResponse && row.activeResponse.Some?
  {
    assert OwnInv(s, id);
    hide Inv, OwnInv, L.Inv, After, RowStep;
    AnswerSteps(s, id, op, s.minted);
  }

  lemma ActivateKeeps(s: System, id: RuntimeId, choice: Choice)
    requires Inv(s) && Enabled(s, Advance(id, choice)) && s.process.Serving? && s.threads[id].Activating?
    ensures Inv(Active(s, id, s.threads[id], choice))
  {
    hide Inv, OwnInv, L.Inv, After, Answer;
    var pc := s.threads[id];
    OwnFacts(s, id);
    EndKeeps(s, id);
    var a := pc.record.activationJson.value;
    var op := MarkActive(id, OfActivation(a), ActiveEvidence(a, pc.readyAt), choice.now);
    if Answer(s.file, op).Ok? {
      var e := End(s, id);
      MarkActiveRow(e, id, op);
      RowKeeps(e, id, After(s.file, op), s.minted);
      LogActiveKeeps(Write(e, op), id, Answer(s.file, op).value.activeResponse.value);
    }
  }

  lemma AdvanceKeeps(s: System, id: RuntimeId, choice: Choice)
    requires Inv(s) && Enabled(s, Advance(id, choice))
    ensures Inv(AdvanceThread(s, id, choice))
  {
    hide Answer, After;
    match s.threads[id]
    case TearContainer(_, _) => TearContainerKeeps(s, id);
    case TearReplica(_, _) => TearDirsKeeps(s, id);
    case TearActive(_, _) => TearDirsKeeps(s, id);
    case TearRow(_, _) => TearRowKeeps(s, id);
    case Claiming(_, _) => ClaimKeeps(s, id, choice);
    case Preparing(_, _) => PrepareKeeps(s, id, choice);
    case Creating(_, _) => CreateKeeps(s, id, choice);
    case Registering(_, _) => RegisterKeeps(s, id, choice);
    case Recording(_, _, _) => RecordKeeps(s, id, choice);
    case Readying(_, _) => ReadyKeeps(s, id, choice);
    case ClaimingActivation(_, _) => ClaimActivationKeeps(s, id, choice);
    case PreparingActive(_) => PrepareActiveKeeps(s, id, choice);
    case Swapping(_) => SwapKeeps(s, id, choice);
    case CleaningReplica(_) => PrepareActiveKeeps(s, id, choice);
    case CreatingActive(_) => CreateActiveKeeps(s, id, choice);
    case RegisteringActive(_) => RegisterActiveKeeps(s, id, choice);
    case RecordingActive(_, _) => RecordActiveKeeps(s, id, choice);
    case ReadyingActive(_) => ReadyActiveKeeps(s, id, choice);
    case Activating(_, _) => ActivateKeeps(s, id, choice);
    case Confirming(_) => EndKeeps(s, id);
  }

  lemma EnterOk(s: System, request: Request, next: Then)
    requires L.Inv(s.file) && ThenOk(next, IdOf(request), request)
    ensures PcOk(s, IdOf(request), EnterPc(s.file, request, next))
  {
  }

  lemma EnterKeeps(s: System, request: Request, next: Then)
    requires Inv(s) && s.process.Serving? && IdOf(request) !in s.threads && ThenOk(next, IdOf(request), request)
    ensures Inv(Enter(s, request, next))
  {
    EnterOk(s, request, next);
    GotoKeeps(s, IdOf(request), EnterPc(s.file, request, next));
  }

  lemma LoseKeeps(s: System, id: RuntimeId)
    requires Inv(s) && id in s.containers
    ensures Inv(s.(containers := s.containers - {id}))
  {
    assert OwnInv(s, id);
    LocalKeeps(s, s.(containers := s.containers - {id}), id);
  }

  lemma DownKeeps(s: System, dirs: set<nat>, process: Process)
    requires Inv(s) && dirs <= s.dirs && !process.Serving?
    ensures Inv(s.(process := process, threads := map[], dirs := dirs))
  {
    var t := s.(process := process, threads := map[], dirs := dirs);
    forall id ensures OwnInv(t, id) { assert OwnInv(s, id); }
  }

  lemma RebindDoneKeeps(s: System, id: RuntimeId, now: nat)
    requires Inv(s) && Enabled(s, RebindDone(id, now))
    ensures Inv(Apply(s, RebindDone(id, now)))
  {
    NoteKeeps(s, id, RecordBrokerRegistered(id, now));
    var t := Write(s, RecordBrokerRegistered(id, now));
    DownKeeps(t, t.dirs, Rebinding(s.process.todo - {id}));
  }

  lemma IdleKeeps(s: System, process: Process)
    requires Inv(s) && s.threads == map[]
    ensures Inv(s.(process := process))
  {
    var t := s.(process := process);
    forall id ensures OwnInv(t, id) { assert OwnInv(s, id); }
  }

  lemma SweepKeeps(s: System, orphans: set<nat>)
    requires Inv(s) && Enabled(s, Sweep(orphans))
    ensures Inv(Apply(s, Sweep(orphans)))
  {
    var t := Apply(s, Sweep(orphans));
    forall id ensures OwnInv(t, id) { assert OwnInv(s, id); }
  }

  /** Every step keeps the invariant. */
  lemma InvStep(s: System, step: Step)
    requires Inv(s) && Enabled(s, step)
    ensures Inv(Apply(s, step))
  {
    match step
    case EnsureReady(request) => EnterKeeps(s, request, ReplyReady);
    case Status(id) => EnterKeeps(s, s.file.rows[id].requestJson, ReplyReady);
    case ActivateRuntime(a) => EnterKeeps(s, a.request, Activate(a));
    case RemoveRuntime(id) =>
      assert OwnInv(s, id);
      GotoKeeps(s, id, if id in s.file.rows then TearContainer(s.file.rows[id], Remove) else Confirming(None));
    case EraseArtifactOf(id) =>
      assert OwnInv(s, id);
      GotoKeeps(s, id, TearContainer(s.file.rows[id], Erase));
    case Advance(id, choice) => AdvanceKeeps(s, id, choice);
    case Throw(id) => EndKeeps(s, id);
    case LoseContainer(id) => LoseKeeps(s, id);
    case Crash => DownKeeps(s, s.dirs, Down);
    case HostReboot => DownKeeps(s, {}, Down);
    case Boot => DownKeeps(s, s.dirs, Apply(s, Boot).process);
    case RebindCleanup(id) => DirsKeep(s, id, Apply(s, step).dirs);
    case RebindPrepare(id) => DirsKeep(s, id, Apply(s, step).dirs);
    case RebindDone(id, now) => RebindDoneKeeps(s, id, now);
    case RebindFailed(id) => IdleKeeps(s, Apply(s, step).process);
    case RebindAbandoned => IdleKeeps(s, Serving);
    case Sweep(orphans) => SweepKeeps(s, orphans);
  }

  lemma {:induction false} InvRuns(s: System, steps: seq<Step>, t: System)
    requires Inv(s) && Runs(s, steps, t)
    ensures Inv(t)
    decreases |steps|
  {
    if steps != [] {
      InvStep(s, steps[0]);
      InvRuns(Apply(s, steps[0]), steps[1..], t);
    }
  }

  lemma InitInv(s: System)
    requires Init(s)
    ensures Inv(s)
  {
  }

  // ---- main results ----

  /** At every point of every run, crashes included, each container and each broker directory is named by a row. */
  lemma NamedByRows(init: System, steps: seq<Step>, s: System)
    requires Init(init) && Runs(init, steps, s)
    ensures forall id <- s.containers :: id in s.file.rows
    ensures forall d <- s.dirs :: exists id :: id in s.file.rows && d in Names(s.file.rows[id])
  {
    InitInv(init);
    InvRuns(init, steps, s);
    forall id <- s.containers ensures id in s.file.rows { assert OwnInv(s, id); }
  }

  /**
   * Once `remove` has torn a runtime down, its final checks cannot fail: the row, the container and both broker
   * directories of the torn row are gone, and it answers ABSENT.
   */
  lemma AbsentMeansGone(init: System, steps: seq<Step>, s: System, id: RuntimeId)
    requires Init(init) && Runs(init, steps, s) && id in s.threads && s.threads[id].Confirming?
    ensures id !in s.file.rows && id !in s.containers && AnswersAbsent(s, id)
    ensures s.threads[id].torn.Some? ==> Names(s.threads[id].torn.value) !! s.dirs
  {
    hide Inv, OwnInv, Init, Runs;
    InitInv(init);
    InvRuns(init, steps, s);
    OwnFacts(s, id);
  }

  /** Until a row is deleted all READY replies carry its one READY document and all ACTIVE replies its one ACTIVE document. */
  lemma RepliesNeverDiffer(init: System, steps: seq<Step>, s: System, id: RuntimeId)
    requires Init(init) && Runs(init, steps, s)
    ensures forall e <- RepliesTo(s.readyReplies, id) :: id in s.file.rows && s.file.rows[id].readyResponse == Some(e)
    ensures forall e <- RepliesTo(s.activeReplies, id) :: id in s.file.rows && s.file.rows[id].activeResponse == Some(e)
  {
    InitInv(init);
    InvRuns(init, steps, s);
    assert OwnInv(s, id);
  }

  /** Under an ACTIVE row the container is absent or the active-phase one of exactly that activation. */
  lemma ActiveRowsRunActive(init: System, steps: seq<Step>, s: System, id: RuntimeId)
    requires Init(init) && Runs(init, steps, s) && id in s.file.rows && s.file.rows[id].state == ACTIVE
    ensures id in s.containers ==>
              var row := s.file.rows[id];
              row.activationJson.Some? && row.activeReplicaId.Some? && s.containers[id].policy == ActiveOf(row)
  {
    InitInv(init);
    InvRuns(init, steps, s);
    assert OwnInv(s, id);
  }

  /** The policy check of a reconcile never finds a drifted container of this service's own making. */
  lemma NeverDrifts(init: System, steps: seq<Step>, s: System, id: RuntimeId)
    requires Init(init) && Runs(init, steps, s) && id in s.threads && id in s.containers
    ensures s.threads[id].Registering? ==> s.containers[id].policy == PreOf(s.threads[id].record)
    ensures s.threads[id].RegisteringActive? ==>
              var record := s.threads[id].record;
              record.activationJson.Some? && record.activeReplicaId.Some? && s.containers[id].policy == ActiveOf(record)
  {
    InitInv(init);
    InvRuns(init, steps, s);
    assert OwnInv(s, id);
  }

  lemma OnlyTearRowDeletes(s: System, step: Step, id: RuntimeId)
    requires L.Inv(s.file) && Enabled(s, step) && id in s.file.rows && id !in Apply(s, step).file.rows
    requires step.Advance? ==> PcOk(s, step.id, s.threads[step.id])
    ensures step.Advance? && step.id == id && s.threads[id].TearRow?
  {
    hide L.Inv, Answer, After, AdvanceThread;
    if step.Advance? {
      DeletesOwn(s, step.id, step.choice, id);
    } else if step.RebindDone? {
      OpKeeps(s.file, RecordBrokerRegistered(step.id, step.now));
    }
  }

  lemma DeletesOwn(s: System, thread: RuntimeId, choice: Choice, id: RuntimeId)
    requires L.Inv(s.file) && thread in s.threads && PcOk(s, thread, s.threads[thread])
    requires id in s.file.rows && id !in AdvanceThread(s, thread, choice).file.rows
    ensures thread == id && s.threads[id].TearRow?
  {
    if !s.threads[thread].TearRow? {
      KeepsEveryRow(s, thread, choice, id);
    }
  }

  lemma KeepsEveryRow(s: System, thread: RuntimeId, choice: Choice, id: RuntimeId)
    requires L.Inv(s.file) && thread in s.threads && !s.threads[thread].TearRow? && id in s.file.rows
    ensures id in AdvanceThread(s, thread, choice).file.rows
  {
    WritesOnly(s, thread, choice);
    OpKeeps(s.file, WriteOf(s, thread, choice));
  }

  lemma WritesOnly(s: System, id: RuntimeId, choice: Choice)
    requires id in s.threads && !s.threads[id].TearRow?
    ensures var file := AdvanceThread(s, id, choice).file; file == s.file || file == After(s.file, WriteOf(s, id, choice))
  {
    hide Answer, After;
    var pc := s.threads[id];
    if pc.Claiming? || pc.Readying? {
      ReadyWrites(s, id, choice);
    } else if pc.Registering? || pc.Recording? {
      NoteWrites(s, id, choice);
    } else if pc.ClaimingActivation? || pc.RecordingActive? {
      ClaimWrites(s, id, choice);
    } else if pc.ReadyingActive? || pc.Activating? {
      EvidenceWrites(s, id, choice);
    }
  }

  lemma ReadyWrites(s: System, id: RuntimeId, choice: Choice)
    requires id in s.threads && (s.threads[id].Claiming? || s.threads[id].Readying?)
    ensures var file := Ready(s, id, s.threads[id], choice).file; file == s.file || file == After(s.file, WriteOf(s, id, choice))
  {
    hide Answer, After;
  }

  lemma NoteWrites(s: System, id: RuntimeId, choice: Choice)
    requires id in s.threads && (s.threads[id].Registering? || s.threads[id].Recording?)
    ensures var file := Ready(s, id, s.threads[id], choice).file; file == s.file || file == After(s.file, WriteOf(s, id, choice))
  {
    hide Answer, After;
  }

  lemma ClaimWrites(s: System, id: RuntimeId, choice: Choice)
    requires id in s.threads && (s.threads[id].ClaimingActivation? || s.threads[id].RecordingActive?)
    ensures var file := Active(s, id, s.threads[id], choice).file; file == s.file || file == After(s.file, WriteOf(s, id, choice))
  {
    hide Answer, After;
  }

  lemma EvidenceWrites(s: System, id: RuntimeId, choice: Choice)
    requires id in s.threads && (s.threads[id].ReadyingActive? || s.threads[id].Activating?)
    ensures var file := Active(s, id, s.threads[id], choice).file; file == s.file || file == After(s.file, WriteOf(s, id, choice))
  {
    hide Answer, After;
  }

  /** The ledger operation a thread may write next. */
  function WriteOf(s: System, id: RuntimeId, choice: Choice): Op
    requires id in s.threads
    ensures !WriteOf(s, id, choice).Delete?
  {
    match s.threads[id]
    case Claiming(request, _) => ClaimOp(request, choice)
    case Recording(record, _, containerId) => RecordContainer(id, record.requestHash, containerId, choice.now)
    case Readying(record, _) => MarkReady(id, record.requestHash, ReadyEvidence(id, record.requestJson, choice.now), choice.now)
    case ClaimingActivation(activation, request) => ActivationOp(activation, request, choice)
    case RecordingActive(record, containerId) => RecordContainer(id, record.requestHash, containerId, choice.now)
    case ReadyingActive(record) =>
      if record.activationJson.None? then RecordBrokerRegistered(id, choice.now)
      else RecordActiveReady(id, OfActivation(record.activationJson.value), choice.now)
    case Activating(record, readyAt) =>
      if record.activationJson.None? then RecordBrokerRegistered(id, choice.now)
      else MarkActive(id, OfActivation(record.activationJson.value), ActiveEvidence(record.activationJson.value, readyAt), choice.now)
    case _ => RecordBrokerRegistered(id, choice.now)
  }

  /** A row whose activation was claimed disappears only in the last step of a `remove` of that runtime. */
  lemma ClaimedRowsNeedRemove(init: System, steps: seq<Step>, s: System, step: Step, id: RuntimeId)
    requires Init(init) && Runs(init, steps, s) && Enabled(s, step)
    requires id in s.file.rows && s.file.rows[id].activationHash.Some? && id !in Apply(s, step).file.rows
    ensures step.Advance? && step.id == id && s.threads[id].TearRow? && s.threads[id].purpose == Remove
  {
    InitInv(init);
    InvRuns(init, steps, s);
    if step.Advance? { assert OwnInv(s, step.id); }
    OnlyTearRowDeletes(s, step, id);
    assert OwnInv(s, id);
  }
}
