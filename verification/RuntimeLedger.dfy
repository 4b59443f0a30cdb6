/**
 * The local-runtime ledger: rows by runtime id and one slot for each generation, written as a whole
 * after every change. Rows move CLAIMED, READY, ACTIVATING, ACTIVE; removal deletes the row.
 *
 * Documents are kept as values and a hash as the value it was computed from: hashing is taken to
 * be injective. Random ids are passed in by the caller of the model.
 */
module RuntimeLedger {
  import opened Wrappers

  datatype Affinity = Affinity(generationId: string, installationId: string, generationNumber: nat, rest: string)

  datatype Request = Request(affinity: Affinity, artifact: string, spec: string)

  /** Computed from the affinity alone, so requests that differ in artifact or spec share it. */
  datatype RuntimeId = RuntimeId(affinity: Affinity)

  datatype Activation = Activation(runtimeId: RuntimeId, request: Request, grant: string)

  /** What a container is created from, in either authorization phase. */
  datatype Spec = Spec(request: Request, activation: Option<Activation>)

  datatype Hash = OfRequest(request: Request) | OfActivation(activation: Activation) | OfSpec(spec: Spec)

  datatype ReadyEvidence = ReadyEvidence(runtimeId: RuntimeId, request: Request, readyAt: nat)

  datatype ActiveEvidence = ActiveEvidence(activation: Activation, activatedAt: nat)

  datatype State = CLAIMED | READY | ACTIVATING | ACTIVE

  datatype Record = Record(
    generationId: string,
    requestHash: Hash,
    requestJson: Request,
    runtimeId: RuntimeId,
    artifactDigest: string,
    containerSpecHash: Hash,
    containerId: Option<nat>,
    state: State,
    readyResponse: Option<ReadyEvidence>,
    activationHash: Option<Hash>,
    activationJson: Option<Activation>,
    activeSpecHash: Option<Hash>,
    claimedAt: Option<nat>,
    activeReadyAt: Option<nat>,
    activeResponse: Option<ActiveEvidence>,
    updatedAt: nat,
    replicaId: nat,
    activeReplicaId: Option<nat>,
    brokerRegisteredAt: Option<nat>)

  datatype File = File(rows: map<RuntimeId, Record>, slots: map<string, RuntimeId>)

  datatype Error = AffinityConflict | RuntimeUnavailable

  datatype ClaimInput = ClaimInput(generationId: string, requestHash: Hash, requestJson: Request, runtimeId: RuntimeId, artifactDigest: string, containerSpecHash: Hash)

  datatype ActivationInput = ActivationInput(runtimeId: RuntimeId, requestHash: Hash, activationHash: Hash, activationJson: Activation, activeSpecHash: Hash)

  datatype Op =
    | Claim(claim: ClaimInput, now: nat, uuid: nat)
    | RecordContainer(id: RuntimeId, hash: Hash, containerId: nat, now: nat)
    | MarkReady(id: RuntimeId, hash: Hash, ready: ReadyEvidence, now: nat)
    | ClaimActivation(activation: ActivationInput, now: nat, uuid: nat)
    | RecordBrokerRegistered(id: RuntimeId, now: nat)
    | RecordActiveReady(id: RuntimeId, hash: Hash, now: nat)
    | MarkActive(id: RuntimeId, hash: Hash, active: ActiveEvidence, now: nat)
    | Delete(id: RuntimeId)

  // ---- what each mutator does to the file ----

  predicate SameClaim(row: Record, input: ClaimInput) {
    && row.requestHash == input.requestHash && row.requestJson == input.requestJson
    && row.artifactDigest == input.artifactDigest && row.containerSpecHash == input.containerSpecHash
  }

  predicate SameActivation(row: Record, input: ActivationInput) {
    && row.activationHash == Some(input.activationHash) && row.activationJson == Some(input.activationJson)
    && row.activeSpecHash == Some(input.activeSpecHash) && row.claimedAt.Some? && row.claimedAt.value > 0
  }

  function NewRow(input: ClaimInput, now: nat, uuid: nat): Record {
    Record(input.generationId, input.requestHash, input.requestJson, input.runtimeId, input.artifactDigest, input.containerSpecHash,
           None, CLAIMED, None, None, None, None, None, None, None, now, uuid, None, None)
  }

  /** The row an operation returns, or the error it throws. An error leaves the file alone. */
  function Answer(file: File, op: Op): Result<Record, Error> {
    match op
    case Claim(input, now, uuid) =>
      if input.runtimeId !in file.rows then Ok(NewRow(input, now, uuid))
      else if SameClaim(file.rows[input.runtimeId], input) then Ok(file.rows[input.runtimeId])
      else Err(AffinityConflict)
    case RecordContainer(id, hash, containerId, now) =>
      if id !in file.rows || file.rows[id].requestHash != hash then Err(AffinityConflict)
      else Ok(file.rows[id].(containerId := Some(containerId), updatedAt := now))
    case MarkReady(id, hash, ready, now) =>
      if id !in file.rows || file.rows[id].requestHash != hash then Err(AffinityConflict)
      else if file.rows[id].state != CLAIMED then
        if file.rows[id].readyResponse == Some(ready) then Ok(file.rows[id]) else Err(AffinityConflict)
      else if file.rows[id].containerId.None? then Err(RuntimeUnavailable)
      else Ok(file.rows[id].(state := READY, readyResponse := Some(ready), updatedAt := now))
    case ClaimActivation(input, now, uuid) =>
      if input.runtimeId !in file.rows || file.rows[input.runtimeId].requestHash != input.requestHash then Err(AffinityConflict)
      else
        var row := file.rows[input.runtimeId];
        (match row.state
         case CLAIMED => Err(RuntimeUnavailable)
         case READY =>
           if row.readyResponse.None? then Err(RuntimeUnavailable)
           else Ok(row.(state := ACTIVATING, activationHash := Some(input.activationHash), activationJson := Some(input.activationJson),
                        activeSpecHash := Some(input.activeSpecHash), claimedAt := Some(now), activeReplicaId := Some(uuid), updatedAt := now))
         case _ => if SameActivation(row, input) then Ok(row) else Err(AffinityConflict))
    case RecordBrokerRegistered(id, now) =>
      if id !in file.rows then Err(RuntimeUnavailable)
      else Ok(file.rows[id].(brokerRegisteredAt := Some(now), updatedAt := now))
    case RecordActiveReady(id, hash, now) =>
      if id !in file.rows || file.rows[id].activationHash != Some(hash) || !(file.rows[id].state == ACTIVATING || file.rows[id].state == ACTIVE)
         || file.rows[id].containerId.None? || file.rows[id].activeSpecHash.None? then Err(AffinityConflict)
      else if file.rows[id].activeReadyAt.None? then Ok(file.rows[id].(activeReadyAt := Some(now), updatedAt := now))
      else Ok(file.rows[id])
    case MarkActive(id, hash, active, now) =>
      if id !in file.rows || file.rows[id].activationHash != Some(hash) then Err(AffinityConflict)
      else
        var row := file.rows[id];
        if row.state == ACTIVE then
          if row.activeReadyAt.Some? && row.activeReadyAt.value > 0 && row.activeResponse == Some(active) then Ok(row) else Err(AffinityConflict)
        else if row.state != ACTIVATING || row.containerId.None? || row.activeSpecHash.None? || row.claimedAt.None? || row.activeReadyAt.None? then
          Err(RuntimeUnavailable)
        else Ok(row.(state := ACTIVE, activeResponse := Some(active), updatedAt := now))
    case Delete(id) => if id in file.rows then Ok(file.rows[id]) else Err(RuntimeUnavailable)
  }

  /** The slot a successful operation moves: an empty one on a claim, always when a row turns ACTIVE. */
  function SlotsAfter(file: File, op: Op): map<string, RuntimeId> {
    match op
    case Claim(input, _, _) =>
      if input.runtimeId !in file.rows && input.generationId !in file.slots then file.slots[input.generationId := input.runtimeId] else file.slots
    case MarkActive(id, hash, _, _) =>
      if id in file.rows && file.rows[id].state == ACTIVATING then file.slots[file.rows[id].generationId := id] else file.slots
    case Delete(id) =>
      if id in file.rows && file.rows[id].generationId in file.slots && file.slots[file.rows[id].generationId] == id
      then file.slots - {file.rows[id].generationId} else file.slots
    case _ => file.slots
  }

  function After(file: File, op: Op): File {
    var answer := Answer(file, op);
    if answer.Err? then file
    else if op.Delete? then File(file.rows - {op.id}, SlotsAfter(file, op))
    else File(file.rows[answer.value.runtimeId := answer.value], SlotsAfter(file, op))
  }

  // ---- reachable ledgers ----

  function Rank(state: State): nat {
    match state
    case CLAIMED => 0
    case READY => 1
    case ACTIVATING => 2
    case ACTIVE => 3
  }

  /** The optional fields of a row are exactly those its state calls for. */
  ghost predicate RowShape(row: Record) {
    && (row.readyResponse.Some? <==> Rank(row.state) >= 1)
    && (row.containerId.None? ==> row.state == CLAIMED)
    && (row.activationHash.Some? <==> Rank(row.state) >= 2)
    && (row.activationJson.Some? <==> Rank(row.state) >= 2)
    && (row.activeSpecHash.Some? <==> Rank(row.state) >= 2)
    && (row.claimedAt.Some? <==> Rank(row.state) >= 2)
    && (row.activeReplicaId.Some? <==> Rank(row.state) >= 2)
    && (row.activeReadyAt.Some? ==> Rank(row.state) >= 2)
    && (row.activeResponse.Some? <==> row.state == ACTIVE)
    && (row.state == ACTIVE ==> row.activeReadyAt.Some?)
  }

  ghost predicate Inv(file: File) {
    && (forall id <- file.rows :: file.rows[id].runtimeId == id && RowShape(file.rows[id]))
    && (forall g <- file.slots :: file.slots[g] in file.rows && file.rows[file.slots[g]].generationId == g)
  }

  /** What later operations never take back from a row that stays. */
  ghost predicate RowGrows(row: Record, next: Record) {
    && next.runtimeId == row.runtimeId && next.generationId == row.generationId
    && next.requestHash == row.requestHash && next.requestJson == row.requestJson
    && next.artifactDigest == row.artifactDigest && next.containerSpecHash == row.containerSpecHash
    && next.replicaId == row.replicaId
    && Rank(row.state) <= Rank(next.state)
    && (row.readyResponse.Some? ==> next.readyResponse == row.readyResponse)
    && (row.activationHash.Some? ==> next.activationHash == row.activationHash && next.activationJson == row.activationJson)
    && (row.activeReplicaId.Some? ==> next.activeReplicaId == row.activeReplicaId)
    && (row.activeReadyAt.Some? ==> next.activeReadyAt == row.activeReadyAt)
    && (row.activeResponse.Some? ==> next.activeResponse == row.activeResponse)
  }

  /** A filled slot moves only when its row is deleted or a row of its generation turns ACTIVE. */
  ghost predicate SlotMoves(file: File, next: File, g: string)
    requires g in file.slots
  {
    || (g in next.slots && next.slots[g] == file.slots[g])
    || (g !in next.slots && file.slots[g] in file.rows && file.slots[g] !in next.rows)
    || (g in next.slots && next.slots[g] in file.rows && next.slots[g] in next.rows
        && file.rows[next.slots[g]].state != ACTIVE && next.rows[next.slots[g]].state == ACTIVE)
  }

  lemma RowGrowsSelf(row: Record)
    ensures RowGrows(row, row)
  {
  }

  lemma KeepsRows(file: File, op: Op)
    requires Inv(file)
    ensures forall id <- After(file, op).rows :: After(file, op).rows[id].runtimeId == id && RowShape(After(file, op).rows[id])
    ensures forall id | id in file.rows && id in After(file, op).rows :: RowGrows(file.rows[id], After(file, op).rows[id])
  {
    hide Answer, RowShape, RowGrows, SlotsAfter;
    forall id | id in file.rows ensures RowGrows(file.rows[id], file.rows[id]) {
      RowGrowsSelf(file.rows[id]);
    }
    if Answer(file, op).Ok? && !op.Delete? { AnswerShape(file, op); }
  }

  /** The row an operation returns has the shape of its state and only grows. */
  ghost predicate GoodAnswer(file: File, op: Op)
    requires Answer(file, op).Ok?
  {
    var row := Answer(file, op).value;
    && RowShape(row)
    && (row.runtimeId in file.rows ==> RowGrows(file.rows[row.runtimeId], row))
    && (row.runtimeId !in file.rows ==> op.Claim? && row == NewRow(op.claim, op.now, op.uuid))
  }

  lemma ClaimAnswer(file: File, op: Op)
    requires Inv(file) && Answer(file, op).Ok? && op.Claim?
    ensures GoodAnswer(file, op)
  {
  }

  lemma NoteAnswer(file: File, op: Op)
    requires Inv(file) && Answer(file, op).Ok? && (op.RecordContainer? || op.RecordBrokerRegistered?)
    ensures GoodAnswer(file, op)
  {
  }

  lemma ReadyAnswer(file: File, op: Op)
    requires Inv(file) && Answer(file, op).Ok? && op.MarkReady?
    ensures GoodAnswer(file, op)
  {
  }

  lemma ActivationAnswer(file: File, op: Op)
    requires Inv(file) && Answer(file, op).Ok? && op.ClaimActivation?
    ensures GoodAnswer(file, op)
  {
  }

  lemma ActiveReadyAnswer(file: File, op: Op)
    requires Inv(file) && Answer(file, op).Ok? && op.RecordActiveReady?
    ensures GoodAnswer(file, op)
  {
  }

  lemma ActiveAnswer(file: File, op: Op)
    requires Inv(file) && Answer(file, op).Ok? && op.MarkActive?
    ensures GoodAnswer(file, op)
  {
  }

  lemma SameGeneration(rows: map<RuntimeId, Record>, row: Record)
    requires row.runtimeId in rows ==> RowGrows(rows[row.runtimeId], row)
    ensures row.runtimeId in rows ==> rows[row.runtimeId].generationId == row.generationId
  {
  }

  lemma AnswerShape(file: File, op: Op)
    requires Inv(file) && Answer(file, op).Ok? && !op.Delete?
    ensures var row := Answer(file, op).value;
            && RowShape(row)
            && (row.runtimeId in file.rows ==> RowGrows(file.rows[row.runtimeId], row))
            && (row.runtimeId in file.rows ==> file.rows[row.runtimeId].generationId == row.generationId)
            && (row.runtimeId !in file.rows ==> op.Claim? && row == NewRow(op.claim, op.now, op.uuid))
  {
    hide Answer, RowShape, RowGrows;
    match op {
      case Claim(_, _, _) => ClaimAnswer(file, op);
      case MarkReady(_, _, _, _) => ReadyAnswer(file, op);
      case ClaimActivation(_, _, _) => ActivationAnswer(file, op);
      case RecordActiveReady(_, _, _) => ActiveReadyAnswer(file, op);
      case MarkActive(_, _, _, _) => ActiveAnswer(file, op);
      case _ => NoteAnswer(file, op);
    }
    SameGeneration(file.rows, Answer(file, op).value);
  }

  lemma KeepsSlots(file: File, op: Op)
    requires Inv(file)
    ensures var next := After(file, op);
            && (forall g <- next.slots :: next.slots[g] in next.rows && next.rows[next.slots[g]].generationId == g)
            && forall g <- file.slots :: SlotMoves(file, next, g)
  {
    hide RowShape, RowGrows;
    if Answer(file, op).Ok? && !op.Delete? { AnswerShape(file, op); }
  }

  /** The ledger invariant survives every mutator, and rows only grow until they are deleted. */
  lemma OpKeeps(file: File, op: Op)
    requires Inv(file)
    ensures Inv(After(file, op))
    ensures forall id | id in file.rows && id in After(file, op).rows :: RowGrows(file.rows[id], After(file, op).rows[id])
    ensures forall g <- file.slots :: SlotMoves(file, After(file, op), g)
    ensures forall id | id in file.rows && id !in After(file, op).rows :: op == Delete(id)
  {
    KeepsRows(file, op);
    KeepsSlots(file, op);
  }

  /** A successful write replaces the one row it answers, which only grows. */
  lemma WritesOneRow(file: File, op: Op)
    requires Inv(file) && !op.Delete? && Answer(file, op).Ok?
    ensures Inv(After(file, op))
    ensures var row := Answer(file, op).value;
            After(file, op).rows == file.rows[row.runtimeId := row] && (row.runtimeId in file.rows ==> RowGrows(file.rows[row.runtimeId], row))
  {
    hide Inv, Answer, RowShape, RowGrows, SlotsAfter;
    OpKeeps(file, op);
    AnswerShape(file, op);
  }

  predicate Runs(file: File, ops: seq<Op>, end: File)
    decreases |ops|
  {
    if ops == [] then file == end else Runs(After(file, ops[0]), ops[1..], end)
  }

  lemma {:induction false} RunsKeep(file: File, ops: seq<Op>, end: File)
    requires Inv(file) && Runs(file, ops, end)
    ensures Inv(end)
    decreases |ops|
  {
    if ops != [] {
      OpKeeps(file, ops[0]);
      RunsKeep(After(file, ops[0]), ops[1..], end);
    }
  }

  lemma EmptyLedger()
    ensures Inv(File(map[], map[]))
  {
  }

  /** In every ledger reached from the empty one the fields match the state and each slot names a row of its generation. */
  lemma ReachableLedger(ops: seq<Op>, end: File)
    requires Runs(File(map[], map[]), ops, end)
    ensures Inv(end)
  {
    EmptyLedger();
    RunsKeep(File(map[], map[]), ops, end);
  }

  /** Over any run in which a row is not deleted, its ids, evidence and rank are never taken back. */
  lemma {:induction false} RowsOnlyGrow(file: File, ops: seq<Op>, end: File, id: RuntimeId)
    requires Inv(file) && Runs(file, ops, end) && id in file.rows && Delete(id) !in ops
    ensures id in end.rows && RowGrows(file.rows[id], end.rows[id])
    decreases |ops|
  {
    if ops != [] {
      OpKeeps(file, ops[0]);
      assert ops[0] in ops && forall op <- ops[1..] :: op in ops;
      var next := After(file, ops[0]);
      assert id in next.rows;
      RowsOnlyGrow(next, ops[1..], end, id);
    }
  }

  // ---- the ledger object ----

  /** Each method reads the file, edits one row and at most one slot, and writes the file back. */
  class Ledger {
    var file: File

    constructor ()
      ensures file == File(map[], map[])
    {
      file := File(map[], map[]);
    }

    function Get(generationId: string): Option<Record>
      reads this
    {
      if generationId in file.slots && file.slots[generationId] in file.rows then Some(file.rows[file.slots[generationId]]) else None
    }

    method ClaimRow(input: ClaimInput, now: nat, uuid: nat) returns (r: Result<Record, Error>)
      requires Inv(file)
      modifies this
      ensures r == Answer(old(file), Claim(input, now, uuid)) && file == After(old(file), Claim(input, now, uuid))
      ensures Inv(file)
    {
      OpKeeps(file, Claim(input, now, uuid));
      if input.runtimeId in file.rows {
        var existing := file.rows[input.runtimeId];
        if !SameClaim(existing, input) { return Err(AffinityConflict); }
        assert file.rows[input.runtimeId := existing] == file.rows;
        return Ok(existing);
      }
      var record := NewRow(input, now, uuid);
      var rows := file.rows[input.runtimeId := record];
      var slots := file.slots;
      if input.generationId !in slots { slots := slots[input.generationId := input.runtimeId]; }
      file := File(rows, slots);
      r := Ok(record);
    }

    method RecordContainerId(id: RuntimeId, hash: Hash, containerId: nat, now: nat) returns (r: Result<Record, Error>)
      requires Inv(file)
      modifies this
      ensures r == Answer(old(file), RecordContainer(id, hash, containerId, now)) && file == After(old(file), RecordContainer(id, hash, containerId, now))
      ensures Inv(file)
    {
      OpKeeps(file, RecordContainer(id, hash, containerId, now));
      if id !in file.rows || file.rows[id].requestHash != hash { return Err(AffinityConflict); }
      var record := file.rows[id].(containerId := Some(containerId), updatedAt := now);
      file := file.(rows := file.rows[id := record]);
      r := Ok(record);
    }

    method MarkRowReady(id: RuntimeId, hash: Hash, ready: ReadyEvidence, now: nat) returns (r: Result<Record, Error>)
      requires Inv(file)
      modifies this
      ensures r == Answer(old(file), MarkReady(id, hash, ready, now)) && file == After(old(file), MarkReady(id, hash, ready, now))
      ensures Inv(file)
    {
      OpKeeps(file, MarkReady(id, hash, ready, now));
      if id !in file.rows || file.rows[id].requestHash != hash { return Err(AffinityConflict); }
      var record := file.rows[id];
      if record.state != CLAIMED {
        if record.readyResponse != Some(ready) { return Err(AffinityConflict); }
        assert file.rows[id := record] == file.rows;
        return Ok(record);
      }
      if record.containerId.None? { return Err(RuntimeUnavailable); }
      record := record.(state := READY, readyResponse := Some(ready), updatedAt := now);
      file := file.(rows := file.rows[id := record]);
      r := Ok(record);
    }

    method ClaimRowActivation(input: ActivationInput, now: nat, uuid: nat) returns (r: Result<Record, Error>)
      requires Inv(file)
      modifies this
      ensures r == Answer(old(file), ClaimActivation(input, now, uuid)) && file == After(old(file), ClaimActivation(input, now, uuid))
      ensures Inv(file)
    {
      OpKeeps(file, ClaimActivation(input, now, uuid));
      var id := input.runtimeId;
      if id !in file.rows || file.rows[id].requestHash != input.requestHash { return Err(AffinityConflict); }
      var record := file.rows[id];
      if record.state == CLAIMED { return Err(RuntimeUnavailable); }
      if record.state == ACTIVATING || record.state == ACTIVE {
        if !SameActivation(record, input) { return Err(AffinityConflict); }
        assert file.rows[id := record] == file.rows;
        return Ok(record);
      }
      if record.readyResponse.None? { return Err(RuntimeUnavailable); }
      record := record.(state := ACTIVATING, activationHash := Some(input.activationHash), activationJson := Some(input.activationJson));
      record := record.(activeSpecHash := Some(input.activeSpecHash), claimedAt := Some(now), activeReplicaId := Some(uuid), updatedAt := now);
      file := file.(rows := file.rows[id := record]);
      r := Ok(record);
    }

    method RecordRegistration(id: RuntimeId, now: nat) returns (r: Result<Record, Error>)
      requires Inv(file)
      modifies this
      ensures r == Answer(old(file), RecordBrokerRegistered(id, now)) && file == After(old(file), RecordBrokerRegistered(id, now))
      ensures Inv(file)
    {
      OpKeeps(file, RecordBrokerRegistered(id, now));
      if id !in file.rows { return Err(RuntimeUnavailable); }
      var record := file.rows[id].(brokerRegisteredAt := Some(now), updatedAt := now);
      file := file.(rows := file.rows[id := record]);
      r := Ok(record);
    }

    method RecordActiveContainerReady(id: RuntimeId, hash: Hash, now: nat) returns (r: Result<Record, Error>)
      requires Inv(file)
      modifies this
      ensures r == Answer(old(file), RecordActiveReady(id, hash, now)) && file == After(old(file), RecordActiveReady(id, hash, now))
      ensures Inv(file)
    {
      OpKeeps(file, RecordActiveReady(id, hash, now));
      if id !in file.rows { return Err(AffinityConflict); }
      var record := file.rows[id];
      if record.activationHash != Some(hash) || !(record.state == ACTIVATING || record.state == ACTIVE)
         || record.containerId.None? || record.activeSpecHash.None? { return Err(AffinityConflict); }
      if record.activeReadyAt.None? {
        record := record.(activeReadyAt := Some(now), updatedAt := now);
      }
      assert file.rows[id := file.rows[id]] == file.rows;
      file := file.(rows := file.rows[id := record]);
      r := Ok(record);
    }

    method MarkRowActive(id: RuntimeId, hash: Hash, active: ActiveEvidence, now: nat) returns (r: Result<Record, Error>)
      requires Inv(file)
      modifies this
      ensures r == Answer(old(file), MarkActive(id, hash, active, now)) && file == After(old(file), MarkActive(id, hash, active, now))
      ensures Inv(file)
    {
      OpKeeps(file, MarkActive(id, hash, active, now));
      if id !in file.rows || file.rows[id].activationHash != Some(hash) { return Err(AffinityConflict); }
      var record := file.rows[id];
      if record.state == ACTIVE {
        if record.activeReadyAt.None? || record.activeReadyAt.value == 0 || record.activeResponse != Some(active) { return Err(AffinityConflict); }
        assert file.rows[id := record] == file.rows;
        return Ok(record);
      }
      if record.state != ACTIVATING || record.containerId.None? || record.activeSpecHash.None? || record.claimedAt.None? || record.activeReadyAt.None? {
        return Err(RuntimeUnavailable);
      }
      record := record.(state := ACTIVE, activeResponse := Some(active), updatedAt := now);
      file := File(file.rows[id := record], file.slots[record.generationId := id]);
      r := Ok(record);
    }

    method DeleteByRuntimeId(id: RuntimeId) returns (deleted: bool)
      requires Inv(file)
      modifies this
      ensures deleted == (id in old(file).rows) && file == After(old(file), Delete(id))
      ensures Inv(file)
    {
      OpKeeps(file, Delete(id));
      if id !in file.rows { return false; }
      var g := file.rows[id].generationId;
      var slots := file.slots;
      if g in slots && slots[g] == id { slots := slots - {g}; }
      file := File(file.rows - {id}, slots);
      deleted := true;
    }
  }
}
