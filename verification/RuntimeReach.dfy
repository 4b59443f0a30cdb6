/** The service gets there: for every request, and every activation of it, some run ends in an ACTIVE reply. */
module RuntimeReach {
  import opened Wrappers
  import opened L = RuntimeLedger
  import opened S = RuntimeService

  ghost predicate Reached(s: System) { exists init, steps :: S.Init(init) && S.Runs(init, steps, s) }

  lemma {:induction false} OneMore(init: System, steps: seq<Step>, s: System, step: Step)
    requires S.Runs(init, steps, s) && Enabled(s, step)
    ensures S.Runs(init, steps + [step], Apply(s, step))
    decreases |steps|
  {
    hide Enabled, Apply;
    if steps == [] {
      assert [step][1..] == [];
    } else {
      OneMore(Apply(init, steps[0]), steps[1..], s, step);
      assert (steps + [step])[1..] == steps[1..] + [step];
    }
  }

  lemma ReachedNext(s: System, step: Step)
    requires Reached(s) && Enabled(s, step)
    ensures Reached(Apply(s, step))
  {
    hide Enabled, Apply, S.Init;
    var init, steps :| S.Init(init) && S.Runs(init, steps, s);
    OneMore(init, steps, s, step);
  }

  /** The one thread there is stands at `pc`, over this row. */
  ghost predicate At(s: System, id: RuntimeId, row: Record, pc: Pc) {
    Reached(s) && s.process.Serving? && s.threads == map[id := pc] && id in s.file.rows && s.file.rows[id] == row && row.runtimeId == id
  }

  /** One effect of a thread. */
  lemma Go(s: System, id: RuntimeId, uuid: nat) returns (t: System)
    requires Reached(s) && id in s.threads && uuid !in s.minted
    ensures Reached(t) && t == AdvanceThread(s, id, Choice(1, uuid, 1))
  {
    hide Reached, AdvanceThread;
    ReachedNext(s, Advance(id, Choice(1, uuid, 1)));
    t := AdvanceThread(s, id, Choice(1, uuid, 1));
  }

  // ---- READY ----

  /** Nothing is there yet. */
  function Empty(process: Process): System { System(File(map[], map[]), map[], {}, {}, process, map[], map[], map[]) }

  lemma Served()
    ensures Reached(Empty(Serving))
  {
    assert Reached(Empty(S.Down)) by { assert S.Runs(Empty(S.Down), [], Empty(S.Down)); }
    hide Reached, Known;
    ReachedNext(Empty(S.Down), Boot);
    assert ActiveIds(File(map[], map[])) == {};
    assert Apply(Empty(S.Down), Boot) == Empty(Rebinding({}));
    ReachedNext(Empty(Rebinding({})), RebindAbandoned);
  }

  /** A row as its claim left it, but for what was noted since. */
  predicate FreshRow(row: Record, request: Request) {
    && row.state == CLAIMED && row.runtimeId == IdOf(request) && row.requestJson == request && row.requestHash == OfRequest(request)
    && row.artifactDigest == request.artifact && row.containerSpecHash == OfSpec(Spec(request, None))
  }

  lemma ClaimedFirst(request: Request) returns (s: System, row: Record)
    ensures At(s, IdOf(request), row, Preparing(row, ReplyReady)) && FreshRow(row, request)
    ensures s.containers == map[] && s.minted == {1}
  {
    hide Reached, Tear, Active;
    var id := IdOf(request);
    var s0 := Empty(Serving);
    Served();
    ReachedNext(s0, EnsureReady(request));
    s := Go(Apply(s0, EnsureReady(request)), id, 1);
    row := s.file.rows[id];
  }

  lemma CreatedFirst(request: Request) returns (s: System, row: Record)
    ensures At(s, IdOf(request), row, Registering(row, ReplyReady)) && FreshRow(row, request) && s.minted == {1}
    ensures IdOf(request) in s.containers && s.containers[IdOf(request)].policy == PreOf(row)
  {
    hide Reached, Tear, Active, Answer, After;
    var id := IdOf(request);
    var s0, r := ClaimedFirst(request);
    row := r;
    s := Go(s0, id, 4);
    s := Go(s, id, 4);
  }

  lemma RecordedFirst(request: Request) returns (s: System, row: Record)
    ensures At(s, IdOf(request), row, Readying(row, ReplyReady)) && FreshRow(row, request) && row.containerId.Some? && s.minted == {1}
    ensures IdOf(request) in s.containers && s.containers[IdOf(request)].policy == PreOf(row)
  {
    hide Reached, Tear, Active;
    var id := IdOf(request);
    var s0, r := CreatedFirst(request);
    var s1 := Go(s0, id, 4);
    s := Go(s1, id, 4);
    row := s.file.rows[id];
  }

  predicate ReadyRow(row: Record, request: Request) {
    && row.state == READY && FreshRow(row.(state := CLAIMED), request) && row.containerId.Some? && row.readyResponse.Some?
  }

  lemma MarksReady(file: File, id: RuntimeId, e: ReadyEvidence)
    requires id in file.rows && file.rows[id].runtimeId == id && file.rows[id].state == CLAIMED && file.rows[id].containerId.Some?
    ensures var op, row := MarkReady(id, file.rows[id].requestHash, e, 1), file.rows[id].(state := READY, readyResponse := Some(e), updatedAt := 1);
            && Answer(file, op) == Ok(row) && After(file, op) == file.(rows := file.rows[id := row])
            && (FreshRow(file.rows[id], e.request) ==> ReadyRow(row, e.request)) && PreOf(row) == PreOf(file.rows[id])
  {
  }

  /** For every request some run answers READY. */
  lemma ReadyReached(request: Request) returns (s: System, row: Record)
    ensures Reached(s) && s.process.Serving? && s.threads == map[] && s.minted == {1}
    ensures IdOf(request) in s.file.rows && s.file.rows[IdOf(request)] == row && ReadyRow(row, request)
    ensures IdOf(request) in s.containers && s.containers[IdOf(request)].policy == PreOf(row)
    ensures row.readyResponse.value in RepliesTo(s.readyReplies, IdOf(request))
  {
    hide Reached, Tear, Active, Answer, After;
    var id := IdOf(request);
    var s0, r := RecordedFirst(request);
    MarksReady(s0.file, id, ReadyEvidence(id, request, 1));
    assert FreshRow(r, request) && r.requestHash == OfRequest(request);
    hide FreshRow, PreOf;
    s := Go(s0, id, 4);
    row := s.file.rows[id];
  }

  // ---- ACTIVE ----

  lemma ReadyAgain(a: Activation) returns (s: System, row: Record)
    requires ActivationFor(a, IdOf(a.request), a.request)
    ensures At(s, IdOf(a.request), row, ClaimingActivation(a, a.request)) && ReadyRow(row, a.request) && s.minted == {1, 2}
    ensures IdOf(a.request) in s.containers && s.containers[IdOf(a.request)].policy == PreOf(row)
  {
    hide Reached, Tear, Active;
    var id := IdOf(a.request);
    var s0, r := ReadyReached(a.request);
    row := r;
    ReachedNext(s0, ActivateRuntime(a));
    s := Go(Apply(s0, ActivateRuntime(a)), id, 2);
  }

  /** A row as the claim of its activation left it, but for what was noted since. */
  predicate ActivatingRow(row: Record, a: Activation) {
    && row.state == ACTIVATING && row.requestHash == OfRequest(a.request) && row.activationHash == Some(OfActivation(a))
    && row.activationJson == Some(a) && row.activeReplicaId.Some? && row.activeSpecHash.Some? && row.claimedAt.Some? && row.containerId.Some?
  }

  lemma ActivationClaimed(a: Activation) returns (s: System, row: Record)
    requires ActivationFor(a, IdOf(a.request), a.request)
    ensures At(s, IdOf(a.request), row, PreparingActive(row)) && ActivatingRow(row, a) && s.minted == {1, 2, 3}
    ensures IdOf(a.request) in s.containers && s.containers[IdOf(a.request)].policy == PreOf(row)
  {
    hide Reached, Tear, Ready;
    var id := IdOf(a.request);
    var s0, r := ReadyAgain(a);
    s := Go(s0, id, 3);
    row := s.file.rows[id];
  }

  lemma PreSwapped(a: Activation) returns (s: System, row: Record)
    requires ActivationFor(a, IdOf(a.request), a.request)
    ensures At(s, IdOf(a.request), row, CleaningReplica(row)) && ActivatingRow(row, a) && s.minted == {1, 2, 3}
    ensures IdOf(a.request) !in s.containers
  {
    hide Reached, Tear, Ready, Answer, After;
    var id := IdOf(a.request);
    var s0, r := ActivationClaimed(a);
    row := r;
    s := Go(s0, id, 4);
    s := Go(s, id, 4);
  }

  lemma ActiveCreated(a: Activation) returns (s: System, row: Record)
    requires ActivationFor(a, IdOf(a.request), a.request)
    ensures At(s, IdOf(a.request), row, RegisteringActive(row)) && ActivatingRow(row, a) && s.minted == {1, 2, 3}
    ensures IdOf(a.request) in s.containers && s.containers[IdOf(a.request)].policy == ActiveOf(row)
  {
    hide Reached, Tear, Ready, Answer, After;
    var id := IdOf(a.request);
    var s0, r := PreSwapped(a);
    row := r;
    s := Go(s0, id, 4);
    s := Go(s, id, 4);
  }

  lemma ActiveRecorded(a: Activation) returns (s: System, record: Record, row: Record)
    requires ActivationFor(a, IdOf(a.request), a.request)
    ensures At(s, IdOf(a.request), row, ReadyingActive(record)) && ActivatingRow(row, a) && record.activationJson == Some(a) && s.minted == {1, 2, 3}
  {
    hide Reached, Tear, Ready;
    var id := IdOf(a.request);
    var s0, r := ActiveCreated(a);
    record := r;
    var s1 := Go(s0, id, 4);
    s := Go(s1, id, 4);
    row := s.file.rows[id];
  }

  lemma Measures(file: File, id: RuntimeId, a: Activation)
    requires id in file.rows && file.rows[id].runtimeId == id && ActivatingRow(file.rows[id], a)
    ensures var op, was := RecordActiveReady(id, OfActivation(a), 1), file.rows[id];
            var row := if was.activeReadyAt.Some? then was else was.(activeReadyAt := Some(1), updatedAt := 1);
            Answer(file, op) == Ok(row) && After(file, op) == file.(rows := file.rows[id := row])
  {
  }

  lemma ActiveMeasured(a: Activation) returns (s: System, record: Record, row: Record)
    requires ActivationFor(a, IdOf(a.request), a.request)
    ensures row.activeReadyAt.Some? && At(s, IdOf(a.request), row, Activating(record, row.activeReadyAt.value))
    ensures ActivatingRow(row, a) && record.activationJson == Some(a) && s.minted == {1, 2, 3}
  {
    hide Reached, Tear, Ready, Answer, After;
    var id := IdOf(a.request);
    var s0, c, r := ActiveRecorded(a);
    record := c;
    Measures(s0.file, id, a);
    s := Go(s0, id, 4);
    row := s.file.rows[id];
  }

  /** For every activation of a request some run answers ACTIVE. */
  lemma ActiveReached(a: Activation)
    requires ActivationFor(a, IdOf(a.request), a.request)
    ensures exists s :: Reached(s) && IdOf(a.request) in s.file.rows && s.file.rows[IdOf(a.request)].state == ACTIVE
                     && s.file.rows[IdOf(a.request)].activeResponse.Some?
                     && s.file.rows[IdOf(a.request)].activeResponse.value in RepliesTo(s.activeReplies, IdOf(a.request))
  {
    hide Reached, Tear, Ready;
    var id := IdOf(a.request);
    var s0, record, r := ActiveMeasured(a);
    var t := Go(s0, id, 4);
    assert t.file.rows[id].activeResponse.value in RepliesTo(t.activeReplies, id);
  }
}
