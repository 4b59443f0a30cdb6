/**
 * The boot recovery pass against the operators of the same agent, as a state machine. Every await
 * of the source is a step boundary: operators and workers interleave freely, calls to Docker fail
 * with or without effect, the agent dies between any two effects and the host reboots at any time.
 *
 * `cut` holds the containers that an interrupted call left running although they are recorded
 * stopped, for as long as nothing has settled them since; `settled` the candidates whose attempt
 * has ended. No step reads either to decide what happens.
 */
module BootRecovery {
  import opened Wrappers
  import opened DesiredState

  datatype Container = Container(running: bool, oomKilled: bool)

  /** One lifecycle call in flight, named after the effect it has still to perform. */
  datatype Op =
    | CreateDocker(id: string)
    | CreateMark(id: string)
    | StartDocker(id: string)
    | StartMark(id: string)
    | StopMark(id: string)
    | StopDocker(id: string)
    | RemoveDocker(id: string, force: bool)
    | RemoveRecord(id: string)

  datatype Worker =
    | Free
    | Reread(id: string)
    | Inspecting(id: string)
    | Forgetting(id: string)
    | Starting(id: string)
    | Checking(id: string)
    | Restopping(id: string)

  datatype Reason = StoppedOnReread | Gone | AlreadyRunning | OomKilled | BrokerUnbound | NetworkMismatch | StoppedDuringStart

  datatype Summary = Summary(started: nat, failed: nat, skipped: multiset<Reason>)

  datatype Pass = Pass(
    recorded: StateFile, running: seq<string>, candidates: seq<string>,
    queue: seq<string>, workers: seq<Worker>, settled: multiset<string>, summary: Summary)

  datatype Agent = Down | Listing(recorded: StateFile) | Recovering(pass: Pass) | Up(summary: Summary)

  datatype System = System(
    boot: string, docker: map<string, Container>, used: set<string>,
    file: StateFile, agent: Agent, ops: map<nat, Op>, cut: set<string>)

  datatype Step =
    | Exit(id: string, oomKilled: bool)
    | Begin(o: nat, op: Op)
    | Advance(o: nat)
    | Abort(o: nat, effect: bool)
    | ReadRecord
    | ListManaged(candidates: seq<string>, running: seq<string>)
    | Take(w: nat)
    | Work(w: nat, refusal: Option<Reason>)
    | Fail(w: nat, effect: bool)
    | Stamp
    | Crash
    | Reboot(boot: string)

  const RECOVERY_CONCURRENCY := 4

  // ---- the pass ----

  /** A recorded boot id that is not the current one. */
  predicate NewBoot(file: StateFile, boot: string) { file.bootId != "" && file.bootId != boot }

  function RecordedRunning(file: StateFile): set<string> {
    set id | id in file.containers && file.containers[id] == Running
  }

  predicate DistinctSeq(ids: seq<string>) { forall i, j | 0 <= i < j < |ids| :: ids[i] != ids[j] }

  /** The recorded-running containers in some order, or nothing when this is not the first start of a boot. */
  predicate CandidatesOf(candidates: seq<string>, recorded: StateFile, boot: string) {
    && DistinctSeq(candidates)
    && (set id <- candidates) == if NewBoot(recorded, boot) then RecordedRunning(recorded) else {}
  }

  function Min(a: nat, b: nat): nat { if a <= b then a else b }

  function NewPass(recorded: StateFile, candidates: seq<string>, running: seq<string>): Pass {
    Pass(recorded, running, candidates, candidates,
         seq(Min(RECOVERY_CONCURRENCY, |candidates|), _ => Free), multiset{}, Summary(0, 0, multiset{}))
  }

  function On(worker: Worker, id: string): nat { if !worker.Free? && worker.id == id then 1 else 0 }

  /** How many workers are busy with this container. */
  function Busy(workers: seq<Worker>, id: string): nat {
    if workers == [] then 0 else On(workers[0], id) + Busy(workers[1..], id)
  }

  function SetWorker(pass: Pass, w: nat, worker: Worker): Pass
    requires w < |pass.workers|
  {
    pass.(workers := pass.workers[w := worker])
  }

  /** How one awaited call of an attempt continues. */
  datatype Move = To(worker: Worker) | Skip(reason: Reason) | Started | Failed

  function Tally(summary: Summary, move: Move): Summary {
    match move
    case To(_) => summary
    case Skip(reason) => summary.(skipped := summary.skipped + multiset{reason})
    case Started => summary.(started := summary.started + 1)
    case Failed => summary.(failed := summary.failed + 1)
  }

  /** Either the worker moves on, or its attempt ends and is counted. */
  function Moved(pass: Pass, w: nat, move: Move): Pass
    requires w < |pass.workers| && !pass.workers[w].Free?
  {
    if move.To? then SetWorker(pass, w, move.worker)
    else
      pass.(workers := pass.workers[w := Free], settled := pass.settled + multiset{pass.workers[w].id}, summary := Tally(pass.summary, move))
  }

  // ---- steps ----

  predicate WorkerAt(s: System, w: nat) { s.agent.Recovering? && w < |s.agent.pass.workers| }

  predicate Enabled(s: System, step: Step) {
    match step
    case Exit(id, _) => id in s.docker
    case Begin(o, op) =>
      !s.agent.Down? && o !in s.ops && (op.StartDocker? || op.StopMark? || op.RemoveDocker? || (op.CreateDocker? && op.id !in s.used))
    case Advance(o) => o in s.ops
    case Abort(o, _) => o in s.ops
    case ReadRecord => s.agent.Down?
    case ListManaged(candidates, _) => s.agent.Listing? && CandidatesOf(candidates, s.agent.recorded, s.boot)
    case Take(w) => WorkerAt(s, w) && s.agent.pass.workers[w].Free? && s.agent.pass.queue != []
    case Work(w, _) => WorkerAt(s, w) && !s.agent.pass.workers[w].Free?
    case Fail(w, _) => WorkerAt(s, w) && !s.agent.pass.workers[w].Free?
    case Stamp => s.agent.Recovering? && s.agent.pass.queue == [] && forall worker <- s.agent.pass.workers :: worker.Free?
    case Crash => !s.agent.Down?
    case Reboot(boot) => boot != "" && boot != s.boot
  }

  function SetRunning(s: System, id: string, running: bool): System {
    if id in s.docker then s.(docker := s.docker[id := s.docker[id].(running := running)]) else s
  }

  function EndOp(s: System, o: nat): System { s.(ops := s.ops - {o}) }

  /** The next effect of a lifecycle call. */
  function AdvanceOp(s: System, o: nat): System
    requires o in s.ops
  {
    match s.ops[o]
    case CreateDocker(id) => s.(docker := s.docker[id := Container(false, false)], ops := s.ops[o := CreateMark(id)])
    case CreateMark(id) => EndOp(s, o).(file := Marked(s.file, id, Running))
    case StartDocker(id) =>
      if id in s.docker then SetRunning(s, id, true).(ops := s.ops[o := StartMark(id)]) else EndOp(s, o)
    case StartMark(id) => EndOp(s, o).(file := Marked(s.file, id, Running))
    case StopMark(id) => s.(file := Marked(s.file, id, Stopped), ops := s.ops[o := StopDocker(id)])
    case StopDocker(id) => EndOp(SetRunning(s, id, false), o)
    case RemoveDocker(id, force) =>
      if id in s.docker && s.docker[id].running && !force then EndOp(s, o)
      else s.(docker := s.docker - {id}, ops := s.ops[o := RemoveRecord(id)])
    case RemoveRecord(id) => EndOp(s, o).(file := Removed(s.file, id))
  }

  /** What a worker's call answers; `refusal` is why an inspected container may not be started. */
  function MoveOf(s: System, worker: Worker, refusal: Option<Reason>): (move: Move)
    requires !worker.Free?
    ensures move.To? ==> !move.worker.Free? && move.worker.id == worker.id
  {
    var id := worker.id;
    match worker
    case Reread(_) => if Get(s.file, id) != Some(Running) then Skip(StoppedOnReread) else To(Inspecting(id))
    case Inspecting(_) =>
      if id !in s.docker then To(Forgetting(id))
      else if s.docker[id].running then Skip(AlreadyRunning)
      else if s.docker[id].oomKilled then Skip(OomKilled)
      else if refusal.Some? then Skip(refusal.value)
      else To(Starting(id))
    case Forgetting(_) => Skip(Gone)
    case Starting(_) => if id in s.docker then To(Checking(id)) else Failed
    case Checking(_) => if Get(s.file, id) == Some(Stopped) then To(Restopping(id)) else Started
    case Restopping(_) => Skip(StoppedDuringStart)
  }

  /** What a worker's call does to Docker and to the record. */
  function EffectOf(s: System, worker: Worker): System
    requires !worker.Free?
  {
    match worker
    case Forgetting(id) => s.(file := Removed(s.file, id))
    case Starting(id) => SetRunning(s, id, true)
    case Restopping(id) => SetRunning(s, id, false)
    case _ => s
  }

  function WorkOne(s: System, w: nat, refusal: Option<Reason>): System
    requires WorkerAt(s, w) && !s.agent.pass.workers[w].Free?
  {
    var worker := s.agent.pass.workers[w];
    EffectOf(s, worker).(agent := Recovering(Moved(s.agent.pass, w, MoveOf(s, worker, refusal))))
  }

  /** A Docker call of a worker throws; it may have had its effect all the same. */
  function FailOne(s: System, w: nat, effect: bool): System
    requires WorkerAt(s, w) && !s.agent.pass.workers[w].Free?
  {
    var worker := s.agent.pass.workers[w];
    (if effect && (worker.Starting? || worker.Restopping?) then SetRunning(s, worker.id, worker.Starting?) else s)
    .(agent := Recovering(Moved(s.agent.pass, w, Failed)))
  }

  /** A call throws, with or without the effect it was about. */
  function AbortOp(s: System, o: nat, effect: bool): System
    requires o in s.ops
  {
    if !effect then EndOp(s, o)
    else
      match s.ops[o]
      case CreateDocker(id) => EndOp(s, o).(docker := s.docker[id := Container(false, false)])
      case StartDocker(id) => EndOp(SetRunning(s, id, true), o)
      case StopDocker(id) => EndOp(SetRunning(s, id, false), o)
      case RemoveDocker(id, _) => EndOp(s, o).(docker := s.docker - {id})
      case _ => EndOp(s, o)
  }

  /** The containers some call in flight is about. */
  function InFlight(s: System): set<string> {
    (set o <- s.ops :: s.ops[o].id)
    + if s.agent.Recovering? then set worker | worker in s.agent.pass.workers && !worker.Free? :: worker.id else {}
  }

  /** What a step does, apart from the history it leaves. */
  function Effect(s: System, step: Step): System
    requires Enabled(s, step)
  {
    match step
    case Exit(id, oom) => s.(docker := s.docker[id := Container(false, oom)])
    case Begin(o, op) => s.(ops := s.ops[o := op], used := if op.CreateDocker? then s.used + {op.id} else s.used)
    case Advance(o) => AdvanceOp(s, o)
    case Abort(o, effect) => AbortOp(s, o, effect)
    case ReadRecord => s.(agent := Listing(s.file))
    case ListManaged(candidates, running) => s.(agent := Recovering(NewPass(s.agent.recorded, candidates, running)))
    case Take(w) =>
      s.(agent := Recovering(SetWorker(s.agent.pass, w, Reread(s.agent.pass.queue[0])).(queue := s.agent.pass.queue[1..])))
    case Work(w, refusal) => WorkOne(s, w, refusal)
    case Fail(w, effect) => FailOne(s, w, effect)
    case Stamp => s.(file := Stamped(s.file, s.agent.pass.running, s.boot), agent := Up(s.agent.pass.summary))
    case Crash => s.(agent := Down, ops := map[])
    case Reboot(boot) =>
      s.(boot := boot, agent := Down, ops := map[], docker := map id <- s.docker :: s.docker[id].(running := false))
  }

  /** Running although it is recorded stopped. */
  predicate Stray(s: System, id: string) { id in s.docker && s.docker[id].running && Get(s.file, id) == Some(Stopped) }

  /** A call that has started the container and not yet looked at or written the record, or that has still to stop it. */
  predicate OpenOp(op: Op) { op.StartMark? || op.StopDocker? }

  predicate OpenWorker(worker: Worker) { worker.Checking? || worker.Restopping? }

  /** The containers a step leaves with such a call interrupted. */
  function Interrupted(s: System, step: Step): set<string>
    requires Enabled(s, step)
  {
    match step
    case Abort(o, effect) => if OpenOp(s.ops[o]) || (s.ops[o].StartDocker? && effect) then {s.ops[o].id} else {}
    case Fail(w, effect) =>
      var worker := s.agent.pass.workers[w];
      if OpenWorker(worker) || (worker.Starting? && effect) then {worker.id} else {}
    case Crash =>
      (set o | o in s.ops && OpenOp(s.ops[o]) :: s.ops[o].id)
      + if s.agent.Recovering? then set worker | worker in s.agent.pass.workers && OpenWorker(worker) :: worker.id else {}
    case _ => {}
  }

  function Apply(s: System, step: Step): System
    requires Enabled(s, step)
  {
    var t := Effect(s, step);
    t.(cut := set id | id in s.cut + Interrupted(s, step) && Stray(t, id))
  }

  predicate Runs(s: System, steps: seq<Step>, t: System)
    decreases |steps|
  {
    if steps == [] then s == t
    else Enabled(s, steps[0]) && Runs(Apply(s, steps[0]), steps[1..], t)
  }

  predicate Init(s: System) {
    s.boot != "" && s.docker == map[] && s.used == {} && s.file == EMPTY && s.agent == Down && s.ops == map[] && s.cut == {}
  }

  // ---- invariants ----

  /** An operation that will still settle this container. */
  ghost predicate OpPending(s: System, id: string) {
    exists o :: o in s.ops && s.ops[o] in {StartMark(id), StopDocker(id)}
  }

  ghost predicate WorkerPending(s: System, id: string) {
    s.agent.Recovering? && exists w | 0 <= w < |s.agent.pass.workers| :: s.agent.pass.workers[w] in {Checking(id), Restopping(id)}
  }

  /** A container that runs although it is recorded stopped is about to be dealt with, or is among the marked ones. */
  ghost predicate Held(s: System, marked: set<string>) {
    forall id | Stray(s, id) :: id in marked || OpPending(s, id) || WorkerPending(s, id)
  }

  ghost predicate StoppedInv(s: System) { Held(s, s.cut) && forall id | id in s.cut :: Stray(s, id) }

  ghost predicate PassInv(s: System) {
    match s.agent
    case Down | Up(_) => true
    case Listing(recorded) => recorded.bootId == s.file.bootId
    case Recovering(pass) =>
      && pass.recorded.bootId == s.file.bootId
      && CandidatesOf(pass.candidates, pass.recorded, s.boot)
      && Counted(pass) && Summed(pass)
  }

  ghost predicate Inv(s: System) { StoppedInv(s) && PassInv(s) }

  lemma {:induction false} BusyUpdate(workers: seq<Worker>, w: nat, worker: Worker, id: string)
    requires w < |workers|
    ensures Busy(workers[w := worker], id) + On(workers[w], id) == Busy(workers, id) + On(worker, id)
  {
    if w == 0 {
      assert workers[0 := worker][1..] == workers[1..];
    } else {
      BusyUpdate(workers[1..], w - 1, worker, id);
      assert workers[w := worker][1..] == workers[1..][w - 1 := worker];
    }
  }

  lemma {:induction false} BusyFree(workers: seq<Worker>, id: string)
    requires forall worker <- workers :: worker.Free?
    ensures Busy(workers, id) == 0
  {
    if workers != [] {
      assert forall worker <- workers[1..] :: worker in workers;
      BusyFree(workers[1..], id);
    }
  }

  /** A pass in which one worker changed and at most its own attempt ended. */
  ghost predicate WorkerChange(before: Pass, after: Pass, w: nat) {
    && w < |before.workers| && |after.workers| == |before.workers|
    && after.workers == before.workers[w := after.workers[w]]
    && after.recorded == before.recorded && after.candidates == before.candidates
    && forall id :: after.settled[id] + On(after.workers[w], id) + multiset(after.queue)[id]
                 == before.settled[id] + On(before.workers[w], id) + multiset(before.queue)[id]
  }

  /** Each candidate is queued, being worked on, or settled, exactly once. */
  ghost predicate Counted(pass: Pass) {
    forall id :: pass.settled[id] + Busy(pass.workers, id) + multiset(pass.queue)[id] == multiset(pass.candidates)[id]
  }

  ghost predicate Summed(pass: Pass) {
    |pass.settled| == pass.summary.started + pass.summary.failed + |pass.summary.skipped|
  }

  lemma ChangeCounts(before: Pass, after: Pass, w: nat)
    requires WorkerChange(before, after, w) && Counted(before)
    ensures Counted(after)
  {
    forall id ensures after.settled[id] + Busy(after.workers, id) + multiset(after.queue)[id] == multiset(after.candidates)[id] {
      BusyUpdate(before.workers, w, after.workers[w], id);
    }
  }

  lemma MoveKeeps(pass: Pass, w: nat, move: Move)
    requires w < |pass.workers| && !pass.workers[w].Free? && Counted(pass) && Summed(pass)
    requires move.To? ==> !move.worker.Free? && move.worker.id == pass.workers[w].id
    ensures Counted(Moved(pass, w, move)) && Summed(Moved(pass, w, move))
  {
    MoveChanges(pass, w, move);
    ChangeCounts(pass, Moved(pass, w, move), w);
  }

  lemma MoveChanges(pass: Pass, w: nat, move: Move)
    requires w < |pass.workers| && !pass.workers[w].Free?
    requires move.To? ==> !move.worker.Free? && move.worker.id == pass.workers[w].id
    ensures WorkerChange(pass, Moved(pass, w, move), w)
    ensures Summed(pass) ==> Summed(Moved(pass, w, move))
  {
  }

  /** A worker's step leaves the pass consistent, whatever it did to the containers and the record's entries. */
  lemma MovedPass(s: System, t: System, w: nat, move: Move)
    requires PassInv(s) && WorkerAt(s, w) && !s.agent.pass.workers[w].Free?
    requires move.To? ==> !move.worker.Free? && move.worker.id == s.agent.pass.workers[w].id
    requires t.agent == Recovering(Moved(s.agent.pass, w, move)) && t.file.bootId == s.file.bootId && t.boot == s.boot
    ensures PassInv(t)
  {
    MoveKeeps(s.agent.pass, w, move);
  }

  lemma WorkPass(s: System, w: nat, refusal: Option<Reason>)
    requires PassInv(s) && WorkerAt(s, w) && !s.agent.pass.workers[w].Free?
    ensures PassInv(WorkOne(s, w, refusal))
  {
    MovedPass(s, WorkOne(s, w, refusal), w, MoveOf(s, s.agent.pass.workers[w], refusal));
  }

  lemma FailPass(s: System, w: nat, effect: bool)
    requires PassInv(s) && WorkerAt(s, w) && !s.agent.pass.workers[w].Free?
    ensures PassInv(FailOne(s, w, effect))
  {
    MovedPass(s, FailOne(s, w, effect), w, Failed);
  }

  lemma TakePass(s: System, w: nat)
    requires PassInv(s) && Enabled(s, Take(w))
    ensures PassInv(Apply(s, Take(w)))
  {
    var queue := s.agent.pass.queue;
    assert queue == [queue[0]] + queue[1..];
    ChangeCounts(s.agent.pass, Apply(s, Take(w)).agent.pass, w);
  }

  lemma ListPass(s: System, candidates: seq<string>, running: seq<string>)
    requires PassInv(s) && Enabled(s, ListManaged(candidates, running))
    ensures PassInv(Apply(s, ListManaged(candidates, running)))
  {
    var pass := NewPass(s.agent.recorded, candidates, running);
    forall id ensures Busy(pass.workers, id) == 0 { BusyFree(pass.workers, id); }
  }

  lemma SamePass(s: System, t: System)
    requires PassInv(s) && t.agent == s.agent && t.file.bootId == s.file.bootId && t.boot == s.boot
    ensures PassInv(t)
  {
  }

  lemma OtherPass(s: System, step: Step)
    requires Enabled(s, step) && PassInv(s)
    requires !(step.ListManaged? || step.Take? || step.Work? || step.Fail?)
    ensures PassInv(Apply(s, step))
  {
    hide Counted, Summed, CandidatesOf;
    if !(step.ReadRecord? || step.Stamp? || step.Crash? || step.Reboot?) { SamePass(s, Apply(s, step)); }
  }

  lemma PassStep(s: System, step: Step)
    requires Enabled(s, step) && PassInv(s)
    ensures PassInv(Apply(s, step))
  {
    match step
    case ListManaged(candidates, running) => ListPass(s, candidates, running);
    case Take(w) => TakePass(s, w);
    case Work(w, refusal) => WorkPass(s, w, refusal);
    case Fail(w, effect) => FailPass(s, w, effect);
    case _ => OtherPass(s, step);
  }

  lemma OpKeepsStopped(s: System, o: nat)
    requires Held(s, s.cut) && o in s.ops
    ensures Held(AdvanceOp(s, o), s.cut)
  {
    var t := AdvanceOp(s, o);
    forall id | Stray(t, id) ensures id in s.cut || OpPending(t, id) || WorkerPending(t, id) {
      if o in t.ops && t.ops[o] in {StartMark(id), StopDocker(id)} {
        assert OpPending(t, id);
      } else {
        assert Stray(s, id);
        if OpPending(s, id) {
          var p :| p in s.ops && s.ops[p] in {StartMark(id), StopDocker(id)};
          assert p != o && p in t.ops && t.ops[p] == s.ops[p];
        }
      }
    }
  }

  lemma AbortKeepsStopped(s: System, o: nat, effect: bool)
    requires Held(s, s.cut) && Enabled(s, Abort(o, effect))
    ensures Held(AbortOp(s, o, effect), s.cut + Interrupted(s, Abort(o, effect)))
  {
    var t := AbortOp(s, o, effect);
    forall id | Stray(t, id) ensures id in s.cut + Interrupted(s, Abort(o, effect)) || OpPending(t, id) || WorkerPending(t, id) {
      if id !in Interrupted(s, Abort(o, effect)) {
        assert Stray(s, id);
        if OpPending(s, id) {
          var p :| p in s.ops && s.ops[p] in {StartMark(id), StopDocker(id)};
          assert p in t.ops && t.ops[p] == s.ops[p];
        }
      }
    }
  }

  /** What a change of one worker must leave in place for a container recorded stopped and running. */
  lemma WorkerKeepsStopped(s: System, t: System, w: nat, marked: set<string>)
    requires Held(s, s.cut) && WorkerAt(s, w) && WorkerAt(t, w) && !s.agent.pass.workers[w].Free?
    requires t.ops == s.ops && s.cut <= marked && t.docker.Keys == s.docker.Keys
    requires |t.agent.pass.workers| == |s.agent.pass.workers|
    requires t.agent.pass.workers == s.agent.pass.workers[w := t.agent.pass.workers[w]]
    requires var id := s.agent.pass.workers[w].id;
             && (forall other <- s.docker :: other != id ==> t.docker[other] == s.docker[other])
             && (forall other | other != id :: Get(t.file, other) == Get(s.file, other))
             && (Stray(t, id) ==>
                   || id in marked
                   || t.agent.pass.workers[w] in {Checking(id), Restopping(id)}
                   || (Stray(s, id) && s.agent.pass.workers[w] !in {Checking(id), Restopping(id)}))
    ensures Held(t, marked)
  {
    var own := s.agent.pass.workers[w].id;
    forall id | Stray(t, id) ensures id in marked || OpPending(t, id) || WorkerPending(t, id) {
      if id == own && t.agent.pass.workers[w] in {Checking(id), Restopping(id)} {
        assert WorkerPending(t, id);
      } else if id !in marked {
        assert Stray(s, id);
        if WorkerPending(s, id) {
          var v :| 0 <= v < |s.agent.pass.workers| && s.agent.pass.workers[v] in {Checking(id), Restopping(id)};
          assert v != w && t.agent.pass.workers[v] == s.agent.pass.workers[v];
        }
      }
    }
  }

  lemma WorkKeepsStopped(s: System, w: nat, refusal: Option<Reason>)
    requires Held(s, s.cut) && Enabled(s, Work(w, refusal))
    ensures Held(WorkOne(s, w, refusal), s.cut)
  {
    WorkerKeepsStopped(s, WorkOne(s, w, refusal), w, s.cut);
  }

  lemma FailKeepsStopped(s: System, w: nat, effect: bool)
    requires Held(s, s.cut) && Enabled(s, Fail(w, effect))
    ensures Held(FailOne(s, w, effect), s.cut + Interrupted(s, Fail(w, effect)))
  {
    WorkerKeepsStopped(s, FailOne(s, w, effect), w, s.cut + Interrupted(s, Fail(w, effect)));
  }

  lemma TakeKeepsStopped(s: System, w: nat)
    requires Held(s, s.cut) && Enabled(s, Take(w))
    ensures Held(Effect(s, Take(w)), s.cut)
  {
    var t := Effect(s, Take(w));
    forall id | Stray(t, id) ensures id in s.cut || OpPending(t, id) || WorkerPending(t, id) {
      assert Stray(s, id);
      if WorkerPending(s, id) {
        var v :| 0 <= v < |s.agent.pass.workers| && s.agent.pass.workers[v] in {Checking(id), Restopping(id)};
        assert v != w && t.agent.pass.workers[v] == s.agent.pass.workers[v];
      }
    }
  }

  lemma CrashKeepsStopped(s: System)
    requires Held(s, s.cut) && Enabled(s, Crash)
    ensures Held(Effect(s, Crash), s.cut + Interrupted(s, Crash))
  {
    forall id | Stray(Effect(s, Crash), id) ensures id in s.cut + Interrupted(s, Crash) {
      assert Stray(s, id);
      PendingInterrupted(s, id);
    }
  }

  lemma PendingInterrupted(s: System, id: string)
    requires Enabled(s, Crash)
    ensures OpPending(s, id) || WorkerPending(s, id) ==> id in Interrupted(s, Crash)
  {
    if OpPending(s, id) {
      var o :| o in s.ops && s.ops[o] in {StartMark(id), StopDocker(id)};
      assert OpenOp(s.ops[o]) && s.ops[o].id == id;
    } else if WorkerPending(s, id) {
      var w :| 0 <= w < |s.agent.pass.workers| && s.agent.pass.workers[w] in {Checking(id), Restopping(id)};
      assert s.agent.pass.workers[w] in s.agent.pass.workers && OpenWorker(s.agent.pass.workers[w]);
    }
  }

  lemma BeginKeepsStopped(s: System, o: nat, op: Op)
    requires Held(s, s.cut) && Enabled(s, Begin(o, op))
    ensures Held(Effect(s, Begin(o, op)), s.cut)
  {
    var t := Effect(s, Begin(o, op));
    forall id | Stray(t, id) ensures id in s.cut || OpPending(t, id) || WorkerPending(t, id) {
      assert Stray(s, id);
      if OpPending(s, id) {
        var p :| p in s.ops && s.ops[p] in {StartMark(id), StopDocker(id)};
        assert p in t.ops && t.ops[p] == s.ops[p];
      }
    }
  }

  lemma QuietKeepsStopped(s: System, step: Step)
    requires Held(s, s.cut) && Enabled(s, step)
    requires step.Exit? || step.ReadRecord? || step.ListManaged? || step.Stamp? || step.Reboot?
    ensures Held(Effect(s, step), s.cut)
  {
    var t := Effect(s, step);
    forall id | Stray(t, id) ensures id in s.cut || OpPending(t, id) || WorkerPending(t, id) {
      assert Stray(s, id);
      if OpPending(s, id) {
        var p :| p in s.ops && s.ops[p] in {StartMark(id), StopDocker(id)};
        assert p in t.ops && t.ops[p] == s.ops[p];
      } else if step.Stamp? {
        assert forall w | 0 <= w < |s.agent.pass.workers| :: s.agent.pass.workers[w] in s.agent.pass.workers;
      }
    }
  }

  lemma EffectKeepsStopped(s: System, step: Step)
    requires Enabled(s, step) && Held(s, s.cut)
    ensures Held(Effect(s, step), s.cut + Interrupted(s, step))
  {
    match step
    case Begin(o, op) => BeginKeepsStopped(s, o, op);
    case Advance(o) => OpKeepsStopped(s, o);
    case Abort(o, effect) => AbortKeepsStopped(s, o, effect);
    case Take(w) => TakeKeepsStopped(s, w);
    case Work(w, refusal) => WorkKeepsStopped(s, w, refusal);
    case Fail(w, effect) => FailKeepsStopped(s, w, effect);
    case Crash => CrashKeepsStopped(s);
    case _ => QuietKeepsStopped(s, step);
  }

  lemma StoppedStep(s: System, step: Step)
    requires Enabled(s, step) && StoppedInv(s)
    ensures StoppedInv(Apply(s, step))
  {
    hide Effect, Interrupted;
    EffectKeepsStopped(s, step);
    HistoryApart(Effect(s, step), s.cut + Interrupted(s, step));
  }

  /** Keeping, of the marked containers, those that are stray keeps all that matters. */
  lemma HistoryApart(t: System, marked: set<string>)
    requires Held(t, marked)
    ensures StoppedInv(t.(cut := set id | id in marked && Stray(t, id)))
  {
    var u := t.(cut := set id | id in marked && Stray(t, id));
    forall id | Stray(u, id) ensures id in u.cut || OpPending(u, id) || WorkerPending(u, id) {
      assert Stray(t, id);
      if OpPending(t, id) {
        var p :| p in t.ops && t.ops[p] in {StartMark(id), StopDocker(id)};
        assert p in u.ops;
      }
    }
    forall id | id in u.cut ensures Stray(u, id) {
      assert Stray(t, id);
    }
  }

  /** Every step keeps the invariants. */
  lemma InvStep(s: System, step: Step)
    requires Enabled(s, step) && Inv(s)
    ensures Inv(Apply(s, step))
  {
    PassStep(s, step);
    StoppedStep(s, step);
  }

  lemma {:induction false} InvRuns(s: System, steps: seq<Step>, t: System)
    requires Inv(s) && Runs(s, steps, t)
    ensures Inv(t)
    decreases |steps|
  {
    if steps != [] {
      InvStep(s, steps[0]);
      InvRuns(Apply(s, steps[0]), steps[1..], t);
    }
  }

  // ---- main results ----

  /** No operator call and no worker is about this container. */
  ghost predicate IdleOn(s: System, id: string) { id !in InFlight(s) }

  /** A lifecycle call whose next effect stops, replaces or removes the container, or rewrites or drops its record. */
  predicate SettlesOp(op: Op, id: string) {
    op in {CreateDocker(id), CreateMark(id), StartMark(id), StopDocker(id), RemoveDocker(id, true), RemoveRecord(id)}
  }

  /** A failed lifecycle call that had such an effect all the same. */
  predicate SettlesFailing(op: Op, id: string) {
    op in {CreateDocker(id), StopDocker(id), RemoveDocker(id, false), RemoveDocker(id, true)}
  }

  /** The steps after which a container that was stray is not: it ended, was dealt with in Docker, or has another record. */
  predicate Settles(s: System, step: Step, id: string)
    requires Enabled(s, step)
  {
    match step
    case Exit(gone, _) => gone == id
    case Reboot(_) => true
    case Advance(o) => SettlesOp(s.ops[o], id)
    case Abort(o, effect) => effect && SettlesFailing(s.ops[o], id)
    case Work(w, _) => s.agent.pass.workers[w] in {Forgetting(id), Restopping(id)}
    case Fail(w, effect) => effect && s.agent.pass.workers[w] == Restopping(id)
    case _ => false
  }

  lemma AdvanceSettles(s: System, o: nat, id: string)
    requires o in s.ops && Stray(s, id)
    ensures Stray(AdvanceOp(s, o), id) <==> !SettlesOp(s.ops[o], id)
  {
  }

  lemma AbortSettles(s: System, o: nat, effect: bool, id: string)
    requires o in s.ops && Stray(s, id)
    ensures Stray(AbortOp(s, o, effect), id) <==> !(effect && SettlesFailing(s.ops[o], id))
  {
  }

  lemma WorkerSettles(s: System, worker: Worker, id: string)
    requires !worker.Free? && Stray(s, id)
    ensures Stray(EffectOf(s, worker), id) <==> worker !in {Forgetting(id), Restopping(id)}
  {
  }

  /** A step takes a container out of being stray exactly if it is one of those. */
  lemma SettlesExactly(s: System, step: Step, id: string)
    requires Enabled(s, step) && Stray(s, id)
    ensures Stray(Apply(s, step), id) <==> !Settles(s, step, id)
  {
    hide AdvanceOp, AbortOp, EffectOf, SettlesOp, SettlesFailing, Interrupted, Moved, MoveOf;
    assert Stray(Apply(s, step), id) == Stray(Effect(s, step), id);
    match step
    case Advance(o) => AdvanceSettles(s, o, id);
    case Abort(o, effect) => AbortSettles(s, o, effect, id);
    case Work(w, _) => WorkerSettles(s, s.agent.pass.workers[w], id);
    case _ =>
  }

  ghost predicate NeverSettled(s: System, steps: seq<Step>, id: string)
    decreases |steps|
  {
    steps == [] || (Enabled(s, steps[0]) && !Settles(s, steps[0], id) && NeverSettled(Apply(s, steps[0]), steps[1..], id))
  }

  /** One of the steps interrupts a start before it wrote or looked at the record, or a stop, and leaves the container stray; no later step settles it. */
  ghost predicate LeftStray(s: System, steps: seq<Step>, id: string)
    decreases |steps|
  {
    steps != [] && Enabled(s, steps[0]) && (
      || (id in Interrupted(s, steps[0]) && Stray(Apply(s, steps[0]), id) && NeverSettled(Apply(s, steps[0]), steps[1..], id))
      || LeftStray(Apply(s, steps[0]), steps[1..], id))
  }

  /** What the history kept with a state says of the run that led there. */
  lemma {:induction false} CutMeans(s: System, steps: seq<Step>, t: System, id: string)
    requires Inv(s) && Runs(s, steps, t)
    ensures id in t.cut <==> LeftStray(s, steps, id) || (id in s.cut && NeverSettled(s, steps, id))
    decreases |steps|
  {
    if steps != [] {
      hide Effect, Interrupted, Settles, Inv, PassInv;
      InvStep(s, steps[0]);
      CutMeans(Apply(s, steps[0]), steps[1..], t, id);
      CutStep(s, steps[0], id);
      if id in s.cut {
        InvStopped(s);
        SettlesExactly(s, steps[0], id);
      }
    }
  }

  lemma InvStopped(s: System)
    requires Inv(s)
    ensures StoppedInv(s)
  {
  }

  lemma CutStep(s: System, step: Step, id: string)
    requires Enabled(s, step)
    ensures id in Apply(s, step).cut <==> (id in s.cut || id in Interrupted(s, step)) && Stray(Apply(s, step), id)
  {
    hide Effect, Interrupted;
    assert Stray(Apply(s, step), id) == Stray(Effect(s, step), id);
  }

  /**
   * For every interleaving of operators, workers, failures, crashes and reboots: a container nobody is
   * working on runs although it is recorded stopped if and only if a start or stop of it was interrupted
   * and left it so, and no later step settled it: no exit or reboot, no completed stop, creation, removal
   * or recording, by an operator or by a worker.
   */
  lemma StoppedRunsExactly(init: System, steps: seq<Step>, s: System, id: string)
    requires Init(init) && Runs(init, steps, s) && IdleOn(s, id)
    ensures Stray(s, id) <==> LeftStray(init, steps, id)
  {
    InvRuns(init, steps, s);
    CutMeans(init, steps, s, id);
    PendingInFlight(s, id);
  }

  /** No call fails and the agent does not die. */
  ghost predicate Uninterrupted(steps: seq<Step>) { forall step <- steps :: !step.Abort? && !step.Fail? && !step.Crash? }

  /** When every call succeeds, a container that is recorded stopped and that nobody is working on is not running. */
  lemma RecordedStoppedIsStopped(init: System, steps: seq<Step>, s: System, id: string)
    requires Init(init) && Runs(init, steps, s) && IdleOn(s, id) && Get(s.file, id) == Some(Stopped) && Uninterrupted(steps)
    ensures id in s.docker ==> !s.docker[id].running
  {
    StoppedRunsExactly(init, steps, s, id);
    NeverLeft(init, steps, s, id);
  }

  lemma {:induction false} NeverLeft(s: System, steps: seq<Step>, t: System, id: string)
    requires Runs(s, steps, t) && Uninterrupted(steps)
    ensures !LeftStray(s, steps, id)
    decreases |steps|
  {
    if steps != [] {
      assert steps[0] in steps;
      assert forall step <- steps[1..] :: step in steps;
      NeverLeft(Apply(s, steps[0]), steps[1..], t, id);
    }
  }

  lemma PendingInFlight(s: System, id: string)
    ensures OpPending(s, id) || WorkerPending(s, id) ==> id in InFlight(s)
  {
    if OpPending(s, id) {
      var o :| o in s.ops && s.ops[o] in {StartMark(id), StopDocker(id)};
      assert s.ops[o].id in InFlight(s);
    } else if WorkerPending(s, id) {
      var w :| 0 <= w < |s.agent.pass.workers| && s.agent.pass.workers[w] in {Checking(id), Restopping(id)};
      assert s.agent.pass.workers[w] in s.agent.pass.workers;
    }
  }

  /**
   * The boot id on disk changes only when a pass stamps it, and the pass then has attempted every
   * container that was recorded running; each attempt is counted exactly once.
   */
  lemma StampedLast(init: System, steps: seq<Step>, s: System, step: Step)
    requires Init(init) && Runs(init, steps, s) && Enabled(s, step)
    requires Apply(s, step).file.bootId != s.file.bootId
    ensures step.Stamp? && s.agent.Recovering?
    ensures var pass := s.agent.pass;
            && Apply(s, step).file.bootId == s.boot
            && (NewBoot(s.file, s.boot) ==> forall id <- RecordedRunning(pass.recorded) :: pass.settled[id] == 1)
            && |pass.candidates| == pass.summary.started + pass.summary.failed + |pass.summary.skipped|
  {
    OnlyStampMoves(s, step);
    InvRuns(init, steps, s);
    StampComplete(s);
  }

  lemma OnlyStampMoves(s: System, step: Step)
    requires Enabled(s, step) && Apply(s, step).file.bootId != s.file.bootId
    ensures step.Stamp? && Apply(s, step).file.bootId == s.boot
  {
  }

  lemma StampComplete(s: System)
    requires PassInv(s) && Enabled(s, Stamp)
    ensures var pass := s.agent.pass;
            && (NewBoot(s.file, s.boot) ==> forall id <- RecordedRunning(pass.recorded) :: pass.settled[id] == 1)
            && |pass.candidates| == pass.summary.started + pass.summary.failed + |pass.summary.skipped|
  {
    AllSettled(s.agent.pass);
    if NewBoot(s.file, s.boot) {
      AttemptedOnce(s.agent.pass, s.boot);
    }
  }

  lemma AllSettled(pass: Pass)
    requires Counted(pass) && pass.queue == [] && forall worker <- pass.workers :: worker.Free?
    ensures pass.settled == multiset(pass.candidates) && |pass.settled| == |pass.candidates|
  {
    forall id ensures pass.settled[id] == multiset(pass.candidates)[id] { BusyFree(pass.workers, id); }
  }

  lemma AttemptedOnce(pass: Pass, boot: string)
    requires CandidatesOf(pass.candidates, pass.recorded, boot) && NewBoot(pass.recorded, boot)
    requires pass.settled == multiset(pass.candidates)
    ensures forall id <- RecordedRunning(pass.recorded) :: pass.settled[id] == 1
  {
    forall id <- RecordedRunning(pass.recorded) ensures pass.settled[id] == 1 {
      assert id in set c <- pass.candidates;
      CountOnce(pass.candidates, id);
    }
  }

  lemma {:induction false} CountOnce(ids: seq<string>, id: string)
    requires DistinctSeq(ids) && id in ids
    ensures multiset(ids)[id] == 1
  {
    var last := |ids| - 1;
    assert ids == ids[..last] + [ids[last]];
    if ids[last] == id {
      assert id !in ids[..last];
    } else {
      CountOnce(ids[..last], id);
    }
  }

  ghost predicate NoReboot(steps: seq<Step>) { forall step <- steps :: !step.Reboot? }

  /**
   * Once the current boot is stamped, no later agent start of this boot puts a worker on any
   * container, however often the agent crashes and starts again.
   */
  lemma NoSecondRecovery(init: System, before: seq<Step>, s: System, after: seq<Step>, t: System)
    requires Init(init) && Runs(init, before, s) && s.file.bootId == s.boot
    requires Runs(s, after, t) && NoReboot(after)
    ensures t.file.bootId == t.boot == s.boot
    ensures t.agent.Recovering? ==> t.agent.pass.candidates == [] && forall id :: Busy(t.agent.pass.workers, id) == 0
  {
    InvRuns(init, before, s);
    StaysStamped(s, after, t);
    if t.agent.Recovering? {
      NoCandidates(t.agent.pass, t.boot);
    }
  }

  lemma NonemptySet(ids: seq<string>)
    ensures (set id <- ids) == {} ==> ids == []
  {
    var all := set id <- ids;
    if ids != [] { assert ids[0] in all; }
  }

  lemma NoCandidates(pass: Pass, boot: string)
    requires CandidatesOf(pass.candidates, pass.recorded, boot) && pass.recorded.bootId == boot && Counted(pass)
    ensures pass.candidates == [] && forall id :: Busy(pass.workers, id) == 0
  {
    NonemptySet(pass.candidates);
  }

  lemma StampedStep(s: System, step: Step)
    requires Enabled(s, step) && PassInv(s) && s.file.bootId == s.boot && !step.Reboot?
    ensures var t := Apply(s, step); t.file.bootId == t.boot == s.boot
  {
  }

  lemma {:induction false} StaysStamped(s: System, steps: seq<Step>, t: System)
    requires Inv(s) && s.file.bootId == s.boot && Runs(s, steps, t) && NoReboot(steps)
    ensures Inv(t) && t.file.bootId == t.boot == s.boot
    decreases |steps|
  {
    if steps != [] {
      InvStep(s, steps[0]);
      StampedStep(s, steps[0]);
      StaysStamped(Apply(s, steps[0]), steps[1..], t);
    }
  }

  /** A crash or a failure before the stamp leaves the old boot id, so the next agent start recovers again. */
  lemma CrashRetries(init: System, steps: seq<Step>, s: System, candidates: seq<string>, running: seq<string>)
    requires Init(init) && Runs(init, steps, s) && s.agent.Recovering? && NewBoot(s.file, s.boot)
    requires CandidatesOf(candidates, s.file, s.boot)
    ensures exists t ::
              && Runs(s, [Crash, ReadRecord, ListManaged(candidates, running)], t)
              && t.agent.Recovering? && NewBoot(t.file, t.boot)
              && (set id <- t.agent.pass.queue) == RecordedRunning(s.file)
  {
    var s1 := Apply(s, Crash);
    var s2 := Apply(s1, ReadRecord);
    var t := Apply(s2, ListManaged(candidates, running));
    var steps := [Crash, ReadRecord, ListManaged(candidates, running)];
    assert steps[1..][1..] == [ListManaged(candidates, running)];
    assert Runs(t, [], t);
    assert Runs(s2, steps[1..][1..], t);
    assert Runs(s1, steps[1..], t);
    assert Runs(s, steps, t);
  }

  lemma {:induction false} OneMore(init: System, steps: seq<Step>, s: System, step: Step)
    requires Runs(init, steps, s) && Enabled(s, step)
    ensures Runs(init, steps + [step], Apply(s, step))
    decreases |steps|
  {
    if steps == [] {
      assert [step][1..] == [];
    } else {
      OneMore(Apply(init, steps[0]), steps[1..], s, step);
      assert (steps + [step])[1..] == steps[1..] + [step];
    }
  }

  /** A reachable state, by one more step. */
  ghost predicate Reached(s: System) { exists init, steps :: Init(init) && Runs(init, steps, s) }

  lemma ReachedNext(s: System, step: Step)
    requires Reached(s) && Enabled(s, step)
    ensures Reached(Apply(s, step))
  {
    var init, steps :| Init(init) && Runs(init, steps, s);
    OneMore(init, steps, s, step);
  }

  lemma AgentUp() returns (s: System)
    ensures Reached(s) && s.agent.Recovering? && s.agent.pass.workers == [] && s.ops == map[] && s.docker == map[] && s.used == {}
  {
    var init := System("boot", map[], {}, EMPTY, Down, map[], {});
    assert Runs(init, [], init);
    ReachedNext(init, ReadRecord);
    var s1 := Apply(init, ReadRecord);
    assert CandidatesOf([], s1.agent.recorded, s1.boot);
    ReachedNext(s1, ListManaged([], []));
    s := Apply(s1, ListManaged([], []));
  }

  lemma UpAndRunning(id: string) returns (s: System)
    ensures Reached(s) && !s.agent.Down? && s.ops == map[] && s.docker == map[id := Container(true, false)] && InFlight(s) == {}
  {
    hide Reached;
    var s2 := AgentUp();
    ReachedNext(s2, Begin(0, CreateDocker(id)));
    var s3 := Apply(s2, Begin(0, CreateDocker(id)));
    ReachedNext(s3, Advance(0));
    var s4 := Apply(s3, Advance(0));
    ReachedNext(s4, Advance(0));
    s := Started0(Apply(s4, Advance(0)), id);
  }

  lemma Started0(s: System, id: string) returns (t: System)
    requires Reached(s) && s.agent.Recovering? && s.agent.pass.workers == [] && s.ops == map[]
    requires s.docker == map[id := Container(false, false)]
    ensures Reached(t) && !t.agent.Down? && t.ops == map[] && t.docker == map[id := Container(true, false)] && InFlight(t) == {}
  {
    hide Reached;
    ReachedNext(s, Begin(0, StartDocker(id)));
    var s1 := Apply(s, Begin(0, StartDocker(id)));
    ReachedNext(s1, Advance(0));
    var s2 := Apply(s1, Advance(0));
    ReachedNext(s2, Advance(0));
    t := Apply(s2, Advance(0));
  }

  /** Such an interruption happens: a stop that fails after it marked the record leaves the container running. */
  lemma CutShortBreaks(id: string)
    ensures exists s :: Reached(s) && IdleOn(s, id) && Stray(s, id)
  {
    var s := UpAndRunning(id);
    ReachedNext(s, Begin(0, StopMark(id)));
    var s1 := Apply(s, Begin(0, StopMark(id)));
    ReachedNext(s1, Advance(0));
    var s2 := Apply(s1, Advance(0));
    ReachedNext(s2, Abort(0, false));
    var s3 := Apply(s2, Abort(0, false));
    assert s3.ops == map[];
    assert IdleOn(s3, id);
  }
}
