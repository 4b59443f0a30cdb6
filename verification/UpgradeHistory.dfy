/**
 * All upgrade attempts of one app, one after the other under its lock. Agents, the database and the replicas' images
 * are arbitrary in each of them, and between two attempts the app may be stopped and started, removed, approved or not.
 */
module UpgradeHistory {
  import opened Wrappers
  import opened UpgradeSaga
  import opened UpgradeLaws

  /** One attempt: the command, what agents and database do, and what it finds beside the record of the last one. */
  datatype Attempt = Attempt(
    command: Command, agents: Agents, save: Save, images: Images, nodesThere: bool,
    state: State, hasApproval: bool, hasGrant: bool)

  /** The command is well formed and no other writer replaces the record while it is saved. */
  predicate Sound(a: Attempt) { WellFormed(a.command) && !a.save.Overwritten? }

  function Found(r: Record, a: Attempt): Record { r.(state := a.state, hasApproval := a.hasApproval, hasGrant := a.hasGrant) }

  function Try(r: Record, a: Attempt): Outcome { Run(a.agents, a.save, Some(Found(r, a)), a.images, a.nodesThere, a.command) }

  /** The record after all attempts. */
  function RecordAfter(r: Record, attempts: seq<Attempt>): Record {
    if attempts == [] then r
    else
      var was := RecordAfter(r, attempts[..|attempts| - 1]);
      var o := Try(was, attempts[|attempts| - 1]);
      if o.record.Some? then o.record.value else was
  }

  /** What the i-th attempt came to. */
  function OutcomeOf(r: Record, attempts: seq<Attempt>, i: nat): Outcome
    requires i < |attempts|
  {
    Try(RecordAfter(r, attempts[..i]), attempts[i])
  }

  ghost predicate AllSound(attempts: seq<Attempt>) { forall i | 0 <= i < |attempts| :: Sound(attempts[i]) }

  function Applied(r: Record): nat { if r.appliedRevision.Some? then r.appliedRevision.value else 0 }

  /** The two records say the same of what was applied. */
  predicate SameApplied(a: Record, b: Record) {
    && Applied(a) == Applied(b) && a.appliedUpgradeEpoch == b.appliedUpgradeEpoch && a.lastStrategy == b.lastStrategy
    && a.manifestDigest == b.manifestDigest && a.imageDigest == b.imageDigest && a.authorizationEpoch == b.authorizationEpoch
  }

  /** An attempt leaves what was applied alone, or raises the revision by at least what it adds to the epoch. */
  lemma TryMoves(r: Record, a: Attempt)
    requires Sound(a)
    ensures var o := Try(r, a);
            && o.record.Some? && o.record.value.affinity == r.affinity
            && (SameApplied(o.record.value, r) ||
                (Applied(r) < Applied(o.record.value) == a.command.revision && (o.result.Upgraded? || a.save == SaveFailed(true))
                 && r.authorizationEpoch <= o.record.value.authorizationEpoch <= r.authorizationEpoch + 1))
            && (o.result.Upgraded? ==> o.record.value == After(Found(r, a), a.command, o.result.strategy) && Applied(r) < a.command.revision)
  {
    hide GoForward, GoBack, Honour;
  }

  lemma Last(r: Record, attempts: seq<Attempt>, i: nat)
    requires i < |attempts| && Sound(attempts[i])
    ensures OutcomeOf(r, attempts, i).record == Some(RecordAfter(r, attempts[..i + 1]))
  {
    hide Run, WellFormed;
    assert attempts[..i + 1][..i] == attempts[..i];
    TryMoves(RecordAfter(r, attempts[..i]), attempts[i]);
  }

  /** Revision and epoch never fall, the epoch rises by no more than the revision, and until the revision rises nothing changes. */
  lemma {:induction false} NeverFallsOver(r: Record, attempts: seq<Attempt>, i: nat, j: nat)
    requires AllSound(attempts) && i <= j <= |attempts|
    ensures var early, late := RecordAfter(r, attempts[..i]), RecordAfter(r, attempts[..j]);
            && early.authorizationEpoch <= late.authorizationEpoch
            && late.authorizationEpoch - early.authorizationEpoch <= Applied(late) - Applied(early)
            && late.affinity == early.affinity
            && (Applied(late) == Applied(early) ==> SameApplied(late, early))
    decreases j - i
  {
    hide Run, Try, RecordAfter, Sound;
    if i < j {
      NeverFallsOver(r, attempts, i, j - 1);
      Last(r, attempts, j - 1);
      TryMoves(RecordAfter(r, attempts[..j - 1]), attempts[j - 1]);
    }
  }

  /** The revisions of successive successes strictly rise. */
  lemma RevisionsRise(r: Record, attempts: seq<Attempt>, i: nat, j: nat)
    requires AllSound(attempts) && i < j < |attempts|
    requires OutcomeOf(r, attempts, i).result.Upgraded? && OutcomeOf(r, attempts, j).result.Upgraded?
    ensures attempts[i].command.revision < attempts[j].command.revision
  {
    hide Run, WellFormed;
    Last(r, attempts, i);
    TryMoves(RecordAfter(r, attempts[..i]), attempts[i]);
    NeverFallsOver(r, attempts, i + 1, j);
    TryMoves(RecordAfter(r, attempts[..j]), attempts[j]);
  }

  /** The attempts that succeeded, and those whose save reached the database although its call failed. */
  function Landed(r: Record, attempts: seq<Attempt>): nat {
    if attempts == [] then 0
    else
      var init, last := attempts[..|attempts| - 1], attempts[|attempts| - 1];
      Landed(r, init) + if Try(RecordAfter(r, init), last).result.Upgraded? || last.save == SaveFailed(true) then 1 else 0
  }

  /** The epoch never falls, and rises by at most one for each attempt that landed. */
  lemma {:induction false} EpochGrowth(r: Record, attempts: seq<Attempt>)
    requires AllSound(attempts)
    ensures r.authorizationEpoch <= RecordAfter(r, attempts).authorizationEpoch <= r.authorizationEpoch + Landed(r, attempts)
  {
    hide Run, WellFormed;
    if attempts != [] {
      var init, last := attempts[..|attempts| - 1], attempts[|attempts| - 1];
      EpochGrowth(r, init);
      TryMoves(RecordAfter(r, init), last);
    }
  }

  /**
   * A command is applied at most once: after its success, an attempt with the same command finds it and makes no
   * agent call and changes nothing. It answers the strategy of that success exactly when the app is running and
   * nothing newer was applied, and is refused otherwise.
   */
  lemma AppliedOnce(r: Record, attempts: seq<Attempt>, i: nat, j: nat)
    requires AllSound(attempts) && i < j < |attempts| && attempts[j].command == attempts[i].command
    requires OutcomeOf(r, attempts, i).result.Upgraded?
    ensures var o, found := OutcomeOf(r, attempts, j), RecordAfter(r, attempts[..j]);
            && o.calls == 0 && o.images == attempts[j].images && o.record == Some(Found(found, attempts[j]))
            && (attempts[j].state == RunningState && Applied(found) == attempts[j].command.revision
                <==> o.result == AlreadyApplied(OutcomeOf(r, attempts, i).result.strategy))
            && (o.result.Rejected? || o.result == AlreadyApplied(OutcomeOf(r, attempts, i).result.strategy))
  {
    var was := RecordAfter(r, attempts[..i]);
    Last(r, attempts, i);
    TryMoves(was, attempts[i]);
    NeverFallsOver(r, attempts, i + 1, j);
    Repeated(was, attempts[i], RecordAfter(r, attempts[..j]), attempts[j]);
  }

  lemma Repeated(was: Record, a: Attempt, found: Record, b: Attempt)
    requires Sound(a) && b.command == a.command && Try(was, a).result.Upgraded?
    requires var after := Try(was, a).record.value;
             Applied(found) >= Applied(after) && found.affinity == after.affinity && (Applied(found) == Applied(after) ==> SameApplied(found, after))
    ensures var o := Try(found, b);
            && o.calls == 0 && o.images == b.images && o.record == Some(Found(found, b))
            && (b.state == RunningState && Applied(found) == b.command.revision <==> o.result == AlreadyApplied(Try(was, a).result.strategy))
            && (o.result.Rejected? || o.result == AlreadyApplied(Try(was, a).result.strategy))
  {
    hide GoForward, GoBack;
  }

  // ---- a roll back that is reported and did not happen ----

  /** Moves the first replica, refuses the second, and loses the call that should move the first one back. */
  function LosesRevert(): Agents {
    (n: nat, digest: Digest, before: Option<Digest>) =>
      if n == 0 then Reply(Swapped(Rolling), Some(digest)) else if n == 2 then Reply(Lost, before) else Reply(Refused(Some(true)), before)
  }

  /**
   * Any admitted command, with two replicas or more on the previous image: after an attempt that reports no roll back,
   * the same command is admitted again, and then reports one with the first replica still on the target.
   */
  lemma RetryReportsRollBack(r: Record, images: Images, save: Save, c: Command)
    requires Admit(Some(r), c, true) == None && WellFormed(c) && |images| >= 2 && AllOn(images, c.previousImageDigest)
    ensures Honour(LosesRevert()) && Honour(Unwilling())
    ensures var first := Run(LosesRevert(), save, Some(r), images, true, c);
            var second := Run(Unwilling(), save, first.record, first.images, true, c);
            && first.result == Failed(false, false) && first.record == Some(r)
            && second.result == Failed(false, true) && |second.images| == |images|
            && second.images[0] == Some(c.targetImageDigest) && !AllOn(second.images, c.previousImageDigest)
  {
    var agents, target := LosesRevert(), c.targetImageDigest;
    var moved := images[0 := Some(target)];
    assert moved[1 := moved[1]] == moved;
    assert GoForward(agents, moved, target, [Rolling]) == Forward(moved, [Rolling], true, Some(true));
    var none: seq<Strategy> := [];
    assert none + [Rolling] == [Rolling];
    var f := GoForward(agents, images, target, none);
    assert f == Forward(moved, [Rolling], true, Some(true));
    assert moved[0 := moved[0]] == moved;
    assert GoBack(agents, moved, c.previousImageDigest, 2, 0, 1, true) == Back(moved, false);
    var first := Run(agents, save, Some(r), images, true, c);
    assert first == Fail(agents, c, Some(r), f, 2, false);
    UnwillingRollsBack(save, first.record, first.images, true, c);
    assert GoForward(Unwilling(), moved, target, []).recovered == Some(true);
  }
}
