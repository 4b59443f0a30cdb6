/**
 * Upgrading every replica of an app to a new image, with the record saved inside the same attempt and every
 * moved replica reverted if anything fails. The agents and the database answer as they like; an agent is only
 * taken to honour what it says: a success means the replica runs the requested image, and a refusal marked
 * recovered means it runs what it ran before.
 */
module UpgradeSaga {
  import opened Wrappers

  type Digest = string

  datatype Strategy = Rolling | StopThenCreate

  datatype State = Provisioning | RunningState | Quarantined | Removing | Removed

  /** What binds a command to one generation of one app. */
  datatype Affinity = Affinity(
    appId: string, deploymentId: string, generationId: string, generationNumber: nat, mcpAppId: string,
    resourceManifestHash: string, inventoryHash: string)

  datatype Record = Record(
    state: State, affinity: Affinity, authorizationEpoch: nat, manifestDigest: Digest, imageDigest: Digest,
    previousManifestDigest: Option<Digest>, previousImageDigest: Option<Digest>,
    appliedRevision: Option<nat>, appliedUpgradeEpoch: Option<nat>, lastStrategy: Option<Strategy>,
    hasApproval: bool, hasGrant: bool)

  datatype Command = Command(
    affinity: Affinity, revision: nat, upgradeEpoch: nat, authorizationEpoch: nat, resultingAuthorizationEpoch: nat,
    targetManifestDigest: Digest, targetImageDigest: Digest, previousManifestDigest: Digest, previousImageDigest: Digest)

  /** What the schema lets through. */
  predicate WellFormed(c: Command) {
    && c.revision > 0 && c.authorizationEpoch > 0 && c.resultingAuthorizationEpoch == c.authorizationEpoch + 1
    && c.upgradeEpoch == c.revision
    && c.targetImageDigest != c.previousImageDigest && c.targetManifestDigest != c.previousManifestDigest
  }

  datatype Refusal =
    | AppNotFound
    | NotRunning
    | AffinityMismatch
    | RevisionDowngrade
    | EpochReused
    | PreviousDigestMismatch
    | RecordIncomplete
    | NodeMissing

  datatype Answer =
    | Swapped(strategy: Strategy)
    | SwappedUnclear
    | Refused(recovered: Option<bool>)
    | Lost

  /** An agent's answer and the image the replica runs afterwards, if it runs any. */
  datatype Reply = Reply(answer: Answer, image: Option<Digest>)

  /** The reply to the n-th call, which asks for an image while the replica runs another. */
  type Agents = (nat, Digest, Option<Digest>) -> Reply

  type Images = seq<Option<Digest>>

  predicate IsSuccess(a: Answer) { a.Swapped? || a.SwappedUnclear? }

  ghost predicate Honour(agents: Agents) {
    forall n, digest, before ::
      && (IsSuccess(agents(n, digest, before).answer) ==> agents(n, digest, before).image == Some(digest))
      && (agents(n, digest, before).answer == Refused(Some(true)) ==> agents(n, digest, before).image == before)
  }

  /** What saving the record does: it is saved, the filter misses, the call fails, or another writer's record is read back. */
  datatype Save = Saved | NotMatched | SaveFailed(written: bool) | Overwritten(other: Option<Record>)

  datatype Result =
    | Rejected(refusal: Refusal)
    | AlreadyApplied(strategy: Strategy)
    | Upgraded(strategy: Strategy)
    | Failed(persistenceFailed: bool, rolledBack: bool)

  // ---- the checks before anything is touched ----

  /** `None` lets the swap go ahead. */
  function Admit(app: Option<Record>, c: Command, nodesThere: bool): Option<Result> {
    if app.None? || app.value.state == Removed then Some(Rejected(AppNotFound))
    else
      var r := app.value;
      var applied := if r.appliedRevision.Some? then r.appliedRevision.value else 0;
      if r.state != RunningState then Some(Rejected(NotRunning))
      else if r.affinity != c.affinity || (r.authorizationEpoch != c.authorizationEpoch && r.authorizationEpoch != c.resultingAuthorizationEpoch) then
        Some(Rejected(AffinityMismatch))
      else if c.revision < applied then Some(Rejected(RevisionDowngrade))
      else if c.revision == applied then
        if applied > 0 && r.manifestDigest == c.targetManifestDigest && r.imageDigest == c.targetImageDigest && r.appliedUpgradeEpoch == Some(c.upgradeEpoch)
        then Some(AlreadyApplied(if r.lastStrategy.Some? then r.lastStrategy.value else StopThenCreate))
        else Some(Rejected(EpochReused))
      else if r.manifestDigest != c.previousManifestDigest || r.imageDigest != c.previousImageDigest then Some(Rejected(PreviousDigestMismatch))
      else if !r.hasApproval || !r.hasGrant then Some(Rejected(RecordIncomplete))
      else if !nodesThere then Some(Rejected(NodeMissing))
      else None
  }

  // ---- forward and back ----

  /** The images when the forward loop ended, the strategies of the replicas that moved, and how it failed. */
  datatype Forward = Forward(images: Images, moved: seq<Strategy>, failed: bool, recovered: Option<bool>)

  function GoForward(agents: Agents, images: Images, target: Digest, moved: seq<Strategy>): Forward
    requires |moved| <= |images|
    decreases |images| - |moved|
  {
    var i := |moved|;
    if i == |images| then Forward(images, moved, false, None)
    else
      var reply := agents(i, target, images[i]);
      var now := images[i := reply.image];
      match reply.answer
      case Swapped(strategy) => GoForward(agents, now, target, moved + [strategy])
      case Refused(recovered) => Forward(now, moved, true, recovered)
      case _ => Forward(now, moved, true, None)
  }

  datatype Back = Back(images: Images, allReverted: bool)

  /** Asks the replicas from `i` to `n` to go back; `calls` were made before the first revert. */
  function GoBack(agents: Agents, images: Images, previous: Digest, calls: nat, i: nat, n: nat, allReverted: bool): Back
    requires i <= n <= |images|
    decreases n - i
  {
    if i == n then Back(images, allReverted)
    else
      var reply := agents(calls + i, previous, images[i]);
      GoBack(agents, images[i := reply.image], previous, calls, i + 1, n, allReverted && IsSuccess(reply.answer))
  }

  predicate OneStrategy(moved: seq<Strategy>) { moved != [] && forall i | 0 <= i < |moved| :: moved[i] == moved[0] }

  function After(r: Record, c: Command, strategy: Strategy): Record {
    r.(manifestDigest := c.targetManifestDigest, imageDigest := c.targetImageDigest,
       previousManifestDigest := Some(c.previousManifestDigest), previousImageDigest := Some(c.previousImageDigest),
       appliedRevision := Some(c.revision), appliedUpgradeEpoch := Some(c.upgradeEpoch),
       authorizationEpoch := c.resultingAuthorizationEpoch, lastStrategy := Some(strategy))
  }

  datatype Outcome = Outcome(result: Result, record: Option<Record>, images: Images, calls: nat)

  /** Reverts what moved and reports; `recovered` is what the failing replica's agent said. */
  function Fail(agents: Agents, c: Command, record: Option<Record>, f: Forward, calls: nat, persistenceFailed: bool): Outcome
    requires |f.moved| <= |f.images|
  {
    var back := GoBack(agents, f.images, c.previousImageDigest, calls, 0, |f.moved|, true);
    Outcome(Failed(persistenceFailed, back.allReverted && (persistenceFailed || f.recovered == Some(true))), record, back.images, calls + |f.moved|)
  }

  lemma {:induction false} ForwardShape(agents: Agents, images: Images, target: Digest, moved: seq<Strategy>)
    requires |moved| <= |images|
    ensures var f := GoForward(agents, images, target, moved);
            && |f.images| == |images| && |moved| <= |f.moved| <= |images| && (f.failed ==> |f.moved| < |images|) && (!f.failed ==> |f.moved| == |images| && f.recovered == None)
    decreases |images| - |moved|
  {
    if |moved| < |images| {
      var reply := agents(|moved|, target, images[|moved|]);
      if reply.answer.Swapped? { ForwardShape(agents, images[|moved| := reply.image], target, moved + [reply.answer.strategy]); }
    }
  }

  function Run(agents: Agents, save: Save, app: Option<Record>, images: Images, nodesThere: bool, c: Command): Outcome {
    var early := Admit(app, c, nodesThere);
    if early.Some? then Outcome(early.value, app, images, 0)
    else
      ForwardShape(agents, images, c.targetImageDigest, []);
      var f := GoForward(agents, images, c.targetImageDigest, []);
      var calls := |f.moved| + if f.failed then 1 else 0;
      if f.failed || !OneStrategy(f.moved) then Fail(agents, c, app, f, calls, false)
      else Settle(agents, save, app.value, c, f, calls)
  }

  /** The end of an attempt in which every replica moved. */
  function Settle(agents: Agents, save: Save, r: Record, c: Command, f: Forward, calls: nat): Outcome
    requires OneStrategy(f.moved) && |f.moved| <= |f.images|
  {
    match save
    case Saved => Outcome(Upgraded(f.moved[0]), Some(After(r, c, f.moved[0])), f.images, calls)
    case NotMatched => Fail(agents, c, Some(r), f, calls, true)
    case SaveFailed(written) => Fail(agents, c, Some(if written then After(r, c, f.moved[0]) else r), f, calls, false)
    case Overwritten(other) => Fail(agents, c, other, f, calls, true)
  }

  // ---- the procedure ----

  class Cluster {
    var app: Option<Record>
    var images: Images
    /** Agent calls made by the latest attempt. */
    var calls: nat

    constructor (app: Option<Record>, images: Images)
      ensures this.app == app && this.images == images && calls == 0
    {
      this.app, this.images, this.calls := app, images, 0;
    }

    /** Asks one replica's agent to redeploy it. */
    method Redeploy(agents: Agents, i: nat, digest: Digest) returns (answer: Answer)
      requires i < |images|
      modifies this
      ensures var reply := agents(old(calls), digest, old(images)[i]);
              answer == reply.answer && images == old(images)[i := reply.image] && calls == old(calls) + 1 && app == old(app)
    {
      var reply := agents(calls, digest, images[i]);
      images := images[i := reply.image];
      calls := calls + 1;
      answer := reply.answer;
    }

    method Upgrade(agents: Agents, save: Save, nodesThere: bool, c: Command) returns (r: Result)
      modifies this
      ensures Outcome(r, app, images, calls) == Run(agents, save, old(app), old(images), nodesThere, c)
    {
      hide GoBack, Fail, After;
      calls := 0;
      var early := Admit(app, c, nodesThere);
      if early.Some? { return early.value; }
      var record := app.value;
      var succeeded: seq<Strategy> := [];
      var recovered: Option<bool> := None;
      var failed := false;
      ForwardShape(agents, images, c.targetImageDigest, []);
      ghost var end := GoForward(agents, images, c.targetImageDigest, []);
      while |succeeded| < |images|
        invariant |images| == |old(images)| && |succeeded| <= |images| && app == old(app) && calls == |succeeded|
        invariant GoForward(agents, images, c.targetImageDigest, succeeded) == end
        decreases |images| - |succeeded|
      {
        var answer := Redeploy(agents, |succeeded|, c.targetImageDigest);
        if answer.Swapped? {
          succeeded := succeeded + [answer.strategy];
        } else {
          if answer.Refused? { recovered := answer.recovered; }
          failed := true;
          break;
        }
      }
      assert Forward(images, succeeded, failed, recovered) == end;
      if failed || !OneStrategy(succeeded) {
        r := Revert(agents, c, end, recovered, |succeeded|, false);
        return;
      }
      match save {
        case Saved =>
          app := Some(After(record, c, succeeded[0]));
          r := Upgraded(succeeded[0]);
        case NotMatched =>
          r := Revert(agents, c, end, recovered, |succeeded|, true);
        case SaveFailed(written) =>
          if written { app := Some(After(record, c, succeeded[0])); }
          r := Revert(agents, c, end, recovered, |succeeded|, false);
        case Overwritten(other) =>
          app := other;
          r := Revert(agents, c, end, recovered, |succeeded|, true);
      }
    }

    /** Reverts every replica that moved, whatever each agent answers. */
    method Revert(agents: Agents, c: Command, ghost f: Forward, recovered: Option<bool>, n: nat, persistenceFailed: bool) returns (r: Result)
      requires f.images == images && |f.moved| == n <= |images| && f.recovered == recovered
      modifies this
      ensures Outcome(r, app, images, calls) == Fail(agents, c, old(app), f, old(calls), persistenceFailed)
    {
      var allReverted := true;
      for i := 0 to n
        invariant |images| == |old(images)| && app == old(app) && calls == old(calls) + i
        invariant GoBack(agents, images, c.previousImageDigest, old(calls), i, n, allReverted)
               == GoBack(agents, old(images), c.previousImageDigest, old(calls), 0, n, true)
      {
        var answer := Redeploy(agents, i, c.previousImageDigest);
        if !IsSuccess(answer) { allReverted := false; }
      }
      r := Failed(persistenceFailed, allReverted && (persistenceFailed || recovered == Some(true)));
    }
  }
}
