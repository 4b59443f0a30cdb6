/** What an upgrade attempt leaves behind, for any honest agents and any behaviour of the database. */
module UpgradeLaws {
  import opened Wrappers
  import opened UpgradeSaga

  ghost predicate AllOn(images: Images, digest: Digest) { forall i | 0 <= i < |images| :: images[i] == Some(digest) }

  /** The replicas before `n` run the image; the others run what they ran in `was`. */
  ghost predicate MovedUpTo(images: Images, was: Images, digest: Digest, n: nat) {
    && |images| == |was| && n <= |was|
    && (forall i | 0 <= i < n :: images[i] == Some(digest))
    && (forall i | n <= i < |was| :: images[i] == was[i])
  }

  /** After the forward loop the moved replicas run the target; a failing replica that recovered runs what it ran. */
  lemma {:induction false} ForwardMoves(agents: Agents, was: Images, images: Images, target: Digest, moved: seq<Strategy>)
    requires Honour(agents) && MovedUpTo(images, was, target, |moved|)
    ensures var f := GoForward(agents, images, target, moved);
            && |f.images| == |was| && |f.moved| <= |was| && (f.failed ==> |f.moved| < |was|)
            && (!f.failed ==> |f.moved| == |was|)
            && (forall i | 0 <= i < |f.moved| :: f.images[i] == Some(target))
            && (forall i | |f.moved| < i < |was| :: f.images[i] == was[i])
            && (f.failed && f.recovered == Some(true) ==> f.images[|f.moved|] == was[|f.moved|])
    decreases |images| - |moved|
  {
    if |moved| < |images| {
      var reply := agents(|moved|, target, images[|moved|]);
      if reply.answer.Swapped? {
        ForwardMoves(agents, was, images[|moved| := reply.image], target, moved + [reply.answer.strategy]);
      }
    }
  }

  /** Reverting touches the replicas it asks and no other; if every answer was a success they run the previous image. */
  lemma {:induction false} BackMoves(agents: Agents, images: Images, previous: Digest, calls: nat, i: nat, n: nat, allReverted: bool)
    requires Honour(agents) && i <= n <= |images|
    requires allReverted ==> forall k | 0 <= k < i :: images[k] == Some(previous)
    ensures var b := GoBack(agents, images, previous, calls, i, n, allReverted);
            && |b.images| == |images| && (b.allReverted ==> allReverted)
            && (forall k | n <= k < |images| :: b.images[k] == images[k])
            && (b.allReverted ==> forall k | 0 <= k < n :: b.images[k] == Some(previous))
    decreases n - i
  {
    if i < n {
      var reply := agents(calls + i, previous, images[i]);
      BackMoves(agents, images[i := reply.image], previous, calls, i + 1, n, allReverted && IsSuccess(reply.answer));
    }
  }

  /** Success: every replica and the record are on the target, and the record carries the command's revision and epoch. */
  lemma SuccessIsOnTarget(agents: Agents, save: Save, app: Option<Record>, images: Images, nodesThere: bool, c: Command)
    requires Honour(agents) && Run(agents, save, app, images, nodesThere, c).result.Upgraded?
    ensures var o := Run(agents, save, app, images, nodesThere, c);
            && AllOn(o.images, c.targetImageDigest) && |o.images| == |images| == o.calls && images != []
            && app.Some? && o.record == Some(After(app.value, c, o.result.strategy))
  {
    ForwardMoves(agents, images, images, c.targetImageDigest, []);
  }

  /** The replicas that moved and were told to go back are `n`; the failing one, if any, is the next. */
  function MovedCount(agents: Agents, images: Images, c: Command): nat { |GoForward(agents, images, c.targetImageDigest, []).moved| }

  lemma FailGoesBack(agents: Agents, c: Command, record: Option<Record>, f: Forward, calls: nat, persistenceFailed: bool)
    requires Honour(agents) && |f.moved| <= |f.images|
    ensures var o := Fail(agents, c, record, f, calls, persistenceFailed);
            && |o.images| == |f.images| && (forall k | |f.moved| <= k < |f.images| :: o.images[k] == f.images[k])
            && (o.result.rolledBack ==> forall k | 0 <= k < |f.moved| :: o.images[k] == Some(c.previousImageDigest))
  {
    BackMoves(agents, f.images, c.previousImageDigest, calls, 0, |f.moved|, true);
  }

  /** `rolledBack` puts every moved replica on the previous image and leaves every other replica as the attempt found it. */
  lemma RolledBackMeans(agents: Agents, save: Save, app: Option<Record>, images: Images, nodesThere: bool, c: Command)
    requires Honour(agents)
    requires var r := Run(agents, save, app, images, nodesThere, c).result; r.Failed? && r.rolledBack
    ensures MovedCount(agents, images, c) <= |images|
    ensures MovedUpTo(Run(agents, save, app, images, nodesThere, c).images, images, c.previousImageDigest, MovedCount(agents, images, c))
  {
    ForwardMoves(agents, images, images, c.targetImageDigest, []);
    var f := GoForward(agents, images, c.targetImageDigest, []);
    ForwardShape(agents, images, c.targetImageDigest, []);
    var calls := |f.moved| + if f.failed then 1 else 0;
    var o := Run(agents, save, app, images, nodesThere, c);
    if f.failed || !OneStrategy(f.moved) {
      FailGoesBack(agents, c, app, f, calls, false);
    } else if save.SaveFailed? {
      FailGoesBack(agents, c, if save.written then Some(After(app.value, c, f.moved[0])) else app, f, calls, false);
    } else {
      FailGoesBack(agents, c, if save.Overwritten? then save.other else app, f, calls, true);
    }
  }

  /** An agent that refuses every request and recovers. */
  function Unwilling(): Agents { (n: nat, digest: Digest, before: Option<Digest>) => Reply(Refused(Some(true)), before) }

  lemma UnwillingRollsBack(save: Save, app: Option<Record>, images: Images, nodesThere: bool, c: Command)
    requires Admit(app, c, nodesThere) == None && images != []
    ensures Honour(Unwilling())
    ensures var o := Run(Unwilling(), save, app, images, nodesThere, c);
            o.result.Failed? && o.result.rolledBack && o.images == images
  {
    assert images[0 := images[0]] == images;
  }

  /** With these replicas, a report of having rolled back is true whatever honest agents and the database do. */
  ghost predicate ReportIsTrue(app: Option<Record>, images: Images, nodesThere: bool, c: Command) {
    forall agents, save | Honour(agents) ::
      var o := Run(agents, save, app, images, nodesThere, c);
      o.result.Failed? && o.result.rolledBack ==> AllOn(o.images, c.previousImageDigest)
  }

  /**
   * A report of having rolled back means that every replica runs the previous image exactly when every
   * replica ran it before the attempt. After an attempt that left some replica elsewhere, a retry can report
   * a roll back that did not happen.
   */
  lemma RolledBackExactly(app: Option<Record>, images: Images, nodesThere: bool, c: Command)
    requires Admit(app, c, nodesThere) == None && images != []
    ensures ReportIsTrue(app, images, nodesThere, c) <==> AllOn(images, c.previousImageDigest)
  {
    if AllOn(images, c.previousImageDigest) {
      forall agents, save | Honour(agents)
        ensures var o := Run(agents, save, app, images, nodesThere, c);
                o.result.Failed? && o.result.rolledBack ==> AllOn(o.images, c.previousImageDigest)
      {
        if Run(agents, save, app, images, nodesThere, c).result.Failed? && Run(agents, save, app, images, nodesThere, c).result.rolledBack {
          RolledBackMeans(agents, save, app, images, nodesThere, c);
        }
      }
    }
    if ReportIsTrue(app, images, nodesThere, c) {
      UnwillingRollsBack(NotMatched, app, images, nodesThere, c);
    }
  }

  /** From coherent replicas, an attempt that ends well or reports a roll back leaves coherent replicas. */
  lemma StaysCoherent(agents: Agents, save: Save, app: Option<Record>, images: Images, nodesThere: bool, c: Command)
    requires Honour(agents) && app.Some? && AllOn(images, app.value.imageDigest) && !save.Overwritten?
    ensures var o := Run(agents, save, app, images, nodesThere, c);
            (o.result.Failed? ==> o.result.rolledBack) ==> o.record.Some? && AllOn(o.images, o.record.value.imageDigest)
  {
    var o := Run(agents, save, app, images, nodesThere, c);
    ForwardShape(agents, images, c.targetImageDigest, []);
    if o.result.Upgraded? {
      SuccessIsOnTarget(agents, save, app, images, nodesThere, c);
    } else if o.result.Failed? && o.result.rolledBack {
      RolledBackMeans(agents, save, app, images, nodesThere, c);
    }
  }
}
