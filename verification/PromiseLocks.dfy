/**
 * The two promise-chain locks, as steps of any number of callers. A call takes the key's tail as what it waits
 * for and leaves its own promise as the new tail; it is released when its action ends, well or not. The
 * workspace lock then drops the key if the tail is still its own. The ledger's lock compares the tail with a
 * promise made on the spot, which is never the one stored, so it drops nothing.
 */
module PromiseLocks {
  import opened Wrappers

  type Key = string

  datatype Phase = Waiting | Running | Done

  /** `prior` is the call whose promise this one waits for; none if there was no tail. */
  datatype Call = Call(key: Key, prior: Option<nat>, phase: Phase)

  /** Which lock it is, by whether the final comparison can succeed. */
  datatype Lock = Lock(drops: bool)

  datatype State = State(calls: seq<Call>, tails: map<Key, nat>)

  datatype Step = Arrive(key: Key) | Start(call: nat) | Finish(call: nat)

  const EMPTY := State([], map[])

  /** A tail resolves when its call is released and what it waited for has resolved. */
  predicate Resolved(calls: seq<Call>, c: nat)
    decreases c
  {
    && c < |calls| && calls[c].phase == Done
    && (calls[c].prior.Some? ==> calls[c].prior.value < c && Resolved(calls, calls[c].prior.value))
  }

  predicate Enabled(s: State, step: Step) {
    match step
    case Arrive(_) => true
    case Start(c) => c < |s.calls| && s.calls[c].phase == Waiting && (s.calls[c].prior.Some? ==> Resolved(s.calls, s.calls[c].prior.value))
    case Finish(c) => c < |s.calls| && s.calls[c].phase == Running
  }

  function Next(lock: Lock, s: State, step: Step): State
    requires Enabled(s, step)
  {
    match step
    case Arrive(key) =>
      State(s.calls + [Call(key, if key in s.tails then Some(s.tails[key]) else None, Waiting)], s.tails[key := |s.calls|])
    case Start(c) => s.(calls := s.calls[c := s.calls[c].(phase := Running)])
    case Finish(c) =>
      var key := s.calls[c].key;
      State(s.calls[c := s.calls[c].(phase := Done)], if lock.drops && key in s.tails && s.tails[key] == c then s.tails - {key} else s.tails)
  }

  ghost predicate Runs(lock: Lock, s: State, steps: seq<Step>, end: State)
    decreases |steps|
  {
    if steps == [] then s == end else Enabled(s, steps[0]) && Runs(lock, Next(lock, s, steps[0]), steps[1..], end)
  }

  // ---- the invariant ----

  predicate IsOf(calls: seq<Call>, c: nat, key: Key) { c < |calls| && calls[c].key == key }

  /** Every earlier call for the same key is done. */
  ghost predicate TurnOf(calls: seq<Call>, c: nat)
    requires c < |calls|
  {
    forall i | 0 <= i < c && calls[i].key == calls[c].key :: calls[i].phase == Done
  }

  /** A call waits for the last one before it with its key, or for none if those are done. */
  ghost predicate Linked(calls: seq<Call>) {
    forall c | 0 <= c < |calls| ::
      match calls[c].prior
      case Some(p) => p < c && calls[p].key == calls[c].key && (forall i | p < i < c :: calls[i].key != calls[c].key)
      case None => TurnOf(calls, c)
  }

  ghost predicate InTurn(calls: seq<Call>) {
    forall c | 0 <= c < |calls| && calls[c].phase != Waiting :: TurnOf(calls, c)
  }

  /** A stored tail belongs to the last call for its key; with none stored, every call for the key is done. */
  ghost predicate TailsFit(s: State) {
    && (forall key | key in s.tails ::
          IsOf(s.calls, s.tails[key], key) && forall i | s.tails[key] < i < |s.calls| :: s.calls[i].key != key)
    && (forall c | 0 <= c < |s.calls| && s.calls[c].key !in s.tails :: s.calls[c].phase == Done)
  }

  /** The workspace lock keeps no entry whose call is done. */
  ghost predicate NoneIdle(s: State) {
    forall key | key in s.tails :: s.tails[key] < |s.calls| && s.calls[s.tails[key]].phase != Done
  }

  ghost predicate Inv(lock: Lock, s: State) { Linked(s.calls) && InTurn(s.calls) && TailsFit(s) && (lock.drops ==> NoneIdle(s)) }

  lemma TurnStays(calls: seq<Call>, call: Call, c: nat)
    requires c < |calls|
    ensures TurnOf(calls + [call], c) <==> TurnOf(calls, c)
  {
    assert forall i | 0 <= i < |calls| :: (calls + [call])[i] == calls[i];
  }

  lemma ArriveLinked(s: State, key: Key)
    requires Linked(s.calls) && TailsFit(s)
    ensures Linked(s.calls + [Call(key, if key in s.tails then Some(s.tails[key]) else None, Waiting)])
  {
    var call := Call(key, if key in s.tails then Some(s.tails[key]) else None, Waiting);
    var calls := s.calls + [call];
    forall c | 0 <= c < |s.calls| && s.calls[c].prior.None? ensures TurnOf(calls, c) {
      TurnStays(s.calls, call, c);
    }
  }

  lemma ArriveInTurn(calls: seq<Call>, call: Call)
    requires InTurn(calls) && call.phase == Waiting
    ensures InTurn(calls + [call])
  {
    forall c | 0 <= c < |calls| && calls[c].phase != Waiting ensures TurnOf(calls + [call], c) {
      TurnStays(calls, call, c);
    }
  }

  lemma ArriveTails(s: State, key: Key)
    requires TailsFit(s)
    ensures forall lock :: TailsFit(Next(lock, s, Arrive(key)))
  {
  }

  lemma ArriveKeeps(lock: Lock, s: State, key: Key)
    requires Inv(lock, s)
    ensures Inv(lock, Next(lock, s, Arrive(key)))
  {
    hide Linked, InTurn, TailsFit;
    ArriveLinked(s, key);
    ArriveInTurn(s.calls, Call(key, if key in s.tails then Some(s.tails[key]) else None, Waiting));
    ArriveTails(s, key);
  }

  lemma AfterPrior(calls: seq<Call>, c: nat, p: nat)
    requires p < c < |calls| && calls[p].key == calls[c].key && calls[p].phase == Done && TurnOf(calls, p)
    requires forall i | p < i < c :: calls[i].key != calls[c].key
    ensures TurnOf(calls, c)
  {
    forall i | 0 <= i < c && calls[i].key == calls[c].key ensures calls[i].phase == Done {
      assert i <= p;
    }
  }

  /** When what it waits for has resolved, it is the call's turn. */
  lemma MayStart(s: State, c: nat)
    requires Linked(s.calls) && InTurn(s.calls) && Enabled(s, Start(c))
    ensures TurnOf(s.calls, c)
  {
    if s.calls[c].prior.Some? {
      var p := s.calls[c].prior.value;
      assert s.calls[p].phase == Done;
      AfterPrior(s.calls, c, p);
    }
  }

  lemma TurnKept(calls: seq<Call>, c: nat, phase: Phase, d: nat)
    requires c < |calls| && calls[c].phase != Done && d < |calls| && TurnOf(calls, d)
    ensures TurnOf(calls[c := calls[c].(phase := phase)], d)
  {
    var now := calls[c := calls[c].(phase := phase)];
    forall i | 0 <= i < d && now[i].key == now[d].key ensures now[i].phase == Done {
      assert calls[i].key == calls[d].key;
    }
  }

  /** Moving one call on, from waiting to running in its turn or from running to done, keeps the order. */
  lemma MoveKeeps(calls: seq<Call>, c: nat, phase: Phase)
    requires Linked(calls) && InTurn(calls) && c < |calls| && calls[c].phase != Done && TurnOf(calls, c)
    ensures Linked(calls[c := calls[c].(phase := phase)]) && InTurn(calls[c := calls[c].(phase := phase)])
  {
    var now := calls[c := calls[c].(phase := phase)];
    forall d | 0 <= d < |now| && TurnOf(calls, d) ensures TurnOf(now, d) {
      TurnKept(calls, c, phase, d);
    }
    forall d | 0 <= d < |now| && now[d].phase != Waiting ensures TurnOf(now, d) {
      assert TurnOf(calls, d);
    }
  }

  lemma StartKeeps(lock: Lock, s: State, c: nat)
    requires Inv(lock, s) && Enabled(s, Start(c))
    ensures Inv(lock, Next(lock, s, Start(c)))
  {
    MayStart(s, c);
    MoveKeeps(s.calls, c, Running);
  }

  lemma FinishKeeps(lock: Lock, s: State, c: nat)
    requires Inv(lock, s) && Enabled(s, Finish(c))
    ensures Inv(lock, Next(lock, s, Finish(c)))
  {
    assert TurnOf(s.calls, c);
    hide Linked, InTurn, NoneIdle;
    MoveKeeps(s.calls, c, Done);
    var t := Next(lock, s, Finish(c));
    forall d | 0 <= d < |t.calls| && t.calls[d].key !in t.tails ensures t.calls[d].phase == Done {
      if d != c && s.calls[d].key == s.calls[c].key && s.calls[c].key in s.tails { assert d <= s.tails[s.calls[c].key]; }
    }
    if lock.drops { StillBusy(lock, s, c); }
  }

  /** A tail that stays behind belongs to a later call, which has not started. */
  lemma StillBusy(lock: Lock, s: State, c: nat)
    requires Inv(lock, s) && Enabled(s, Finish(c)) && lock.drops
    ensures NoneIdle(Next(lock, s, Finish(c)))
  {
  }

  lemma InvStep(lock: Lock, s: State, step: Step)
    requires Inv(lock, s) && Enabled(s, step)
    ensures Inv(lock, Next(lock, s, step))
  {
    match step {
      case Arrive(key) => ArriveKeeps(lock, s, key);
      case Start(c) => StartKeeps(lock, s, c);
      case Finish(c) => FinishKeeps(lock, s, c);
    }
  }

  lemma {:induction false} InvRuns(lock: Lock, s: State, steps: seq<Step>, end: State)
    requires Inv(lock, s) && Runs(lock, s, steps, end)
    ensures Inv(lock, end)
    decreases |steps|
  {
    if steps != [] {
      InvStep(lock, s, steps[0]);
      InvRuns(lock, Next(lock, s, steps[0]), steps[1..], end);
    }
  }

  // ---- what the locks promise ----

  /** Never two calls with one key at once, and no call starts before every earlier one with its key has ended. */
  lemma MutualExclusionInOrder(lock: Lock, steps: seq<Step>, s: State, i: nat, j: nat)
    requires Runs(lock, EMPTY, steps, s) && i < j < |s.calls| && s.calls[i].key == s.calls[j].key
    ensures s.calls[j].phase != Waiting ==> s.calls[i].phase == Done
    ensures !(s.calls[i].phase == Running && s.calls[j].phase == Running)
  {
    InvRuns(lock, EMPTY, steps, s);
    assert s.calls[j].phase != Waiting ==> TurnOf(s.calls, j);
  }

  lemma {:induction false} DoneResolves(calls: seq<Call>, c: nat)
    requires Linked(calls) && InTurn(calls) && c < |calls| && calls[c].phase == Done
    ensures Resolved(calls, c)
    decreases c
  {
    if calls[c].prior.Some? {
      assert TurnOf(calls, c);
      DoneResolves(calls, calls[c].prior.value);
    }
  }

  /** No call waits for ever: the first call of a key that is not done is running or may start. */
  lemma NeverStuck(lock: Lock, steps: seq<Step>, s: State, c: nat)
    requires Runs(lock, EMPTY, steps, s) && c < |s.calls| && s.calls[c].phase != Done && TurnOf(s.calls, c)
    ensures Enabled(s, Start(c)) || Enabled(s, Finish(c))
  {
    InvRuns(lock, EMPTY, steps, s);
    if s.calls[c].phase == Waiting && s.calls[c].prior.Some? {
      DoneResolves(s.calls, s.calls[c].prior.value);
    }
  }

  /** The workspace lock has an entry for a key exactly while some call for it is not done. */
  lemma EntryWhileBusy(steps: seq<Step>, s: State, key: Key)
    requires Runs(Lock(true), EMPTY, steps, s)
    ensures key in s.tails <==> exists c: nat :: IsOf(s.calls, c, key) && s.calls[c].phase != Done
  {
    InvRuns(Lock(true), EMPTY, steps, s);
    if key in s.tails { assert IsOf(s.calls, s.tails[key], key); }
  }

  lemma {:induction false} EntriesStay(s: State, steps: seq<Step>, end: State, key: Key)
    requires Runs(Lock(false), s, steps, end) && (forall c | 0 <= c < |s.calls| :: s.calls[c].key in s.tails)
    requires forall k | k in s.tails :: exists c: nat :: IsOf(s.calls, c, k)
    ensures key in end.tails <==> exists c: nat :: IsOf(end.calls, c, key)
    decreases |steps|
  {
    if steps == [] {
      forall c: nat | IsOf(end.calls, c, key) ensures key in end.tails {
      }
    } else {
      var t := Next(Lock(false), s, steps[0]);
      forall k | k in t.tails ensures exists c: nat :: IsOf(t.calls, c, k) {
        if k in s.tails {
          var c: nat :| IsOf(s.calls, c, k);
          assert IsOf(t.calls, c, k);
        } else {
          assert IsOf(t.calls, |s.calls|, k);
        }
      }
      EntriesStay(t, steps[1..], end, key);
    }
  }

  /** The ledger's lock keeps an entry for every key it was ever asked for. */
  lemma EntryForEver(steps: seq<Step>, s: State, key: Key)
    requires Runs(Lock(false), EMPTY, steps, s)
    ensures key in s.tails <==> exists c: nat :: IsOf(s.calls, c, key)
  {
    EntriesStay(EMPTY, steps, s, key);
  }
}
