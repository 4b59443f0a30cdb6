/** Choosing nodes for an app's replicas: greedy, one per failure domain, against a list of reservations that grows. */
module Scheduler {
  import opened Wrappers
  import opened Sorting

  /** CPU shares in thousandths. */
  datatype Amount = Amount(memoryMb: int, milliCpus: int, diskBytes: int)

  datatype Node = Node(nodeId: string, failureDomain: string, active: bool, capacity: Amount)

  datatype Reservation = Reservation(nodeId: string, amount: Amount)

  datatype Code = HaCapacityUnavailable | CapacityUnavailable

  predicate Nonnegative(a: Amount) { a.memoryMb >= 0 && a.milliCpus >= 0 && a.diskBytes >= 0 }

  function Minus(a: Amount, b: Amount): Amount { Amount(a.memoryMb - b.memoryMb, a.milliCpus - b.milliCpus, a.diskBytes - b.diskBytes) }

  predicate AtLeast(a: Amount, b: Amount) { a.memoryMb >= b.memoryMb && a.milliCpus >= b.milliCpus && a.diskBytes >= b.diskBytes }

  /** What a node has left after the reservations made on it. */
  function Remaining(node: Node, reservations: seq<Reservation>): Amount {
    if reservations == [] then node.capacity
    else
      var rest, last := Remaining(node, reservations[..|reservations| - 1]), reservations[|reservations| - 1];
      if last.nodeId == node.nodeId then Minus(rest, last.amount) else rest
  }

  predicate Fits(node: Node, reservations: seq<Reservation>, need: Amount) { AtLeast(Remaining(node, reservations), need) }

  predicate Clashes(node: Node, selected: seq<Node>) {
    exists i :: 0 <= i < |selected| && (selected[i].nodeId == node.nodeId || selected[i].failureDomain == node.failureDomain)
  }

  function IsCandidate(selected: seq<Node>, reservations: seq<Reservation>, need: Amount): Node -> bool {
    (node: Node) => node.active && !Clashes(node, selected) && Fits(node, reservations, need)
  }

  function Candidates(nodes: seq<Node>, selected: seq<Node>, reservations: seq<Reservation>, need: Amount): seq<Node> {
    Filter(IsCandidate(selected, reservations, need), nodes)
  }

  /** More free memory first, then more free disk. */
  function Roomier(reservations: seq<Reservation>): (Node, Node) -> bool {
    (a: Node, b: Node) =>
      var x, y := Remaining(a, reservations), Remaining(b, reservations);
      x.memoryMb > y.memoryMb || (x.memoryMb == y.memoryMb && x.diskBytes > y.diskBytes)
  }

  /** The candidates in the order they are preferred. */
  function Ranked(nodes: seq<Node>, selected: seq<Node>, reservations: seq<Reservation>, need: Amount): seq<Node> {
    Sort(Roomier(reservations), Candidates(nodes, selected, reservations, need))
  }

  /** The nodes picked, starting from `selected`, until there are `replicas` of them or no candidate is left. */
  function Picks(nodes: seq<Node>, selected: seq<Node>, reservations: seq<Reservation>, need: Amount, replicas: nat): seq<Node>
    decreases replicas - |selected|
  {
    if |selected| >= replicas then selected
    else
      var ranked := Ranked(nodes, selected, reservations, need);
      if ranked == [] then selected
      else Picks(nodes, selected + [ranked[0]], reservations + [Reservation(ranked[0].nodeId, need)], need, replicas)
  }

  /** The reservations for the nodes picked, in order. */
  function Booked(picked: seq<Node>, need: Amount): (r: seq<Reservation>)
    ensures |r| == |picked|
  {
    seq(|picked|, i requires 0 <= i < |picked| => Reservation(picked[i].nodeId, need))
  }

  class Plan {
    var reservations: seq<Reservation>

    constructor (reservations: seq<Reservation>)
      ensures this.reservations == reservations
    {
      this.reservations := reservations;
    }

    /** The reservations of the picks stay in the list, also when too few nodes were found. */
    method SelectNodes(nodes: seq<Node>, need: Amount, replicas: nat) returns (r: Result<seq<Node>, Code>)
      modifies this
      ensures var picked := Picks(nodes, [], old(reservations), need, replicas);
              && reservations == old(reservations) + Booked(picked, need)
              && r == if |picked| == replicas then Ok(picked)
                      else Err(if replicas > 1 then HaCapacityUnavailable else CapacityUnavailable)
    {
      var selected: seq<Node> := [];
      assert old(reservations) + Booked([], need) == old(reservations);
      PicksBounded(nodes, [], reservations, need, replicas);
      for index := 0 to replicas
        invariant |selected| == index && reservations == old(reservations) + Booked(selected, need)
        invariant Picks(nodes, selected, reservations, need, replicas) == Picks(nodes, [], old(reservations), need, replicas)
      {
        var ranked := Ranked(nodes, selected, reservations, need);
        if ranked == [] {
          return Err(if replicas > 1 then HaCapacityUnavailable else CapacityUnavailable);
        }
        BookedGrows(old(reservations), selected, ranked[0], need);
        selected := selected + [ranked[0]];
        reservations := reservations + [Reservation(ranked[0].nodeId, need)];
      }
      r := Ok(selected);
    }
  }

  lemma BookedGrows(before: seq<Reservation>, selected: seq<Node>, node: Node, need: Amount)
    ensures before + Booked(selected + [node], need) == (before + Booked(selected, need)) + [Reservation(node.nodeId, need)]
  {
  }

  lemma {:induction false} PicksBounded(nodes: seq<Node>, selected: seq<Node>, reservations: seq<Reservation>, need: Amount, replicas: nat)
    requires |selected| <= replicas
    ensures |selected| <= |Picks(nodes, selected, reservations, need, replicas)| <= replicas
    decreases replicas - |selected|
  {
    var ranked := Ranked(nodes, selected, reservations, need);
    if |selected| < replicas && ranked != [] {
      PicksBounded(nodes, selected + [ranked[0]], reservations + [Reservation(ranked[0].nodeId, need)], need, replicas);
    }
  }

  // ---- which node is taken ----

  lemma RoomierWeak(reservations: seq<Reservation>)
    ensures WeakOrder(Roomier(reservations))
  {
  }

  /** The node taken is a candidate, and none is roomier. */
  lemma TakesRoomiest(nodes: seq<Node>, selected: seq<Node>, reservations: seq<Reservation>, need: Amount)
    ensures Ranked(nodes, selected, reservations, need) == [] <==> Candidates(nodes, selected, reservations, need) == []
    ensures var ranked := Ranked(nodes, selected, reservations, need);
            ranked != [] ==>
              && ranked[0] in nodes && IsCandidate(selected, reservations, need)(ranked[0])
              && forall node | node in nodes && IsCandidate(selected, reservations, need)(node) :: !Roomier(reservations)(node, ranked[0])
  {
    var before, candidates := Roomier(reservations), Candidates(nodes, selected, reservations, need);
    var ranked := Sort(before, candidates);
    RoomierWeak(reservations);
    SortMembers(before, candidates);
    SortSorted(before, candidates);
    if ranked != [] {
      assert ranked[0] in ranked;
      forall node | node in nodes && IsCandidate(selected, reservations, need)(node) ensures !before(node, ranked[0]) {
        assert node in ranked;
        var i :| 0 <= i < |ranked| && ranked[i] == node;
        if i == 0 { assert !before(node, node); }
      }
    }
  }

  // ---- soundness ----

  lemma {:induction false} RemainingShrinks(node: Node, reservations: seq<Reservation>, more: seq<Reservation>)
    requires forall i | 0 <= i < |more| :: Nonnegative(more[i].amount)
    ensures AtLeast(Remaining(node, reservations), Remaining(node, reservations + more))
  {
    if more == [] {
      assert reservations + more == reservations;
    } else {
      var n := |more| - 1;
      RemainingShrinks(node, reservations, more[..n]);
      assert (reservations + more)[..|reservations| + n] == reservations + more[..n];
    }
  }

  lemma {:induction false} RemainingKept(node: Node, reservations: seq<Reservation>, more: seq<Reservation>)
    requires forall i | 0 <= i < |more| :: more[i].nodeId != node.nodeId
    ensures Remaining(node, reservations + more) == Remaining(node, reservations)
  {
    if more == [] {
      assert reservations + more == reservations;
    } else {
      var n := |more| - 1;
      RemainingKept(node, reservations, more[..n]);
      assert (reservations + more)[..|reservations| + n] == reservations + more[..n];
    }
  }

  /** A selection that keeps all the promises: active nodes of the list, no two alike, each fitting at the start. */
  ghost predicate Sound(nodes: seq<Node>, selected: seq<Node>, reservations: seq<Reservation>, need: Amount) {
    && (forall i | 0 <= i < |selected| :: selected[i] in nodes && selected[i].active && Fits(selected[i], reservations, need))
    && (forall i, j | 0 <= i < j < |selected| ::
          selected[i].nodeId != selected[j].nodeId && selected[i].failureDomain != selected[j].failureDomain)
  }

  lemma SoundGrows(nodes: seq<Node>, selected: seq<Node>, reservations: seq<Reservation>, need: Amount, node: Node)
    requires Nonnegative(need) && Sound(nodes, selected, reservations, need)
    requires node in nodes && IsCandidate(selected, reservations + Booked(selected, need), need)(node)
    ensures Sound(nodes, selected + [node], reservations, need)
  {
    RemainingShrinks(node, reservations, Booked(selected, need));
  }

  lemma {:induction false} PicksSound(nodes: seq<Node>, selected: seq<Node>, reservations: seq<Reservation>, need: Amount, replicas: nat)
    requires Nonnegative(need) && Sound(nodes, selected, reservations, need)
    ensures Sound(nodes, Picks(nodes, selected, reservations + Booked(selected, need), need, replicas), reservations, need)
    decreases replicas - |selected|
  {
    var now := reservations + Booked(selected, need);
    var ranked := Ranked(nodes, selected, now, need);
    if |selected| < replicas && ranked != [] {
      TakesRoomiest(nodes, selected, now, need);
      SoundGrows(nodes, selected, reservations, need, ranked[0]);
      BookedGrows(reservations, selected, ranked[0], need);
      PicksSound(nodes, selected + [ranked[0]], reservations, need, replicas);
    }
  }

  // ---- completeness ----

  /** The failure domains in which an active node fits. */
  function FitDomains(nodes: seq<Node>, reservations: seq<Reservation>, need: Amount): set<string> {
    set i | 0 <= i < |nodes| && nodes[i].active && Fits(nodes[i], reservations, need) :: nodes[i].failureDomain
  }

  function Domains(selected: seq<Node>): set<string> { set i | 0 <= i < |selected| :: selected[i].failureDomain }

  ghost predicate UniqueIds(nodes: seq<Node>) {
    forall i, j | 0 <= i < |nodes| && 0 <= j < |nodes| && nodes[i].nodeId == nodes[j].nodeId :: nodes[i] == nodes[j]
  }

  lemma {:induction false} DomainsCount(selected: seq<Node>)
    requires forall i, j | 0 <= i < j < |selected| :: selected[i].failureDomain != selected[j].failureDomain
    ensures |Domains(selected)| == |selected|
  {
    if selected != [] {
      var n := |selected| - 1;
      DomainsCount(selected[..n]);
      DomainsSnoc(selected);
      forall i | 0 <= i < n ensures selected[..n][i].failureDomain != selected[n].failureDomain {
      }
      assert selected[n].failureDomain !in Domains(selected[..n]);
    }
  }

  lemma DomainsSnoc(selected: seq<Node>)
    requires selected != []
    ensures Domains(selected) == Domains(selected[..|selected| - 1]) + {selected[|selected| - 1].failureDomain}
  {
    var n := |selected| - 1;
    forall d | d in Domains(selected[..n]) ensures d in Domains(selected) {
      var i :| 0 <= i < n && selected[..n][i].failureDomain == d;
      assert selected[i].failureDomain == d;
    }
    forall d | d in Domains(selected) && d != selected[n].failureDomain ensures d in Domains(selected[..n]) {
      var i :| 0 <= i < |selected| && selected[i].failureDomain == d;
      assert selected[..n][i].failureDomain == d;
    }
  }

  lemma DomainsFit(nodes: seq<Node>, selected: seq<Node>, reservations: seq<Reservation>, need: Amount)
    requires Sound(nodes, selected, reservations, need)
    ensures Domains(selected) <= FitDomains(nodes, reservations, need)
  {
    forall d | d in Domains(selected) ensures d in FitDomains(nodes, reservations, need) {
      var i :| 0 <= i < |selected| && selected[i].failureDomain == d;
      var k :| 0 <= k < |nodes| && nodes[k] == selected[i];
    }
  }

  /** A fitting node in a domain not yet taken is still a candidate: nothing was reserved on it. */
  lemma StillCandidate(nodes: seq<Node>, selected: seq<Node>, reservations: seq<Reservation>, need: Amount, node: Node)
    requires UniqueIds(nodes) && Sound(nodes, selected, reservations, need)
    requires node in nodes && node.active && Fits(node, reservations, need) && node.failureDomain !in Domains(selected)
    ensures IsCandidate(selected, reservations + Booked(selected, need), need)(node)
  {
    forall i | 0 <= i < |selected| ensures selected[i].nodeId != node.nodeId && selected[i].failureDomain != node.failureDomain {
      assert selected[i].failureDomain in Domains(selected);
      assert selected[i] in nodes;
    }
    RemainingKept(node, reservations, Booked(selected, need));
  }

  lemma CandidateThere(nodes: seq<Node>, selected: seq<Node>, reservations: seq<Reservation>, need: Amount, node: Node)
    requires UniqueIds(nodes) && Sound(nodes, selected, reservations, need)
    requires node in nodes && node.active && Fits(node, reservations, need)
    ensures node.failureDomain !in Domains(selected) ==> node in Candidates(nodes, selected, reservations + Booked(selected, need), need)
  {
    if node.failureDomain !in Domains(selected) { StillCandidate(nodes, selected, reservations, need, node); }
  }

  lemma NoneLeft(nodes: seq<Node>, selected: seq<Node>, reservations: seq<Reservation>, need: Amount)
    requires UniqueIds(nodes) && Sound(nodes, selected, reservations, need)
    requires Candidates(nodes, selected, reservations + Booked(selected, need), need) == []
    ensures FitDomains(nodes, reservations, need) == Domains(selected)
  {
    DomainsFit(nodes, selected, reservations, need);
    forall d | d in FitDomains(nodes, reservations, need) ensures d in Domains(selected) {
      var k :| 0 <= k < |nodes| && nodes[k].active && Fits(nodes[k], reservations, need) && nodes[k].failureDomain == d;
      CandidateThere(nodes, selected, reservations, need, nodes[k]);
    }
  }

  lemma SetsGrow<T>(a: set<T>, b: set<T>)
    requires a <= b
    ensures |a| <= |b|
  {
    assert b == a + (b - a);
  }

  /** As many nodes are picked as are asked for or as there are fitting failure domains, whichever is fewer. */
  lemma {:induction false} PicksComplete(nodes: seq<Node>, selected: seq<Node>, reservations: seq<Reservation>, need: Amount, replicas: nat)
    requires Nonnegative(need) && UniqueIds(nodes) && Sound(nodes, selected, reservations, need) && |selected| <= replicas
    ensures var picked, domains := Picks(nodes, selected, reservations + Booked(selected, need), need, replicas), |FitDomains(nodes, reservations, need)|;
            |picked| == if domains < replicas then domains else replicas
    decreases replicas - |selected|
  {
    var now := reservations + Booked(selected, need);
    DomainsCount(selected);
    DomainsFit(nodes, selected, reservations, need);
    SetsGrow(Domains(selected), FitDomains(nodes, reservations, need));
    TakesRoomiest(nodes, selected, now, need);
    var ranked := Ranked(nodes, selected, now, need);
    if |selected| < replicas {
      if ranked == [] {
        NoneLeft(nodes, selected, reservations, need);
      } else {
        SoundGrows(nodes, selected, reservations, need, ranked[0]);
        BookedGrows(reservations, selected, ranked[0], need);
        PicksComplete(nodes, selected + [ranked[0]], reservations, need, replicas);
      }
    }
  }

  /** Selection is sound, and with unique node ids it fails exactly when too few failure domains have a fitting node. */
  lemma SelectionMeans(nodes: seq<Node>, reservations: seq<Reservation>, need: Amount, replicas: nat)
    requires Nonnegative(need)
    ensures Sound(nodes, Picks(nodes, [], reservations, need, replicas), reservations, need)
    ensures UniqueIds(nodes) ==>
              (|Picks(nodes, [], reservations, need, replicas)| != replicas <==> |FitDomains(nodes, reservations, need)| < replicas)
  {
    assert reservations + Booked([], need) == reservations;
    PicksSound(nodes, [], reservations, need, replicas);
    if UniqueIds(nodes) { PicksComplete(nodes, [], reservations, need, replicas); }
  }

  /** Of reservations on different nodes, a node bears its own only. */
  lemma OwnReservationOnly(node: Node, reservations: seq<Reservation>, before: seq<Reservation>, own: Reservation, after: seq<Reservation>)
    requires own.nodeId == node.nodeId
    requires forall k | 0 <= k < |before| :: before[k].nodeId != node.nodeId
    requires forall k | 0 <= k < |after| :: after[k].nodeId != node.nodeId
    ensures Remaining(node, reservations + before + [own] + after) == Minus(Remaining(node, reservations), own.amount)
  {
    var upTo := reservations + before + [own];
    RemainingKept(node, reservations, before);
    assert upTo[..|upTo| - 1] == reservations + before;
    RemainingKept(node, upTo, after);
  }

  /** After a selection no picked node is overbooked. */
  lemma NothingOverbooked(nodes: seq<Node>, reservations: seq<Reservation>, need: Amount, replicas: nat, i: nat)
    requires Nonnegative(need) && i < |Picks(nodes, [], reservations, need, replicas)|
    ensures var picked := Picks(nodes, [], reservations, need, replicas);
            Nonnegative(Remaining(picked[i], reservations + Booked(picked, need)))
  {
    var picked := Picks(nodes, [], reservations, need, replicas);
    SelectionMeans(nodes, reservations, need, replicas);
    BookedOnce(nodes, picked, reservations, need, i);
  }

  lemma BookedOnce(nodes: seq<Node>, picked: seq<Node>, reservations: seq<Reservation>, need: Amount, i: nat)
    requires Sound(nodes, picked, reservations, need) && i < |picked|
    ensures Nonnegative(Remaining(picked[i], reservations + Booked(picked, need)))
  {
    var all := Booked(picked, need);
    assert reservations + all == reservations + all[..i] + [all[i]] + all[i + 1..];
    OwnReservationOnly(picked[i], reservations, all[..i], all[i], all[i + 1..]);
  }
}
