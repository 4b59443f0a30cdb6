/**
 * The canonical form of a runtime's resource list, the inventory hash over it, and the two ways an inventory is
 * finalized: at install, and by recovery from what the replicas have reported.
 */
module ResourceInventory {
  import opened Wrappers
  import opened Sorting

  datatype Kind = Replica | Container | Volume | BrokerBinding | BrokerSocket | ServiceDiscovery | Ingress

  datatype Resource = Resource(kind: Kind, id: string, nodeId: Option<string>, replicaId: Option<string>, attributes: map<string, string>)

  datatype Identity = Identity(kind: Kind, id: string)

  datatype Error =
    | IdentityDuplicate
    | NotFinalizable
    | InventoryEmpty
    | FinalizationConflict
    | NodeIdentityMissing

  datatype State = Capturing | Ready | Compacted | MigrationReviewRequired

  datatype Inventory = Inventory(state: State, affinity: string, hash: Option<string>, resources: seq<Resource>)

  /** The order of the sort keys, and the digest of an affinity with a canonical list. */
  datatype Canon = Canon(less: (Resource, Resource) -> bool, digest: (string, seq<Resource>) -> string)

  /** Different resources have different keys, and different lists have different digests. */
  ghost predicate Faithful(canon: Canon) {
    && StrictOrder(canon.less) && (forall x, y :: x != y ==> canon.less(x, y) || canon.less(y, x))
    && (forall a, s, b, t :: canon.digest(a, s) == canon.digest(b, t) ==> a == b && s == t)
  }

  function IdentityOf(r: Resource): Identity { Identity(r.kind, r.id) }

  predicate NoDuplicate(rs: seq<Resource>) { forall i, j | 0 <= i < j < |rs| :: IdentityOf(rs[i]) != IdentityOf(rs[j]) }

  function Normalize(canon: Canon, rs: seq<Resource>): Result<seq<Resource>, Error> {
    if NoDuplicate(rs) then Ok(Sort(canon.less, rs)) else Err(IdentityDuplicate)
  }

  method NormalizeResources(canon: Canon, rs: seq<Resource>) returns (r: Result<seq<Resource>, Error>)
    ensures r == Normalize(canon, rs)
  {
    var identities: set<Identity> := {};
    for n := 0 to |rs|
      invariant NoDuplicate(rs[..n])
      invariant forall i | 0 <= i < n :: IdentityOf(rs[i]) in identities
      invariant forall identity | identity in identities :: exists i :: 0 <= i < n && IdentityOf(rs[i]) == identity
    {
      if IdentityOf(rs[n]) in identities {
        return Err(IdentityDuplicate);
      }
      identities := identities + {IdentityOf(rs[n])};
      assert rs[..n + 1] == rs[..n] + [rs[n]];
    }
    assert rs[..|rs|] == rs;
    r := Ok(Sort(canon.less, rs));
  }

  // ---- the canonical list ----

  predicate SameResources(rs: seq<Resource>, ss: seq<Resource>) { (forall x | x in rs :: x in ss) && (forall x | x in ss :: x in rs) }

  lemma Separate(canon: Canon, rs: seq<Resource>)
    requires Faithful(canon) && NoDuplicate(rs)
    ensures Separated(canon.less, rs)
  {
    forall i, j | 0 <= i < j < |rs| ensures canon.less(rs[i], rs[j]) || canon.less(rs[j], rs[i]) {
      assert IdentityOf(rs[i]) != IdentityOf(rs[j]);
    }
  }

  /** The canonical list has the resources given, no identity twice, in key order. */
  lemma NormalizedIs(canon: Canon, rs: seq<Resource>)
    requires Faithful(canon) && NoDuplicate(rs)
    ensures var s := Sort(canon.less, rs); SameResources(s, rs) && NoDuplicate(s) && Ascending(canon.less, s)
  {
    var s := Sort(canon.less, rs);
    Separate(canon, rs);
    SortAscending(canon.less, rs);
    SortMembers(canon.less, rs);
    forall i, j | 0 <= i < j < |s| ensures IdentityOf(s[i]) != IdentityOf(s[j]) {
      assert canon.less(s[i], s[j]) && s[i] != s[j];
      assert s[i] in s && s[j] in s;
      DifferentIdentities(rs, s[i], s[j]);
    }
  }

  lemma DifferentIdentities(rs: seq<Resource>, x: Resource, y: Resource)
    requires NoDuplicate(rs) && x in rs && y in rs && x != y
    ensures IdentityOf(x) != IdentityOf(y)
  {
    var i :| 0 <= i < |rs| && rs[i] == x;
    var j :| 0 <= j < |rs| && rs[j] == y;
    if i < j { assert IdentityOf(rs[i]) != IdentityOf(rs[j]); } else { assert IdentityOf(rs[j]) != IdentityOf(rs[i]); }
  }

  /** Normalizing a canonical list changes nothing. */
  lemma Idempotent(canon: Canon, rs: seq<Resource>)
    requires Faithful(canon) && Normalize(canon, rs).Ok?
    ensures Normalize(canon, Normalize(canon, rs).value) == Normalize(canon, rs)
  {
    var s := Sort(canon.less, rs);
    NormalizedIs(canon, rs);
    Separate(canon, rs);
    Separate(canon, s);
    SortUnique(canon.less, s, rs);
  }

  /** Lists without duplicates have one canonical form exactly when they hold the same resources. */
  lemma CanonicalMeans(canon: Canon, rs: seq<Resource>, ss: seq<Resource>)
    requires Faithful(canon) && NoDuplicate(rs) && NoDuplicate(ss)
    ensures Sort(canon.less, rs) == Sort(canon.less, ss) <==> SameResources(rs, ss)
  {
    SortMembers(canon.less, rs);
    SortMembers(canon.less, ss);
    if SameResources(rs, ss) {
      Separate(canon, rs);
      Separate(canon, ss);
      SortUnique(canon.less, rs, ss);
    }
    if Sort(canon.less, rs) == Sort(canon.less, ss) {
      forall x ensures x in rs <==> x in ss {
        assert x in Sort(canon.less, rs) <==> x in rs;
      }
    }
  }

  lemma {:induction false} TwiceIn(rs: seq<Resource>, x: Resource)
    requires multiset(rs)[x] >= 2
    ensures !NoDuplicate(rs)
  {
    var n := |rs| - 1;
    assert rs == rs[..n] + [rs[n]];
    if rs[n] == x {
      assert multiset(rs[..n])[x] >= 1;
      assert x in rs[..n];
      var i :| 0 <= i < n && rs[..n][i] == x;
      assert rs[i] == rs[n];
    } else {
      assert multiset(rs[..n])[x] >= 2;
      TwiceIn(rs[..n], x);
      assert !NoDuplicate(rs[..n]);
      var i, j :| 0 <= i < j < n && IdentityOf(rs[..n][i]) == IdentityOf(rs[..n][j]);
      assert IdentityOf(rs[i]) == IdentityOf(rs[j]);
    }
  }

  lemma {:induction false} CopiesCount(rs: seq<Resource>, i: nat, j: nat)
    requires i < j < |rs| && rs[i] == rs[j]
    ensures multiset(rs)[rs[i]] >= 2
  {
    assert rs == rs[..j] + rs[j..];
    assert rs[..j][i] in multiset(rs[..j]);
    assert rs[j..][0] in multiset(rs[j..]);
  }

  lemma DuplicateMoves(rs: seq<Resource>, ss: seq<Resource>)
    requires multiset(rs) == multiset(ss) && NoDuplicate(ss)
    ensures NoDuplicate(rs)
  {
    forall i, j | 0 <= i < j < |rs| ensures IdentityOf(rs[i]) != IdentityOf(rs[j]) {
      assert rs[i] in multiset(rs) && rs[j] in multiset(rs);
      assert rs[i] in multiset(ss) && rs[j] in multiset(ss);
      NotCopies(rs, ss, i, j);
      DifferentIdentities(ss, rs[i], rs[j]);
    }
  }

  lemma NotCopies(rs: seq<Resource>, ss: seq<Resource>, i: nat, j: nat)
    requires multiset(rs) == multiset(ss) && NoDuplicate(ss) && i < j < |rs|
    ensures rs[i] != rs[j]
  {
    if rs[i] == rs[j] {
      CopiesCount(rs, i, j);
      TwiceIn(ss, rs[i]);
      assert false;
    }
  }

  /** The order in which resources are reported makes no difference, to the list or to the refusal. */
  lemma OrderIndependent(canon: Canon, rs: seq<Resource>, ss: seq<Resource>)
    requires Faithful(canon) && multiset(rs) == multiset(ss)
    ensures Normalize(canon, rs) == Normalize(canon, ss)
  {
    if NoDuplicate(rs) { DuplicateMoves(ss, rs); }
    if NoDuplicate(ss) { DuplicateMoves(rs, ss); }
    if NoDuplicate(rs) {
      forall x ensures x in rs <==> x in ss {
        assert x in multiset(rs) <==> x in multiset(ss);
      }
      CanonicalMeans(canon, rs, ss);
    }
  }

  // ---- hashing and finalizing ----

  function Hash(canon: Canon, affinity: string, rs: seq<Resource>): Result<string, Error> {
    var s := Normalize(canon, rs);
    if s.Err? then Err(s.error) else Ok(canon.digest(affinity, s.value))
  }

  /** Two inventories have one hash exactly when they belong together and list the same resources. */
  lemma HashMeans(canon: Canon, a: string, rs: seq<Resource>, b: string, ss: seq<Resource>)
    requires Faithful(canon) && Hash(canon, a, rs).Ok? && Hash(canon, b, ss).Ok?
    ensures Hash(canon, a, rs) == Hash(canon, b, ss) <==> a == b && SameResources(rs, ss)
  {
    CanonicalMeans(canon, rs, ss);
  }

  function Finalize(canon: Canon, inventory: Inventory, rs: seq<Resource>): Result<Inventory, Error> {
    if inventory.state != Capturing && inventory.state != Ready then Err(NotFinalizable)
    else
      var s := Normalize(canon, rs);
      if s.Err? then Err(s.error)
      else if s.value == [] then Err(InventoryEmpty)
      else
        var hash := Hash(canon, inventory.affinity, s.value);
        if hash.Err? then Err(hash.error)
        else if inventory.state == Ready && (inventory.hash != Some(hash.value) || inventory.resources != s.value) then Err(FinalizationConflict)
        else Ok(Inventory(Ready, inventory.affinity, Some(hash.value), s.value))
  }

  /** An inventory that a finalization left. */
  ghost predicate Finalized(canon: Canon, inventory: Inventory) {
    && inventory.state == Ready && inventory.resources != [] && Normalize(canon, inventory.resources) == Ok(inventory.resources)
    && inventory.hash == Some(canon.digest(inventory.affinity, inventory.resources))
  }

  /** Finalizing captures exactly the resources given; it fails exactly on a duplicate identity or an empty list. */
  lemma FinalizeCapturing(canon: Canon, inventory: Inventory, rs: seq<Resource>)
    requires Faithful(canon) && inventory.state == Capturing
    ensures Finalize(canon, inventory, rs).Ok? <==> NoDuplicate(rs) && rs != []
    ensures Finalize(canon, inventory, rs).Ok? ==>
              var r := Finalize(canon, inventory, rs).value;
              Finalized(canon, r) && r.affinity == inventory.affinity && SameResources(r.resources, rs)
  {
    if NoDuplicate(rs) {
      NormalizedIs(canon, rs);
      Idempotent(canon, rs);
    }
  }

  lemma NotEmpty(rs: seq<Resource>, ss: seq<Resource>)
    requires SameResources(rs, ss) && ss != []
    ensures rs != []
  {
    assert ss[0] in ss;
  }

  /** A ready inventory finalizes again exactly for the resources it has, and then does not change. */
  lemma FinalizeReady(canon: Canon, inventory: Inventory, rs: seq<Resource>)
    requires Faithful(canon) && Finalized(canon, inventory)
    ensures Finalize(canon, inventory, rs).Ok? <==> NoDuplicate(rs) && SameResources(rs, inventory.resources)
    ensures Finalize(canon, inventory, rs).Ok? ==> Finalize(canon, inventory, rs).value == inventory
  {
    if NoDuplicate(rs) {
      NormalizedIs(canon, rs);
      Idempotent(canon, rs);
      CanonicalMeans(canon, rs, inventory.resources);
      if SameResources(rs, inventory.resources) { NotEmpty(rs, inventory.resources); }
    }
  }

  // ---- install and recovery ----

  datatype Plan = Plan(replicaId: string, containerId: string, nodeId: string, identityKid: Option<string>)

  function AddToSet(rs: seq<Resource>, r: Resource): seq<Resource> { if r in rs then rs else rs + [r] }

  /** The list the install finalizes: what was captured, and the ingress if the app has a host. */
  function Installed(captured: seq<Resource>, ingress: Option<Resource>): seq<Resource> {
    if ingress.None? then captured else AddToSet(captured, ingress.value)
  }

  function Identities(rs: seq<Resource>): set<Identity> { set i | 0 <= i < |rs| :: IdentityOf(rs[i]) }

  function Planned(plan: Plan, kid: string): seq<Resource> {
    [Resource(Replica, plan.replicaId, Some(plan.nodeId), Some(plan.replicaId), map["nodeIdentityKid" := kid]),
     Resource(Container, plan.containerId, Some(plan.nodeId), Some(plan.replicaId), map["nodeIdentityKid" := kid])]
  }

  function Missing(present: set<Identity>): Resource -> bool { (r: Resource) => IdentityOf(r) !in present }

  /** What recovery adds for the plans from one on: what was planned and not reported. */
  function Additions(present: set<Identity>, plans: seq<Plan>): Result<seq<Resource>, Error> {
    if plans == [] then Ok([])
    else
      var init, last := Additions(present, plans[..|plans| - 1]), plans[|plans| - 1];
      if init.Err? then init
      else if last.identityKid.None? then Err(NodeIdentityMissing)
      else Ok(init.value + Filter(Missing(present), Planned(last, last.identityKid.value)))
  }

  /** The list recovery finalizes. */
  function Recovered(captured: seq<Resource>, plans: seq<Plan>, ingress: Option<Resource>): Result<seq<Resource>, Error> {
    var present := Identities(captured);
    var additions := Additions(present, plans);
    if additions.Err? then additions
    else Ok(captured + additions.value + if ingress.Some? then Filter(Missing(present), [ingress.value]) else [])
  }

  lemma FilterOne(p: Resource -> bool, x: Resource)
    ensures Filter(p, [x]) == if p(x) then [x] else []
  {
    assert [x][1..] == [];
  }

  lemma FilterTwo(p: Resource -> bool, x: Resource, y: Resource)
    ensures Filter(p, [x, y]) == (if p(x) then [x] else []) + (if p(y) then [y] else [])
  {
    assert [x, y] == [x] + [y];
    FilterAppend(p, [x], [y]);
    FilterOne(p, x);
    FilterOne(p, y);
  }

  /** Adds what one plan names and nobody reported. */
  method AddPlanned(present: set<Identity>, plan: Plan, kid: string, additions: seq<Resource>) returns (more: seq<Resource>)
    ensures more == additions + Filter(Missing(present), Planned(plan, kid))
  {
    more := additions;
    var all := Planned(plan, kid);
    FilterTwo(Missing(present), all[0], all[1]);
    assert all == [all[0], all[1]];
    if IdentityOf(all[0]) !in present { more := more + [all[0]]; }
    if IdentityOf(all[1]) !in present { more := more + [all[1]]; }
  }

  method RecoverResources(captured: seq<Resource>, plans: seq<Plan>, ingress: Option<Resource>) returns (r: Result<seq<Resource>, Error>)
    ensures r == Recovered(captured, plans, ingress)
  {
    var present := Identities(captured);
    var additions: seq<Resource> := [];
    for n := 0 to |plans|
      invariant Additions(present, plans[..n]) == Ok(additions)
      invariant Additions(present, plans[..n]).Err? ==> Additions(present, plans).Err?
    {
      assert plans[..n + 1][..n] == plans[..n];
      if plans[n].identityKid.None? {
        MissingKid(present, plans, n);
        return Err(NodeIdentityMissing);
      }
      additions := AddPlanned(present, plans[n], plans[n].identityKid.value, additions);
    }
    assert plans[..|plans|] == plans;
    assert captured + additions + [] == captured + additions;
    if ingress.Some? {
      FilterOne(Missing(present), ingress.value);
      assert captured + (additions + [ingress.value]) == captured + additions + [ingress.value];
      if IdentityOf(ingress.value) !in present { additions := additions + [ingress.value]; }
    }
    r := Ok(captured + additions);
  }

  /** A plan whose node has no identity stops recovery, wherever it stands. */
  lemma {:induction false} MissingKid(present: set<Identity>, plans: seq<Plan>, n: nat)
    requires n < |plans| && plans[n].identityKid.None?
    ensures Additions(present, plans) == Err(NodeIdentityMissing)
  {
    var m := |plans| - 1;
    if n < m {
      MissingKid(present, plans[..m], n);
    } else {
      OnlyOneError(present, plans[..m]);
    }
  }

  lemma {:induction false} OnlyOneError(present: set<Identity>, plans: seq<Plan>)
    ensures Additions(present, plans).Err? ==> Additions(present, plans) == Err(NodeIdentityMissing)
  {
    if plans != [] { OnlyOneError(present, plans[..|plans| - 1]); }
  }

  /** Every planned replica and container is among what was captured, and every node has its identity. */
  ghost predicate AllReported(captured: seq<Resource>, plans: seq<Plan>) {
    forall p | 0 <= p < |plans| ::
      && plans[p].identityKid.Some?
      && Identity(Replica, plans[p].replicaId) in Identities(captured) && Identity(Container, plans[p].containerId) in Identities(captured)
  }

  lemma {:induction false} NothingToAdd(captured: seq<Resource>, plans: seq<Plan>)
    requires AllReported(captured, plans)
    ensures Additions(Identities(captured), plans) == Ok([])
  {
    if plans != [] {
      var m := |plans| - 1;
      NothingToAdd(captured, plans[..m]);
      var all := Planned(plans[m], plans[m].identityKid.value);
      FilterTwo(Missing(Identities(captured)), all[0], all[1]);
      assert all == [all[0], all[1]];
    }
  }

  /** The captured list names the ingress's identity with another description. */
  ghost predicate IngressDiffers(captured: seq<Resource>, ingress: Option<Resource>) {
    ingress.Some? && IdentityOf(ingress.value) in Identities(captured) && ingress.value !in captured
  }

  lemma SameList(captured: seq<Resource>, plans: seq<Plan>, ingress: Option<Resource>)
    requires AllReported(captured, plans) && !IngressDiffers(captured, ingress)
    ensures Recovered(captured, plans, ingress) == Ok(Installed(captured, ingress))
  {
    NothingToAdd(captured, plans);
    if ingress.Some? {
      FilterOne(Missing(Identities(captured)), ingress.value);
      if ingress.value in captured {
        var i :| 0 <= i < |captured| && captured[i] == ingress.value;
        assert IdentityOf(captured[i]) in Identities(captured);
      }
      assert captured + [] + [ingress.value] == captured + [ingress.value];
    }
    assert captured + [] + [] == captured;
  }

  lemma OneTooMany(captured: seq<Resource>, ingress: Resource)
    requires IdentityOf(ingress) in Identities(captured) && ingress !in captured
    ensures !NoDuplicate(Installed(captured, Some(ingress)))
  {
    var i :| 0 <= i < |captured| && IdentityOf(captured[i]) == IdentityOf(ingress);
    var all := captured + [ingress];
    assert IdentityOf(all[i]) == IdentityOf(all[|captured|]);
  }

  /**
   * Once every planned replica has reported, recovery finalizes to the install path's inventory or fails as it
   * does, except when the captured list already holds the ingress's identity with another description: then
   * the install refuses the duplicate, and recovery takes the description it finds.
   */
  lemma RecoveryMatchesInstall(canon: Canon, inventory: Inventory, captured: seq<Resource>, plans: seq<Plan>, ingress: Option<Resource>)
    requires Faithful(canon) && inventory.state == Capturing && NoDuplicate(captured) && AllReported(captured, plans)
    ensures Recovered(captured, plans, ingress).Ok?
    ensures Finalize(canon, inventory, Recovered(captured, plans, ingress).value) == Finalize(canon, inventory, Installed(captured, ingress))
       <==> !IngressDiffers(captured, ingress)
  {
    NothingToAdd(captured, plans);
    if IngressDiffers(captured, ingress) {
      OneTooMany(captured, ingress.value);
      FilterOne(Missing(Identities(captured)), ingress.value);
      assert captured + [] + [] == captured;
      assert captured != [];
      FinalizeCapturing(canon, inventory, captured);
    } else {
      SameList(captured, plans, ingress);
    }
  }
}
