/**
 * What a publish pass sends: the routing snapshot derived from the three collections it reads,
 * the per-node tables derived from the snapshot, and the agent that stores a pushed table.
 */
module HostTables {
  import opened Wrappers

  datatype AppState = Running | Quarantined | Stopped | Unrouted

  datatype Replica = Replica(nodeId: string, containerId: string)

  datatype App = App(appId: string, workspaceId: string, state: AppState, replicas: seq<Replica>, subdomain: string)

  datatype Role = NoRole | Runtime | Ingress | Both

  /** `meshIp` and `signingKid` are empty when the source has no value for them. */
  datatype Node = Node(nodeId: string, active: bool, role: Role, meshIp: string, signingKid: string)

  datatype HostState = Pending | Active | Suspended | WsSuspended | Released

  datatype HostRow = HostRow(host: string, appId: string, state: HostState)

  datatype Db = Db(apps: seq<App>, nodes: seq<Node>, hosts: seq<HostRow>)

  datatype Rule = Rule(host: string, appId: string, workspaceId: string, nodes: seq<string>, suspended: bool)

  datatype SigningKey = SigningKey(nodeId: string, kid: string)

  datatype Snapshot = Snapshot(apps: seq<App>, runtimeNodes: seq<Node>, ingressNodes: seq<Node>, rules: seq<Rule>, signingKeys: seq<SigningKey>)

  datatype RuntimeEntry = RuntimeEntry(appId: string, workspaceId: string, containerId: string, hosts: seq<string>)

  const BASE_DOMAIN: string := "privos.link"

  // ---- the three queries ----

  function RoutedApps(apps: seq<App>): seq<App> { Filter((a: App) => !a.state.Unrouted?, apps) }

  function ActiveNodes(nodes: seq<Node>): seq<Node> { Filter((n: Node) => n.active, nodes) }

  function LiveHosts(hosts: seq<HostRow>): seq<HostRow> { Filter((h: HostRow) => !h.state.Released?, hosts) }

  function RuntimeNodes(nodes: seq<Node>): seq<Node> {
    Filter((n: Node) => n.role != Ingress, ActiveNodes(nodes))
  }

  function IngressNodes(nodes: seq<Node>): seq<Node> {
    Filter((n: Node) => n.role == Ingress || n.role == Both, ActiveNodes(nodes))
  }

  // ---- the ingress rules ----

  /** The first node with this id, as `Array.find` returns it. */
  function FindNode(nodes: seq<Node>, id: string): (r: Option<Node>)
    ensures r.Some? ==> r.value in nodes && r.value.nodeId == id
    ensures r.None? ==> forall n <- nodes :: n.nodeId != id
  {
    if nodes == [] then None
    else if nodes[0].nodeId == id then Some(nodes[0])
    else FindNode(nodes[1..], id)
  }

  /** Mesh addresses of the nodes that host `replicas`: first occurrences only, missing addresses dropped. */
  function MeshIps(replicas: seq<Replica>, nodes: seq<Node>): (r: seq<string>)
    ensures forall ip :: ip in r <==> ip != "" && exists replica <- replicas :: FindNode(nodes, replica.nodeId).Some? && FindNode(nodes, replica.nodeId).value.meshIp == ip
  {
    if replicas == [] then []
    else
      var init := |replicas| - 1;
      var before := MeshIps(replicas[..init], nodes);
      assert replicas == replicas[..init] + [replicas[init]];
      var found := FindNode(nodes, replicas[init].nodeId);
      if found.Some? && found.value.meshIp != "" && found.value.meshIp !in before
      then before + [found.value.meshIp]
      else before
  }

  function HostRule(row: HostRow, app: App, ips: seq<string>): Rule {
    Rule(row.host, app.appId, app.workspaceId, ips,
         app.state != Running || row.state == WsSuspended || row.state == Suspended)
  }

  function HostRules(rows: seq<HostRow>, app: App, ips: seq<string>): (r: seq<Rule>)
    ensures forall rule <- r :: rule.appId == app.appId && rule.nodes == ips
  {
    if rows == [] then [] else [HostRule(rows[0], app, ips)] + HostRules(rows[1..], app, ips)
  }

  function RowsOf(hosts: seq<HostRow>, appId: string): seq<HostRow> {
    Filter((h: HostRow) => h.appId == appId, hosts)
  }

  /** One app's rules: one for each registry row, or the legacy label when it has no row. */
  function AppRules(app: App, nodes: seq<Node>, hosts: seq<HostRow>): (r: seq<Rule>)
    ensures forall rule <- r :: rule.appId == app.appId && rule.nodes == MeshIps(app.replicas, nodes)
  {
    var ips := MeshIps(app.replicas, nodes);
    var rows := RowsOf(hosts, app.appId);
    if |rows| > 0 then HostRules(rows, app, ips)
    else if app.subdomain != "" then
      [Rule(app.subdomain + "." + BASE_DOMAIN, app.appId, app.workspaceId, ips, app.state != Running)]
    else []
  }

  function RulesFor(apps: seq<App>, nodes: seq<Node>, hosts: seq<HostRow>): (r: seq<Rule>)
    ensures forall rule :: rule in r <==> exists app <- apps :: rule in AppRules(app, nodes, hosts)
  {
    if apps == [] then []
    else
      var last := |apps| - 1;
      assert apps == apps[..last] + [apps[last]];
      RulesFor(apps[..last], nodes, hosts) + AppRules(apps[last], nodes, hosts)
  }

  function KeysOf(nodes: seq<Node>): seq<SigningKey> {
    if nodes == [] then []
    else (if nodes[0].signingKid != "" then [SigningKey(nodes[0].nodeId, nodes[0].signingKid)] else []) + KeysOf(nodes[1..])
  }

  function SnapshotOf(apps: seq<App>, nodes: seq<Node>, hosts: seq<HostRow>): Snapshot {
    var runtime := RuntimeNodes(nodes);
    Snapshot(RoutedApps(apps), runtime, IngressNodes(nodes),
             RulesFor(RoutedApps(apps), runtime, LiveHosts(hosts)), KeysOf(IngressNodes(nodes)))
  }

  /** The rule-building loop of a pass. */
  method BuildRules(apps: seq<App>, nodes: seq<Node>, hosts: seq<HostRow>) returns (rules: seq<Rule>)
    ensures rules == RulesFor(apps, nodes, hosts)
  {
    rules := [];
    for i := 0 to |apps|
      invariant rules == RulesFor(apps[..i], nodes, hosts)
    {
      assert apps[..i + 1][..i] == apps[..i];
      var app := apps[i];
      var ips := MeshIps(app.replicas, nodes);
      var rows := RowsOf(hosts, app.appId);
      if |rows| > 0 {
        var before := rules;
        for j := 0 to |rows|
          invariant rules + HostRules(rows[j..], app, ips) == before + HostRules(rows, app, ips)
        {
          assert rows[j..][1..] == rows[j + 1..];
          rules := rules + [HostRule(rows[j], app, ips)];
        }
      } else if app.subdomain != "" {
        rules := rules + [Rule(app.subdomain + "." + BASE_DOMAIN, app.appId, app.workspaceId, ips, app.state != Running)];
      }
    }
    assert apps[..|apps|] == apps;
  }

  // ---- the runtime table of one node ----

  /** Every host the rules route to `appId`, in rule order. */
  function HostsOf(rules: seq<Rule>, appId: string): (r: seq<string>)
    ensures forall h :: h in r <==> exists rule <- rules :: rule.appId == appId && rule.host == h
  {
    if rules == [] then []
    else
      var rest := HostsOf(rules[1..], appId);
      assert rules == [rules[0]] + rules[1..];
      if rules[0].appId == appId then [rules[0].host] + rest else rest
  }

  function EntriesOn(app: App, replicas: seq<Replica>, nodeId: string, hosts: seq<string>): seq<RuntimeEntry> {
    if replicas == [] then []
    else if replicas[0].nodeId == nodeId then
      [RuntimeEntry(app.appId, app.workspaceId, replicas[0].containerId, hosts)] + EntriesOn(app, replicas[1..], nodeId, hosts)
    else EntriesOn(app, replicas[1..], nodeId, hosts)
  }

  lemma {:induction false} EntriesOnMeaning(app: App, replicas: seq<Replica>, nodeId: string, hosts: seq<string>)
    ensures forall e <- EntriesOn(app, replicas, nodeId, hosts) :: e.appId == app.appId && e.hosts == hosts
    ensures |EntriesOn(app, replicas, nodeId, hosts)| > 0 <==> exists replica <- replicas :: replica.nodeId == nodeId
  {
    if replicas != [] {
      EntriesOnMeaning(app, replicas[1..], nodeId, hosts);
      assert replicas == [replicas[0]] + replicas[1..];
    }
  }

  function RuntimeTable(nodeId: string, apps: seq<App>, rules: seq<Rule>): (r: seq<RuntimeEntry>)
    ensures forall e :: e in r <==> exists app <- apps :: e in EntriesOn(app, app.replicas, nodeId, HostsOf(rules, app.appId))
  {
    if apps == [] then []
    else
      assert apps == [apps[0]] + apps[1..];
      EntriesOn(apps[0], apps[0].replicas, nodeId, HostsOf(rules, apps[0].appId)) + RuntimeTable(nodeId, apps[1..], rules)
  }

  /** The entry-building loops of a runtime push. */
  method BuildRuntimeTable(nodeId: string, apps: seq<App>, rules: seq<Rule>) returns (entries: seq<RuntimeEntry>)
    ensures entries == RuntimeTable(nodeId, apps, rules)
  {
    entries := [];
    for i := 0 to |apps|
      invariant entries + RuntimeTable(nodeId, apps[i..], rules) == RuntimeTable(nodeId, apps, rules)
    {
      assert apps[i..][1..] == apps[i + 1..];
      var own := BuildEntries(apps[i], nodeId, HostsOf(rules, apps[i].appId));
      entries := entries + own;
    }
  }

  method BuildEntries(app: App, nodeId: string, hosts: seq<string>) returns (entries: seq<RuntimeEntry>)
    ensures entries == EntriesOn(app, app.replicas, nodeId, hosts)
  {
    entries := [];
    for j := 0 to |app.replicas|
      invariant entries + EntriesOn(app, app.replicas[j..], nodeId, hosts) == EntriesOn(app, app.replicas, nodeId, hosts)
    {
      assert app.replicas[j..][1..] == app.replicas[j + 1..];
      if app.replicas[j].nodeId == nodeId {
        entries := entries + [RuntimeEntry(app.appId, app.workspaceId, app.replicas[j].containerId, hosts)];
      }
    }
  }

  // ---- the two tables never disagree ----

  /** An ingress holding `rules` forwards `host` of `appId` to the mesh address `ip`. */
  ghost predicate Routes(rules: seq<Rule>, host: string, appId: string, ip: string) {
    exists rule <- rules :: rule.host == host && rule.appId == appId && ip in rule.nodes
  }

  /** A runtime node holding `entries` serves `host` for `appId`. */
  ghost predicate Serves(entries: seq<RuntimeEntry>, host: string, appId: string) {
    exists e <- entries :: e.appId == appId && host in e.hosts
  }

  ghost predicate DistinctApps(apps: seq<App>) {
    forall a <- apps, b <- apps :: a.appId == b.appId ==> a == b
  }

  ghost predicate DistinctNodes(nodes: seq<Node>) {
    && (forall a <- nodes, b <- nodes :: a.nodeId == b.nodeId ==> a == b)
    && (forall a <- nodes, b <- nodes :: a.meshIp != "" && a.meshIp == b.meshIp ==> a == b)
  }

  lemma HostedExactly(app: App, nodes: seq<Node>, node: Node)
    requires DistinctNodes(nodes) && node in nodes && node.meshIp != ""
    ensures node.meshIp in MeshIps(app.replicas, nodes) <==> exists replica <- app.replicas :: replica.nodeId == node.nodeId
  {
    forall replica <- app.replicas
      ensures (FindNode(nodes, replica.nodeId).Some? && FindNode(nodes, replica.nodeId).value.meshIp == node.meshIp) <==> replica.nodeId == node.nodeId
    {
    }
  }

  /** An ingress forwards a host to a runtime node if and only if that node's own table serves the host. */
  lemma TablesAgree(apps: seq<App>, nodes: seq<Node>, hosts: seq<HostRow>, node: Node, host: string, appId: string)
    requires var snapshot := SnapshotOf(apps, nodes, hosts); DistinctApps(snapshot.apps) && DistinctNodes(snapshot.runtimeNodes)
    requires node in RuntimeNodes(nodes) && node.meshIp != ""
    ensures var snapshot := SnapshotOf(apps, nodes, hosts);
            Routes(snapshot.rules, host, appId, node.meshIp)
            <==> Serves(RuntimeTable(node.nodeId, snapshot.apps, snapshot.rules), host, appId)
  {
    var snapshot := SnapshotOf(apps, nodes, hosts);
    var routed, rules := snapshot.apps, snapshot.rules;
    if Routes(rules, host, appId, node.meshIp) {
      var rule :| rule in rules && rule.host == host && rule.appId == appId && node.meshIp in rule.nodes;
      var app :| app in routed && rule in AppRules(app, snapshot.runtimeNodes, LiveHosts(hosts));
      HostedExactly(app, snapshot.runtimeNodes, node);
      EntriesOnMeaning(app, app.replicas, node.nodeId, HostsOf(rules, app.appId));
      var entries := EntriesOn(app, app.replicas, node.nodeId, HostsOf(rules, app.appId));
      assert entries[0] in entries;
      assert entries[0] in RuntimeTable(node.nodeId, routed, rules);
    }
    if Serves(RuntimeTable(node.nodeId, routed, rules), host, appId) {
      var e :| e in RuntimeTable(node.nodeId, routed, rules) && e.appId == appId && host in e.hosts;
      var app :| app in routed && e in EntriesOn(app, app.replicas, node.nodeId, HostsOf(rules, app.appId));
      EntriesOnMeaning(app, app.replicas, node.nodeId, HostsOf(rules, app.appId));
      var rule :| rule in rules && rule.appId == appId && rule.host == host;
      var owner :| owner in routed && rule in AppRules(owner, snapshot.runtimeNodes, LiveHosts(hosts));
      assert owner == app;
      HostedExactly(app, snapshot.runtimeNodes, node);
    }
  }

  // ---- the receiving agent ----

  datatype Payload = RuntimePayload(entries: seq<RuntimeEntry>) | IngressPayload(rules: seq<Rule>, signingKeys: seq<SigningKey>)

  datatype Stored = Stored(revision: nat, payload: Payload)

  datatype Reply = Invalid | Reply(applied: bool, revision: nat)

  /** Newer wins on the revision alone; with nothing stored anything is newer. */
  predicate IsNewer(revision: nat, current: Option<Stored>) {
    current.None? || revision > current.value.revision
  }

  /** The table an agent holds after a push. */
  function Accept(current: Option<Stored>, push: Stored): (r: Option<Stored>)
    ensures r.Some? && r.value.revision >= push.revision
    ensures current.Some? ==> r.value.revision >= current.value.revision
    ensures r == current || r == Some(push)
    ensures r == current <==> current.Some? && (push.revision <= current.value.revision || current.value == push)
  {
    if IsNewer(push.revision, current) then Some(push) else current
  }

  /** One agent's module state: two tables, each replaced as a whole. */
  class HostTableAgent {
    var runtimeTable: Option<Stored>
    var ingressTable: Option<Stored>

    constructor ()
      ensures runtimeTable == None && ingressTable == None
    {
      runtimeTable, ingressTable := None, None;
    }

    method PutRuntime(revision: nat, entries: seq<RuntimeEntry>) returns (reply: Reply)
      modifies this
      ensures ingressTable == old(ingressTable)
      ensures reply == Invalid <==> revision == 0
      ensures reply == Invalid ==> runtimeTable == old(runtimeTable)
      ensures reply != Invalid ==>
                && runtimeTable == Accept(old(runtimeTable), Stored(revision, RuntimePayload(entries)))
                && reply.revision == runtimeTable.value.revision >= revision
                && (reply.applied <==> IsNewer(revision, old(runtimeTable)))
    {
      if revision == 0 { return Invalid; }
      if !IsNewer(revision, runtimeTable) { return Reply(false, runtimeTable.value.revision); }
      runtimeTable := Some(Stored(revision, RuntimePayload(entries)));
      reply := Reply(true, revision);
    }

    method PutIngress(revision: nat, rules: seq<Rule>, signingKeys: seq<SigningKey>) returns (reply: Reply)
      modifies this
      ensures runtimeTable == old(runtimeTable)
      ensures reply == Invalid <==> revision == 0
      ensures reply == Invalid ==> ingressTable == old(ingressTable)
      ensures reply != Invalid ==>
                && ingressTable == Accept(old(ingressTable), Stored(revision, IngressPayload(rules, signingKeys)))
                && reply.revision == ingressTable.value.revision >= revision
                && (reply.applied <==> IsNewer(revision, old(ingressTable)))
    {
      if revision == 0 { return Invalid; }
      if !IsNewer(revision, ingressTable) { return Reply(false, ingressTable.value.revision); }
      ingressTable := Some(Stored(revision, IngressPayload(rules, signingKeys)));
      reply := Reply(true, revision);
    }
  }
}
