/** The roles of the live cluster, how `cluster nodes` lists them, and how the planner reads the
    listing back. */
module Topology {
  import opened Wrappers
  import opened Strings
  import opened Hosts
  import opened ScalePlan

  /** One line of `cluster nodes`. */
  datatype NodeInfo = NodeInfo(nodeId: string, ipPort: string, flags: string, master: string)

  /** The masters by IP, and each slave's IP with the node id of its master. `apart` is about masters,
      by node id, that do not belong to the first cluster: it names the node their own cluster grew
      from. It is empty as long as there is one cluster. */
  datatype Roles = Roles(masters: set<string>, parentOf: map<string, string>, apart: map<string, string>) {
    function Members(): set<string> { masters + parentOf.Keys }
  }

  function OneCluster(masters: set<string>, parentOf: map<string, string>): Roles {
    Roles(masters, parentOf, map[])
  }

  const PORT := ":6379"

  function Ip(info: NodeInfo): string {
    BeforeColon(info.ipPort)
  }

  predicate IsMaster(info: NodeInfo) {
    info.flags == "master"
  }

  /** A node's id is its own, different from every other's and from the "-" that stands for none. */
  ghost predicate GoodIds(idOf: string -> string) {
    && (forall a, b :: idOf(a) == idOf(b) ==> a == b)
    && (forall a :: idOf(a) != "-")
  }

  ghost predicate GoodRoles(r: Roles) {
    && r.masters !! r.parentOf.Keys
    && forall ip :: ip in r.Members() ==> ':' !in ip
  }

  // ---------- what a node knows ----------

  /** The cluster of a member: "" for the first one, otherwise the node it grew from. */
  function ClusterOf(idOf: string -> string, r: Roles, ip: string): string
    requires ip in r.Members()
  {
    var id := if ip in r.masters then idOf(ip) else r.parentOf[ip];
    if id in r.apart then r.apart[id] else ""
  }

  /** The roles a node lists when asked: those of its own cluster. A node outside every cluster knows
      itself only, as a master. */
  function Seen(idOf: string -> string, r: Roles, asked: string): Roles {
    if asked !in r.Members() then OneCluster({asked}, map[])
    else
      var c := ClusterOf(idOf, r, asked);
      OneCluster(set m | m in r.masters && ClusterOf(idOf, r, m) == c,
                 map s | s in r.parentOf && ClusterOf(idOf, r, s) == c :: r.parentOf[s])
  }

  /** While there is one cluster, each of its members lists all of it. */
  lemma MembersSeeAll(idOf: string -> string, r: Roles, asked: string)
    requires r.apart == map[] && asked in r.Members()
    ensures Seen(idOf, r, asked) == r
  {
    var seen := Seen(idOf, r, asked);
    assert seen.masters == r.masters;
    assert seen.parentOf == r.parentOf;
  }

  lemma OutsiderListsItself(idOf: string -> string, r: Roles, asked: string)
    requires asked !in r.Members()
    ensures Seen(idOf, r, asked).Members() == {asked}
  {
  }

  lemma SeenGood(idOf: string -> string, r: Roles, asked: string)
    requires GoodRoles(r) && ':' !in asked
    ensures GoodRoles(Seen(idOf, r, asked))
  {
  }

  // ---------- listings ----------

  function Line(idOf: string -> string, r: Roles, ip: string): NodeInfo
    requires ip in r.Members()
  {
    if ip in r.masters then NodeInfo(idOf(ip), ip + PORT, "master", "-")
    else NodeInfo(idOf(ip), ip + PORT, "slave", r.parentOf[ip])
  }

  /** nodes lists every member once, in any order. */
  ghost predicate Lists(idOf: string -> string, nodes: seq<NodeInfo>, r: Roles) {
    && (forall i :: 0 <= i < |nodes| ==> Ip(nodes[i]) in r.Members() && nodes[i] == Line(idOf, r, Ip(nodes[i])))
    && (forall i, j :: 0 <= i < j < |nodes| ==> Ip(nodes[i]) != Ip(nodes[j]))
    && (forall ip :: ip in r.Members() ==> ip in ListedIps(nodes))
  }

  function ListedIps(nodes: seq<NodeInfo>): set<string> {
    set i | 0 <= i < |nodes| :: Ip(nodes[i])
  }

  /** Some line lists this IP in this role. */
  ghost predicate HasLine(nodes: seq<NodeInfo>, ip: string, master: bool) {
    exists i :: 0 <= i < |nodes| && Ip(nodes[i]) == ip && IsMaster(nodes[i]) == master
  }

  // ---------- reading a listing ----------

  function MasterIps(nodes: seq<NodeInfo>): seq<string> {
    if nodes == [] then []
    else MasterIps(nodes[..|nodes| - 1])
         + if IsMaster(nodes[|nodes| - 1]) then [Ip(nodes[|nodes| - 1])] else []
  }

  function SlaveIps(nodes: seq<NodeInfo>): seq<string> {
    if nodes == [] then []
    else SlaveIps(nodes[..|nodes| - 1])
         + if IsMaster(nodes[|nodes| - 1]) then [] else [Ip(nodes[|nodes| - 1])]
  }

  /** The IP of the first line from i on that names the given node id as its master. */
  function FirstReplica(nodes: seq<NodeInfo>, id: string, i: nat): Option<string>
    requires i <= |nodes|
    decreases |nodes| - i
  {
    if i == |nodes| then None
    else if id == nodes[i].master then Some(Ip(nodes[i]))
    else FirstReplica(nodes, id, i + 1)
  }

  /** The master-to-slave map after the first k lines. */
  function Connector(nodes: seq<NodeInfo>, k: nat): map<string, string>
    requires k <= |nodes|
  {
    if k == 0 then map[]
    else
      var m, info := Connector(nodes, k - 1), nodes[k - 1];
      if IsMaster(info) && FirstReplica(nodes, info.nodeId, 0).Some?
      then m[Ip(info) := FirstReplica(nodes, info.nodeId, 0).value]
      else m
  }

  /** `buildWillAddClusterMasterSlaveIPs`. */
  method BuildWillAddClusterMasterSlaveIPs(nodeInfos: seq<NodeInfo>, newAddresses: seq<Address>)
    returns (r: Result<Outcome>)
    ensures newAddresses == [] ==> r.Failure?
    ensures newAddresses != [] ==> r == Success(
      Compose(newAddresses, MasterIps(nodeInfos), SlaveIps(nodeInfos), Connector(nodeInfos, |nodeInfos|)))
  {
    hide Compose, Ip;
    if |newAddresses| == 0 {
      return Failure("newEndpoints subsets or addresses is empty");
    }
    var existedMasterInstanceIPs: seq<string>, existedSlaveInstanceIPs: seq<string> := [], [];
    var masterSlaveConnector: map<string, string> := map[];
    for i := 0 to |nodeInfos|
      invariant existedMasterInstanceIPs == MasterIps(nodeInfos[..i])
      invariant existedSlaveInstanceIPs == SlaveIps(nodeInfos[..i])
      invariant masterSlaveConnector == Connector(nodeInfos, i)
    {
      var info := nodeInfos[i];
      assert nodeInfos[..i + 1][..i] == nodeInfos[..i];
      if IsMaster(info) {
        var j := 0;
        while j < |nodeInfos| && info.nodeId != nodeInfos[j].master
          invariant 0 <= j <= |nodeInfos|
          invariant FirstReplica(nodeInfos, info.nodeId, 0) == FirstReplica(nodeInfos, info.nodeId, j)
        {
          j := j + 1;
        }
        if j < |nodeInfos| {
          masterSlaveConnector := masterSlaveConnector[Ip(info) := Ip(nodeInfos[j])];
        }
        existedMasterInstanceIPs := existedMasterInstanceIPs + [Ip(info)];
      } else {
        existedSlaveInstanceIPs := existedSlaveInstanceIPs + [Ip(info)];
      }
    }
    assert nodeInfos[..|nodeInfos|] == nodeInfos;
    var o := ComposeMasterSlaveIP(newAddresses, existedMasterInstanceIPs, existedSlaveInstanceIPs,
                                  masterSlaveConnector);
    r := Success(o);
  }

  /** The masters that have a slave. */
  function Served(idOf: string -> string, r: Roles): set<string> {
    set m | m in r.masters && idOf(m) in r.parentOf.Values
  }

  /** The plan for the roles listed. */
  function PlanFor(idOf: string -> string, addrs: seq<Address>, r: Roles): Outcome {
    Plan(addrs, r.masters, |r.masters|, r.parentOf.Keys, Served(idOf, r))
  }

  /** The plan made from what the asked node lists. */
  function PlanVia(idOf: string -> string, addrs: seq<Address>, r: Roles, asked: string): Outcome {
    PlanFor(idOf, addrs, Seen(idOf, r, asked))
  }

  lemma HasLineSnoc(init: seq<NodeInfo>, last: NodeInfo, ip: string, master: bool)
    ensures HasLine(init + [last], ip, master) <==>
      HasLine(init, ip, master) || (Ip(last) == ip && IsMaster(last) == master)
  {
    hide Ip, IsMaster;
    var nodes := init + [last];
    assert forall i :: 0 <= i < |init| ==> nodes[i] == init[i];
    assert nodes[|init|] == last;
  }

  lemma {:induction false} RoleIps(nodes: seq<NodeInfo>, ip: string)
    ensures ip in MasterIps(nodes) <==> HasLine(nodes, ip, true)
    ensures ip in SlaveIps(nodes) <==> HasLine(nodes, ip, false)
  {
    if nodes != [] {
      var init, last := nodes[..|nodes| - 1], nodes[|nodes| - 1];
      RoleIps(init, ip);
      assert nodes == init + [last];
      HasLineSnoc(init, last, ip, true);
      HasLineSnoc(init, last, ip, false);
      hide Ip, IsMaster, HasLine;
    }
  }

  /** The planner reads a node as a master exactly when its flags are "master" and nothing else, and every
      other node as a slave. */
  lemma RolesRead(nodes: seq<NodeInfo>, ip: string)
    ensures ip in MasterIps(nodes) <==>
      exists i :: 0 <= i < |nodes| && BeforeColon(nodes[i].ipPort) == ip && nodes[i].flags == "master"
    ensures ip in SlaveIps(nodes) <==>
      exists i :: 0 <= i < |nodes| && BeforeColon(nodes[i].ipPort) == ip && nodes[i].flags != "master"
  {
    hide MasterIps, SlaveIps;
    RoleIps(nodes, ip);
  }

  lemma {:induction false} MasterIpsDistinct(nodes: seq<NodeInfo>)
    requires forall i, j :: 0 <= i < j < |nodes| ==> Ip(nodes[i]) != Ip(nodes[j])
    ensures |IpSet(MasterIps(nodes))| == |MasterIps(nodes)|
  {
    hide Ip, IsMaster, IpSet;
    if nodes == [] {
      assert IpSet([]) == {} by { EmptyIpSet(); }
    } else {
      var init, last := nodes[..|nodes| - 1], nodes[|nodes| - 1];
      assert forall i :: 0 <= i < |init| ==> init[i] == nodes[i];
      MasterIpsDistinct(init);
      IpSetSnoc(MasterIps(init), Ip(last));
      RoleIps(init, Ip(last));
      assert Ip(last) !in IpSet(MasterIps(init)) by { InIpSet(MasterIps(init), Ip(last)); }
    }
  }

  lemma EmptyIpSet()
    ensures IpSet([]) == {}
  {
  }

  lemma InIpSet(s: seq<string>, x: string)
    ensures x in IpSet(s) <==> x in s
  {
  }

  lemma IpSetSnoc(s: seq<string>, x: string)
    ensures IpSet(s + [x]) == IpSet(s) + {x} && IpSet(s + []) == IpSet(s)
  {
    assert s + [] == s;
  }

  lemma {:induction false} FirstReplicaExists(nodes: seq<NodeInfo>, id: string, i: nat)
    requires i <= |nodes|
    ensures FirstReplica(nodes, id, i).Some? <==> exists j :: i <= j < |nodes| && nodes[j].master == id
    decreases |nodes| - i
  {
    hide Ip;
    if i < |nodes| && id != nodes[i].master {
      FirstReplicaExists(nodes, id, i + 1);
    }
  }

  lemma {:induction false} ConnectorKeys(nodes: seq<NodeInfo>, k: nat)
    requires k <= |nodes|
    ensures Connector(nodes, k).Keys
         == set i | 0 <= i < k && IsMaster(nodes[i]) && FirstReplica(nodes, nodes[i].nodeId, 0).Some? :: Ip(nodes[i])
  {
    hide Ip, FirstReplica;
    if k > 0 {
      ConnectorKeys(nodes, k - 1);
    }
  }

  /** Whatever order the listing comes in, the planner reads back the roles. */
  lemma ReadingRoles(idOf: string -> string, nodes: seq<NodeInfo>, r: Roles)
    requires GoodIds(idOf) && GoodRoles(r) && Lists(idOf, nodes, r)
    ensures IpSet(MasterIps(nodes)) == r.masters && |MasterIps(nodes)| == |r.masters|
    ensures IpSet(SlaveIps(nodes)) == r.parentOf.Keys
    ensures Connector(nodes, |nodes|).Keys == Served(idOf, r)
  {
    hide Ip, FirstReplica, MasterIps, SlaveIps, Connector, Lists;
    MasterIpsDistinctIn(idOf, nodes, r);
    forall ip ensures ip in IpSet(MasterIps(nodes)) <==> ip in r.masters
              ensures ip in IpSet(SlaveIps(nodes)) <==> ip in r.parentOf.Keys
    {
      RoleIps(nodes, ip);
      LineOfMember(idOf, nodes, r, ip);
    }
    forall ip ensures ip in Connector(nodes, |nodes|).Keys <==> ip in Served(idOf, r) {
      ConnectorServes(idOf, nodes, r, ip);
    }
  }

  lemma MasterIpsDistinctIn(idOf: string -> string, nodes: seq<NodeInfo>, r: Roles)
    requires Lists(idOf, nodes, r)
    ensures |IpSet(MasterIps(nodes))| == |MasterIps(nodes)|
  {
    hide Ip, MasterIps;
    MasterIpsDistinct(nodes);
  }

  lemma LineOfMember(idOf: string -> string, nodes: seq<NodeInfo>, r: Roles, ip: string)
    requires GoodRoles(r) && Lists(idOf, nodes, r)
    ensures HasLine(nodes, ip, true) <==> ip in r.masters
    ensures HasLine(nodes, ip, false) <==> ip in r.parentOf.Keys
  {
    hide Ip;
    if ip in r.Members() {
      var i :| 0 <= i < |nodes| && Ip(nodes[i]) == ip;
    }
  }

  lemma ConnectorServes(idOf: string -> string, nodes: seq<NodeInfo>, r: Roles, ip: string)
    requires GoodIds(idOf) && GoodRoles(r) && Lists(idOf, nodes, r)
    ensures ip in Connector(nodes, |nodes|).Keys <==> ip in Served(idOf, r)
  {
    hide Ip, FirstReplica, Connector;
    ConnectorKeys(nodes, |nodes|);
    if ip in r.masters {
      var i :| 0 <= i < |nodes| && Ip(nodes[i]) == ip;
      FirstReplicaExists(nodes, nodes[i].nodeId, 0);
      if idOf(ip) in r.parentOf.Values {
        var s :| s in r.parentOf && r.parentOf[s] == idOf(ip);
        assert s in r.Members();
        var j :| 0 <= j < |nodes| && Ip(nodes[j]) == s;
        assert nodes[j].master == idOf(ip);
      }
    }
  }

  /** So every listing of the same roles gives the same plan. */
  lemma PlanFromAnyListing(idOf: string -> string, nodes: seq<NodeInfo>, r: Roles, addrs: seq<Address>)
    requires GoodIds(idOf) && GoodRoles(r) && Lists(idOf, nodes, r)
    ensures Compose(addrs, MasterIps(nodes), SlaveIps(nodes), Connector(nodes, |nodes|)) == PlanFor(idOf, addrs, r)
  {
    hide Plan;
    ReadingRoles(idOf, nodes, r);
  }
}
