/** The operator's methods, which issue the commands one by one, proved to be the step machine. */
module Operator {
  import opened Hosts
  import opened ScalePlan
  import opened Topology
  import opened Repair
  import opened Steps
  import opened Runs
  import opened Passes
  import opened Branches
  import opened Naming
  import opened Lookup
  import CreationPlan

  /** Whatever is added through the asked node, roles stay disjoint and readable. */
  lemma {:induction false} AddMastersGood(env: Env, w: World, via: string, ips: seq<string>)
    requires GoodRoles(w.roles) && ':' !in via && forall i :: 0 <= i < |ips| ==> ':' !in ips[i]
    ensures GoodRoles(AddMasters(env, w, via, ips).world.roles)
    decreases |ips|
  {
    hide ClusterOf;
    if ips != [] && ips[0] !in w.roles.Members() {
      AddMastersGood(env, World(Joined(env.idOf, w.roles, via, ips[0]), w.clock + 2), via, ips[1..]);
    }
  }

  /** Promotions leave roles that every node can list. */
  lemma PromotedGood(env: Env, w: World, addrs: seq<Address>, asked: string)
    requires Ready(env, w, addrs) && asked in AddrIps(addrs)
    ensures GoodRoles(w.roles) && GoodRoles(Promoted(env, w, addrs, asked).world.roles) && ':' !in asked
    ensures PlanVia(env.idOf, addrs, w.roles, asked).Planned?
  {
    hide WellFormed, GoodAddrs, GoodRoles, AddrIps, PlanVia, AddMasters;
    WellFormedGood(env.idOf, w.roles, addrs);
    PlanGood(env.idOf, addrs, w.roles, asked);
    var ms := PlanVia(env.idOf, addrs, w.roles, asked).masters;
    forall i | 0 <= i < |ms| ensures ':' !in ms[i] {
      assert ms[i] in IpSet(ms);
    }
    AddMastersGood(env, Ask(env, w).world, asked, ms);
  }

  class RedisClusterOperator {
    const env: Env
    /** The live topology and the number of commands issued so far. */
    var roles: Roles
    var clock: nat

    constructor (env: Env)
      ensures this.env == env && State() == World(OneCluster({}, map[]), 0)
    {
      this.env := env;
      roles, clock := OneCluster({}, map[]), 0;
    }

    function State(): World
      reads this
    {
      World(roles, clock)
    }

    /** Run a command that changes nothing. */
    method ExecQuery() returns (s: Status)
      modifies this`clock
      ensures Run(State(), s) == Ask(env, old(State()))
    {
      s := if env.answer(clock).Works? then Done else Error;
      clock := clock + 1;
    }

    /** Run `redis-trib add-node` for a master, introducing it to the node via. */
    method ExecAddMaster(via: string, ip: string) returns (s: Status)
      modifies this
      ensures Run(State(), s) ==
        Change(env, old(State()), ip !in old(roles).Members(), Joined(env.idOf, old(roles), via, ip))
    {
      s := if ip in roles.Members() || !env.answer(clock).Works? then Error else Done;
      if ip !in roles.Members() && !env.answer(clock).FailsBefore? {
        roles := Joined(env.idOf, roles, via, ip);
      }
      clock := clock + 1;
    }

    /** Run `redis-trib add-node --slave --master-id`. */
    method ExecAddSlave(ip: string, id: string) returns (s: Status)
      modifies this
      ensures Run(State(), s) == Change(env, old(State()),
        ip !in old(roles).Members() && id in MasterIds(env.idOf, old(roles)), Attached(old(roles), ip, id))
    {
      var legal := ip !in roles.Members() && id in MasterIds(env.idOf, roles);
      s := if !legal || !env.answer(clock).Works? then Error else Done;
      if legal && !env.answer(clock).FailsBefore? {
        roles := Attached(roles, ip, id);
      }
      clock := clock + 1;
    }

    /** Run `redis-trib create`, which knows of the nodes it is given and of no others. */
    method ExecCreate(masters: seq<string>) returns (s: Status)
      modifies this
      ensures Run(State(), s) ==
        Change(env, old(State()), IpSet(masters) !! old(roles).Members(), Created(env.idOf, old(roles), masters))
    {
      var legal := IpSet(masters) !! roles.Members();
      s := if !legal || !env.answer(clock).Works? then Error else Done;
      if legal && !env.answer(clock).FailsBefore? {
        roles := Created(env.idOf, roles, masters);
      }
      clock := clock + 1;
    }

    /** `cluster nodes` on the asked node: the members of its cluster, in no particular order. */
    method ClusterNodes(asked: string) returns (nodes: seq<NodeInfo>)
      requires GoodRoles(roles) && ':' !in asked
      ensures Lists(env.idOf, nodes, Seen(env.idOf, roles, asked))
    {
      hide Ip, Seen;
      SeenGood(env.idOf, roles, asked);
      var seen := Seen(env.idOf, roles, asked);
      nodes := [];
      var todo := seen.Members();
      while todo != {}
        invariant todo <= seen.Members()
        invariant forall i :: 0 <= i < |nodes| ==>
          Ip(nodes[i]) in seen.Members() - todo && nodes[i] == Line(env.idOf, seen, Ip(nodes[i]))
        invariant forall i, j :: 0 <= i < j < |nodes| ==> Ip(nodes[i]) != Ip(nodes[j])
        invariant forall ip :: ip in seen.Members() ==> ip in todo || ip in ListedIps(nodes)
        decreases todo
      {
        var ip :| ip in todo;
        ghost var was := nodes;
        nodes := nodes + [Line(env.idOf, seen, ip)];
        LineIp(env.idOf, seen, ip);
        todo := todo - {ip};
        ListedSnoc(was, Line(env.idOf, seen, ip));
      }
    }

    /** `execClusterNodes`: wait for a good status check, then list. */
    method ExecClusterNodes(asked: string) returns (s: Status, nodes: seq<NodeInfo>)
      requires GoodRoles(roles) && ':' !in asked
      modifies this`clock
      ensures Run(State(), s) == Ask(env, old(State()))
      ensures Lists(env.idOf, nodes, Seen(env.idOf, roles, asked))
    {
      s := ExecQuery();
      nodes := ClusterNodes(asked);
    }

    method AddMasterNodeToRedisCluster(ips: seq<string>, via: string) returns (s: Status)
      modifies this
      ensures Run(State(), s) == AddMasters(env, old(State()), via, ips)
    {
      var i := 0;
      while i < |ips|
        invariant 0 <= i <= |ips|
        invariant AddMasters(env, old(State()), via, ips) == AddMasters(env, State(), via, ips[i..])
      {
        assert ips[i..][1..] == ips[i + 1..];
        s := ExecQuery();
        if s != Done {
          return;
        }
        s := ExecAddMaster(via, ips[i]);
        if s != Done {
          return;
        }
        i := i + 1;
      }
      s := Done;
    }

    method AddSlaveToClusterMaster(slaves: seq<string>, masters: seq<string>, ids: seq<string>) returns (s: Status)
      modifies this
      ensures Run(State(), s) == AddSlaves(env, old(State()), slaves, masters, ids)
    {
      if |slaves| != |masters| || |masters| != |ids| {
        return Error;
      }
      var i := 0;
      while i < |slaves|
        invariant 0 <= i <= |slaves|
        invariant AttachSlaves(env, old(State()), slaves, ids) == AttachSlaves(env, State(), slaves[i..], ids[i..])
      {
        assert slaves[i..][1..] == slaves[i + 1..] && ids[i..][1..] == ids[i + 1..];
        s := ExecQuery();
        if s != Done {
          return;
        }
        s := ExecAddSlave(slaves[i], ids[i]);
        if s != Done {
          return;
        }
        i := i + 1;
      }
      s := Done;
    }

    /** The steps repairs and scale-ups share, all through one asked node. */
    method PromotePlanned(addrs: seq<Address>, asked: string) returns (s: Status, o: Outcome, nodes: seq<NodeInfo>)
      requires Ready(env, State(), addrs) && asked in AddrIps(addrs)
      modifies this
      ensures Run(State(), s) == Promoted(env, old(State()), addrs, asked)
      ensures o == PlanVia(env.idOf, addrs, old(roles), asked)
      ensures s == Done ==> o.Planned? && Lists(env.idOf, nodes, Seen(env.idOf, roles, asked))
    {
      hide WellFormed, GoodAddrs, Lists, AddMasters, PlanFor, Compose, GoodRoles, AddrIps, Seen;
      PromotedGood(env, State(), addrs, asked);
      SeenGood(env.idOf, roles, asked);
      NotEmpty(addrs, asked);
      s, nodes := ExecClusterNodes(asked);
      PlanFromAnyListing(env.idOf, nodes, Seen(env.idOf, roles, asked), addrs);
      var built := BuildWillAddClusterMasterSlaveIPs(nodes, addrs);
      o := built.value;
      if s != Done {
        return;
      }
      match o
      case IndexPanic => s := Panicked;
      case NeverReturns => s := Hung;
      case Planned(ms, ss, ps) =>
        s := AddMasterNodeToRedisCluster(ms, asked);
        if s != Done {
          return;
        }
        s, nodes := ExecClusterNodes(asked);
    }

    /** The planning and joining part of the repair branches. */
    method RepairMembers(addrs: seq<Address>, asked: string) returns (s: Status)
      requires Ready(env, State(), addrs) && asked in AddrIps(addrs)
      modifies this
      ensures Run(State(), s) == RepairOnce(env, old(State()), addrs, asked)
    {
      hide WellFormed, GoodAddrs, Lists, Promoted, PlanVia, AddSlaves, AddrIps, Seen;
      var o, nodes;
      s, o, nodes := PromotePlanned(addrs, asked);
      if s == Done && |o.slaves| != 0 {
        var ids := FindNodeIds(nodes, o.parents);
        LookupExactIsIds(env.idOf, nodes, Seen(env.idOf, roles, asked), o.parents);
        s := AddSlaveToClusterMaster(o.slaves, o.parents, ids);
      }
    }

    /** `scaleRedisCluster` through the first old endpoint. It looks the new masters' ids up by substring in
        whatever that node lists then. */
    method ScaleRedisCluster(addrs: seq<Address>, asked: string) returns (s: Status, ghost how: Finding)
      requires Ready(env, State(), addrs) && asked in AddrIps(addrs)
      modifies this
      ensures Run(State(), s) == ScaleOnce(env, old(State()), addrs, asked, how)
      ensures how.InListing? && ListsThen(env, old(State()), addrs, asked, how)
      ensures ClearNames(env.idOf, old(roles), addrs, asked) ==>
        Run(State(), s) == ScaleOnce(env, old(State()), addrs, asked)
      ensures Extends(old(roles), roles)
    {
      hide WellFormed, GoodAddrs, Lists, Promoted, PlanVia, AttachSlaves, ClearNames, LookupBySubstring, Extends,
           AddrIps, Seen;
      var o, listing;
      s, o, listing := PromotePlanned(addrs, asked);
      how := InListing(listing);
      ScaleOnceExtends(env, old(State()), addrs, asked, how);
      if s == Done {
        var ids := FindNodeIdsBySubstring(listing, o.masters);
        if |ids| != |o.masters| {
          s := Error;
        } else {
          s := AddSlaveToClusterMaster(o.slaves, o.masters, ids);
        }
      }
      if ClearNames(env.idOf, old(roles), addrs, asked) {
        ClearNamesSuffice(env, old(State()), addrs, asked, how);
      }
    }

    /** `createAndInitRedisCluster`. */
    method CreateAndInitRedisCluster(addrs: seq<Address>) returns (s: Status)
      requires Ready(env, State(), addrs)
      modifies this
      ensures Run(State(), s) == CreateOnce(env, old(State()), addrs)
    {
      hide WellFormed, GoodAddrs, Lists, AddSlaves, CreationPlan.Masters, CreationPlan.Slaves, Ips, IpSet, IdsOf,
           GoodRoles, Created, Seen, Roles.Members;
      CreatedGood(env.idOf, roles, addrs);
      s := ExecQuery();
      if s != Done {
        return;
      }
      if |addrs| == 0 {
        return Error;
      }
      var plan, warned := CreationPlan.AssignMasterSlaveIP(addrs);
      var masters, slaves := plan.value.0, plan.value.1;
      s := ExecCreate(masters);
      if s != Done {
        return;
      }
      if |masters| == 0 {
        return Panicked;
      }
      ghost var seen := Seen(env.idOf, roles, masters[0]);
      var nodes;
      s, nodes := ExecClusterNodes(masters[0]);
      if s != Done {
        return;
      }
      ListingLength(env.idOf, nodes, seen);
      if |nodes| != |slaves| {
        return Error;
      }
      var ids := FindNodeIds(nodes, masters);
      LookupExactIsIds(env.idOf, nodes, seen, masters);
      s := AddSlaveToClusterMaster(slaves, masters, ids);
      if s != Done {
        return;
      }
      s := ExecQuery();
    }

    /** `getIsClusteredAndOnlyKnownSelfAddress`: an unhealthy member yields empty lists and no error. */
    method ProbeAddresses(addrs: seq<Address>) returns (s: Status, clustered: seq<Address>, alone: seq<Address>)
      modifies this`clock
      ensures var p := ProbeAll(env, old(State()), addrs, [], []);
              && State() == p.world
              && (p.ProbeFailed? ==> s == Error)
              && (p.Unhealthy? ==> s == Done && clustered == [] && alone == [])
              && (p.Probed? ==> s == Done && clustered == p.clustered && alone == p.alone)
    {
      clustered, alone := [], [];
      var i := 0;
      while i < |addrs|
        invariant 0 <= i <= |addrs|
        invariant roles == old(roles)
        invariant ProbeAll(env, old(State()), addrs, [], []) == ProbeAll(env, State(), addrs[i..], clustered, alone)
      {
        assert addrs[i..][1..] == addrs[i + 1..];
        var isOK := env.healthy(clock);
        s := ExecQuery();
        if s != Done {
          return;
        }
        if Alone(env.idOf, roles, addrs[i].ip) {
          alone := alone + [addrs[i]];
        } else if !isOK {
          return Done, [], [];
        } else {
          clustered := clustered + [addrs[i]];
        }
        i := i + 1;
      }
      s := Done;
    }

    /** The repair branch for a cluster still being created. */
    method FixCreatingCluster(addrs: seq<Address>) returns (s: Status)
      requires Ready(env, State(), addrs)
      modifies this
      ensures Run(State(), s) == FixCreating(env, old(State()), addrs)
    {
      hide WellFormed, GoodAddrs, CreateOnce, RepairOnce, ProbeAll;
      InClusterOnly(env.idOf, roles, addrs);
      s := ExecQuery();
      if s != Done {
        return;
      }
      if |addrs| == 0 {
        return Error;
      }
      ProbeVerdict(env, State(), addrs);
      var clustered, alone;
      s, clustered, alone := ProbeAddresses(addrs);
      if s != Done {
        return;
      }
      if |alone| == |addrs| || |clustered| == 0 {
        s := CreateAndInitRedisCluster(addrs);
        return;
      }
      s := RepairMembers(addrs, clustered[0].ip);
      if s != Done {
        return;
      }
      s := ExecQuery();
      if s != Done {
        return;
      }
      s := ExecQuery();
    }

    /** `upgradeRedisCluster` up to the slot migration. */
    method UpgradeRedisCluster(addrs: seq<Address>, oldEndpoints: seq<string>, kind: UpdateType)
      returns (s: Status, ghost how: Finding)
      requires Ready(env, State(), addrs) && (oldEndpoints != [] ==> oldEndpoints[0] in AddrIps(addrs))
      modifies this
      ensures Run(State(), s) == Upgrade(env, old(State()), addrs, oldEndpoints, kind, how)
      ensures how.InListing? ==>
        oldEndpoints != [] && ListsThen(env, World(old(roles), old(clock) + 1), addrs, oldEndpoints[0], how)
      ensures (oldEndpoints != [] ==> ClearNames(env.idOf, old(roles), addrs, oldEndpoints[0])) ==>
        Run(State(), s) == Upgrade(env, old(State()), addrs, oldEndpoints, kind)
      ensures Extends(old(roles), roles)
    {
      ExtendsReflexive(roles);
      hide Extends, WellFormed, GoodAddrs, ScaleOnce, Promoted, ClearNames, PlanVia, AddrIps, ListsThen;
      how := Exactly;
      if |oldEndpoints| == 0 {
        return Error, how;
      }
      s := ExecQuery();
      if s != Done {
        return;
      }
      match kind
      case AutoReceive => s, how := ScaleRedisCluster(addrs, oldEndpoints[0]);
      case AssignReceive => s, how := ScaleRedisCluster(addrs, oldEndpoints[0]);
      case Other => s := Error;
    }

    /** The branch that starts a scale-up over. */
    method FixScalingCluster(addrs: seq<Address>, conditions: nat, kind: UpdateType)
      returns (s: Status, ghost how: Finding)
      requires Ready(env, State(), addrs)
      modifies this
      ensures Run(State(), s) == FixScaling(env, old(State()), addrs, conditions, kind, how)
      ensures how.InListing? ==> AsksFirst(env, old(State()), addrs, conditions, how)
      ensures (addrs != [] ==> ClearNames(env.idOf, old(roles), addrs, addrs[0].ip)) ==>
        Run(State(), s) == FixScaling(env, old(State()), addrs, conditions, kind)
      ensures Extends(old(roles), roles)
    {
      ExtendsReflexive(roles);
      hide Extends, WellFormed, GoodAddrs, CreateOnce, ProbeAll, Upgrade, ClearNames, AddrIps, ListsThen,
           Roles.Members, Ips;
      how := Exactly;
      s := ExecQuery();
      if s != Done {
        return;
      }
      if |addrs| == 0 {
        return Error, how;
      }
      ProbeVerdict(env, State(), addrs);
      var clustered, alone;
      s, clustered, alone := ProbeAddresses(addrs);
      if s != Done {
        return;
      }
      if |alone| == |addrs| || |clustered| == 0 {
        CreateOnceExact(env, State(), addrs);
        s := CreateAndInitRedisCluster(addrs);
        return;
      }
      var subLen := |addrs| - conditions;
      if subLen < 0 {
        // slicing with a negative bound
        return Panicked, how;
      }
      s, how := UpgradeRedisCluster(addrs, FirstIps(addrs, subLen), kind);
    }

    /** The repair branch for a cluster being scaled, up to the slot migration. */
    method FixUpgradingCluster(addrs: seq<Address>, conditions: nat, kind: UpdateType)
      returns (s: Status, ghost how: Finding)
      requires Ready(env, State(), addrs)
      modifies this
      ensures Run(State(), s) == FixUpgrading(env, old(State()), addrs, conditions, kind, how)
      ensures how.InListing? ==> AsksFirst(env, old(State()), addrs, conditions, how)
      ensures (addrs != [] ==> ClearNames(env.idOf, old(roles), addrs, addrs[0].ip)) ==>
        Run(State(), s) == FixUpgrading(env, old(State()), addrs, conditions, kind)
      ensures Extends(old(roles), roles)
    {
      ExtendsReflexive(roles);
      hide Extends, WellFormed, GoodAddrs, CreateOnce, RepairOnce, ProbeAll, Upgrade, ClearNames, AddrIps, ListsThen,
           Roles.Members, Ips;
      InClusterOnly(env.idOf, roles, addrs);
      how := Exactly;
      s := ExecQuery();
      if s != Done {
        return;
      }
      if |addrs| == 0 {
        return Error, how;
      }
      ProbeVerdict(env, State(), addrs);
      var clustered, alone;
      s, clustered, alone := ProbeAddresses(addrs);
      if s != Done {
        return;
      }
      if |alone| == |addrs| || |clustered| == 0 {
        CreateOnceExact(env, State(), addrs);
        s := CreateAndInitRedisCluster(addrs);
        return;
      }
      var subLen := |addrs| - conditions;
      if subLen < 0 {
        // slicing with a negative bound
        return Panicked, how;
      }
      if subLen == |alone| {
        s, how := UpgradeRedisCluster(addrs, FirstIps(addrs, subLen), kind);
        return;
      }
      RepairOnceKeeps(env, State(), addrs, clustered[0].ip);
      s := RepairMembers(addrs, clustered[0].ip);
      if s == Done && kind == Other {
        s := Error;
      }
    }
  }

  /** A repair that looks ids up goes on with a cluster, and looks in what the first pod lists then. */
  ghost predicate AsksFirst(env: Env, w: World, addrs: seq<Address>, conditions: nat, how: Finding) {
    var c := CourseOf(env, w, addrs);
    && c.GoesOn? && conditions < |addrs|
    && ListsThen(env, World(w.roles, c.at + 1), addrs, addrs[0].ip, how)
  }

  lemma NotEmpty(addrs: seq<Address>, ip: string)
    requires ip in AddrIps(addrs)
    ensures addrs != []
  {
  }

  /** After a creation that was not refused the new roles can be listed. */
  lemma CreatedGood(idOf: string -> string, r: Roles, addrs: seq<Address>)
    requires GoodIds(idOf) && GoodAddrs(addrs) && WellFormed(idOf, r, addrs)
    ensures addrs != [] && IpSet(FounderMasters(addrs)) !! r.Members() ==>
              GoodRoles(Created(idOf, r, FounderMasters(addrs)))
    ensures addrs != [] && FounderMasters(addrs) != [] ==> ':' !in FounderMasters(addrs)[0]
  {
    hide WellFormed, AddrIps, FounderMasters, FounderSlaves;
    WellFormedGood(idOf, r, addrs);
    if addrs != [] {
      var ms := FounderMasters(addrs);
      FoundingPlan(idOf, addrs);
      forall ip | ip in AddrIps(addrs) ensures ':' !in ip {
        var i := IndexOf(addrs, ip);
      }
      CreatedMembers(idOf, r, ms);
      if ms != [] { assert ms[0] in IpSet(ms); }
    }
  }

  lemma ListedSnoc(nodes: seq<NodeInfo>, info: NodeInfo)
    ensures ListedIps(nodes + [info]) == ListedIps(nodes) + {Ip(info)}
  {
    hide Ip;
    var all := nodes + [info];
    assert forall i :: 0 <= i < |nodes| ==> all[i] == nodes[i];
    assert all[|nodes|] == info;
  }

  /** A listing has one line per member. */
  lemma ListingLength(idOf: string -> string, nodes: seq<NodeInfo>, r: Roles)
    requires Lists(idOf, nodes, r)
    ensures |nodes| == |r.Members()|
  {
    hide Ip;
    var ips := seq(|nodes|, i requires 0 <= i < |nodes| => Ip(nodes[i]));
    DistinctCount(ips);
    forall ip ensures ip in IpSet(ips) <==> ip in r.Members() {
      if ip in r.Members() {
        var i :| 0 <= i < |nodes| && Ip(nodes[i]) == ip;
        assert ips[i] == ip;
      }
    }
    assert IpSet(ips) == r.Members();
  }
}
