/** The reconciler as a step machine: each command against the cluster either works, fails without
    effect, or takes effect and still reports failure, and every failure ends the pass. */
module Steps {
  import opened Hosts
  import opened ScalePlan
  import opened Topology
  import opened Repair
  import opened Lookup
  import CreationPlan

  datatype Answer = Works | FailsBefore | FailsAfter

  /** How an upgrade is to hand out slots. */
  datatype UpdateType = AssignReceive | AutoReceive | Other

  /** The outside world: each node's id, and for each command in turn its answer and whether a
      probed member reports a healthy cluster. */
  datatype Env = Env(idOf: string -> string, answer: nat -> Answer, healthy: nat -> bool)

  /** The live roles, and how many commands have been issued. */
  datatype World = World(roles: Roles, clock: nat)

  /** How a pass ends. The operator recovers panics; a hung pass never ends. */
  datatype Status = Done | Error | Panicked | Hung

  datatype Run = Run(world: World, status: Status)

  /** A command that only reads: the status check and the node listing, readiness, rebalancing. */
  function Ask(env: Env, w: World): Run {
    Run(World(w.roles, w.clock + 1), if env.answer(w.clock).Works? then Done else Error)
  }

  /** A command that changes roles; redis-trib refuses an illegal one. */
  function Change(env: Env, w: World, legal: bool, after: Roles): Run {
    if !legal || env.answer(w.clock).FailsBefore? then Run(World(w.roles, w.clock + 1), Error)
    else Run(World(after, w.clock + 1), if env.answer(w.clock).Works? then Done else Error)
  }

  /** ip becomes a master in the cluster of the node it is introduced to. A node outside every cluster
      thereby starts one: the first, or one apart. */
  function Joined(idOf: string -> string, r: Roles, via: string, ip: string): Roles {
    if via in r.Members() then
      var c := ClusterOf(idOf, r, via);
      Roles(r.masters + {ip}, r.parentOf, if c == "" then r.apart else r.apart[idOf(ip) := c])
    else
      Roles(r.masters + {via, ip}, r.parentOf,
            if r.Members() == {} then r.apart else r.apart[idOf(via) := via][idOf(ip) := via])
  }

  function Attached(r: Roles, ip: string, id: string): Roles {
    Roles(r.masters, r.parentOf[ip := id], r.apart)
  }

  /** The named nodes form a cluster of masters: the first, or one apart. */
  function Created(idOf: string -> string, r: Roles, ms: seq<string>): Roles {
    Roles(r.masters + IpSet(ms), r.parentOf,
          if r.Members() == {} || ms == [] then r.apart else r.apart + map m | m in IpSet(ms) :: idOf(m) := ms[0])
  }

  /** `addMasterNodeToRedisCluster`: each is introduced to the node `via`. */
  function AddMasters(env: Env, w: World, via: string, ips: seq<string>): Run
    decreases |ips|
  {
    if ips == [] then Run(w, Done)
    else
      var q := Ask(env, w);
      if q.status != Done then q
      else
        var c := Change(env, q.world, ips[0] !in w.roles.Members(), Joined(env.idOf, w.roles, via, ips[0]));
        if c.status != Done then c else AddMasters(env, c.world, via, ips[1..])
  }

  /** The loop of `addSlaveToClusterMaster`. */
  function AttachSlaves(env: Env, w: World, slaves: seq<string>, ids: seq<string>): Run
    requires |slaves| == |ids|
    decreases |slaves|
  {
    if slaves == [] then Run(w, Done)
    else
      var q := Ask(env, w);
      if q.status != Done then q
      else
        var legal := slaves[0] !in w.roles.Members() && ids[0] in MasterIds(env.idOf, w.roles);
        var c := Change(env, q.world, legal, Attached(w.roles, slaves[0], ids[0]));
        if c.status != Done then c else AttachSlaves(env, c.world, slaves[1..], ids[1..])
  }

  /** `addSlaveToClusterMaster`, which first compares the three lengths. */
  function AddSlaves(env: Env, w: World, slaves: seq<string>, masters: seq<string>, ids: seq<string>): Run {
    if |slaves| != |masters| || |masters| != |ids| then Run(w, Error)
    else AttachSlaves(env, w, slaves, ids)
  }

  /** The part repairs and scale-ups share, all through one asked node: list the nodes, plan, add the
      masters, list again. */
  function Promoted(env: Env, w: World, addrs: seq<Address>, asked: string): Run {
    var q := Ask(env, w);
    if q.status != Done then q
    else
      match PlanVia(env.idOf, addrs, w.roles, asked)
      case IndexPanic => Run(q.world, Panicked)
      case NeverReturns => Run(q.world, Hung)
      case Planned(ms, ss, ps) =>
        var a := AddMasters(env, q.world, asked, ms);
        if a.status != Done then a else Ask(env, a.world)
  }

  /** One repair: after the masters, attach each planned slave to its planned parent. */
  function RepairOnce(env: Env, w: World, addrs: seq<Address>, asked: string): Run {
    var b := Promoted(env, w, addrs, asked);
    if b.status != Done then b
    else
      var o := PlanVia(env.idOf, addrs, w.roles, asked);
      if !o.Planned? || o.slaves == [] then b
      else
        var ids := IdsOf(env.idOf, Seen(env.idOf, b.world.roles, asked), o.parents);
        AddSlaves(env, b.world, o.slaves, o.parents, ids)
  }

  /** The rest of `scaleRedisCluster` once the new masters' node ids are looked up. */
  function AttachToNew(env: Env, w: World, ms: seq<string>, ss: seq<string>, ids: seq<string>): Run {
    if |ids| != |ms| then Run(w, Error) else AddSlaves(env, w, ss, ms, ids)
  }

  /** `scaleRedisCluster`: slave i is attached to the id found for new master i. The asked node is the
      first old endpoint. */
  function ScaleOnce(env: Env, w: World, addrs: seq<Address>, asked: string, how: Finding := Exactly): Run {
    var b := Promoted(env, w, addrs, asked);
    if b.status != Done then b
    else
      var o := PlanVia(env.idOf, addrs, w.roles, asked);
      if !o.Planned? then b
      else
        var ids := FindIds(how, env.idOf, Seen(env.idOf, b.world.roles, asked), o.masters);
        AttachToNew(env, b.world, o.masters, o.slaves, ids)
  }

  /** `createAndInitRedisCluster`. The command names the planned masters only, so only they can make it
      refuse. */
  function CreateOnce(env: Env, w: World, addrs: seq<Address>): Run {
    var q := Ask(env, w);
    if q.status != Done then q
    else if addrs == [] then Run(q.world, Error)
    else
      var ms, ss := Ips(CreationPlan.Masters(addrs)), Ips(CreationPlan.Slaves(addrs));
      var c := Change(env, q.world, IpSet(ms) !! w.roles.Members(), Created(env.idOf, w.roles, ms));
      if c.status != Done then c
      else if ms == [] then Run(c.world, Panicked)
      else AttachFounders(env, c.world, ss, ms)
  }

  /** The rest of creation once the masters exist, through the first of them. */
  function AttachFounders(env: Env, w: World, ss: seq<string>, ms: seq<string>): Run
    requires ms != []
  {
    var n := Ask(env, w);
    if n.status != Done then n
    else
      var seen := Seen(env.idOf, n.world.roles, ms[0]);
      if |seen.Members()| != |ss| then Run(n.world, Error)
      else
        var s := AddSlaves(env, n.world, ss, ms, IdsOf(env.idOf, seen, ms));
        if s.status != Done then s else Ask(env, s.world)
  }

  /** A node that knows no other. */
  predicate Alone(idOf: string -> string, r: Roles, ip: string) {
    |Seen(idOf, r, ip).Members()| == 1
  }

  datatype Probe =
    | ProbeFailed(world: World)
    | Unhealthy(world: World)
    | Probed(world: World, clustered: seq<Address>, alone: seq<Address>)

  /** `getIsClusteredAndOnlyKnownSelfAddress`. For an unhealthy member the source returns empty
      lists and a nil error. */
  function ProbeAll(env: Env, w: World, addrs: seq<Address>, clustered: seq<Address>, alone: seq<Address>): Probe
    decreases |addrs|
  {
    if addrs == [] then Probed(w, clustered, alone)
    else
      var q := Ask(env, w);
      if q.status != Done then ProbeFailed(q.world)
      else if Alone(env.idOf, w.roles, addrs[0].ip) then
        ProbeAll(env, q.world, addrs[1..], clustered, alone + [addrs[0]])
      else if !env.healthy(w.clock) then Unhealthy(q.world)
      else ProbeAll(env, q.world, addrs[1..], clustered + [addrs[0]], alone)
  }

  /** Waiting for the cluster and rebalancing its slots. */
  function Rebalance(env: Env, r: Run): Run {
    if r.status != Done then r
    else
      var q := Ask(env, r.world);
      if q.status != Done then q else Ask(env, q.world)
  }

  /** The repair branch for a cluster still being created. */
  function FixCreating(env: Env, w: World, addrs: seq<Address>): Run {
    var q := Ask(env, w);
    if q.status != Done then q
    else if addrs == [] then Run(q.world, Error)
    else
      match ProbeAll(env, q.world, addrs, [], [])
      case ProbeFailed(w') => Run(w', Error)
      case Unhealthy(w') => CreateOnce(env, w', addrs)
      case Probed(w', clustered, alone) =>
        if |alone| == |addrs| || clustered == [] then CreateOnce(env, w', addrs)
        else Rebalance(env, RepairOnce(env, w', addrs, clustered[0].ip))
  }

  /** The old endpoints as the repair branches see them: the first so many addresses. */
  function FirstIps(addrs: seq<Address>, k: nat): (r: seq<string>)
    requires k <= |addrs|
    ensures |r| == k
    ensures k > 0 ==> r[0] == addrs[0].ip && r[0] in AddrIps(addrs)
  {
    assert k > 0 ==> Ips(addrs)[0] == addrs[0].ip;
    Ips(addrs[..k])
  }

  /** The repair branch for a cluster being scaled, up to the slot migration. `conditions` is the
      number of members last recorded. */
  function FixUpgrading(env: Env, w: World, addrs: seq<Address>, conditions: nat, kind: UpdateType,
                        how: Finding := Exactly): Run
  {
    var q := Ask(env, w);
    if q.status != Done then q
    else if addrs == [] then Run(q.world, Error)
    else
      match ProbeAll(env, q.world, addrs, [], [])
      case ProbeFailed(w') => Run(w', Error)
      case Unhealthy(w') => CreateOnce(env, w', addrs)
      case Probed(w', clustered, alone) =>
        if |alone| == |addrs| || clustered == [] then CreateOnce(env, w', addrs)
        else if conditions > |addrs| then Run(w', Panicked)
        else if |addrs| - conditions == |alone| then
          Upgrade(env, w', addrs, FirstIps(addrs, |addrs| - conditions), kind, how)
        else CheckKind(RepairOnce(env, w', addrs, clustered[0].ip), kind)
  }

  /** The choice of the slot migration, which an unknown strategy type fails. */
  function CheckKind(run: Run, kind: UpdateType): Run {
    if run.status == Done && kind == Other then run.(status := Error) else run
  }

  /** The branch for a scale-up that was cut short before it began: start it over. */
  function FixScaling(env: Env, w: World, addrs: seq<Address>, conditions: nat, kind: UpdateType,
                      how: Finding := Exactly): Run
  {
    var q := Ask(env, w);
    if q.status != Done then q
    else if addrs == [] then Run(q.world, Error)
    else
      match ProbeAll(env, q.world, addrs, [], [])
      case ProbeFailed(w') => Run(w', Error)
      case Unhealthy(w') => CreateOnce(env, w', addrs)
      case Probed(w', clustered, alone) =>
        if |alone| == |addrs| || clustered == [] then CreateOnce(env, w', addrs)
        else if conditions > |addrs| then Run(w', Panicked)
        else Upgrade(env, w', addrs, FirstIps(addrs, |addrs| - conditions), kind, how)
  }

  /** `upgradeRedisCluster` up to the slot migration: refuse an empty list of old endpoints, wait for
      the pods, refuse an unknown strategy type, then scale through the first old endpoint. */
  function Upgrade(env: Env, w: World, addrs: seq<Address>, olds: seq<string>, kind: UpdateType,
                   how: Finding := Exactly): Run
  {
    if olds == [] then Run(w, Error)
    else
      var q := Ask(env, w);
      if q.status != Done then q
      else if kind == Other then Run(q.world, Error)
      else ScaleOnce(env, q.world, addrs, olds[0], how)
  }
}
