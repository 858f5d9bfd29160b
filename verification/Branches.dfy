/** The repair branches: probe the pods, then create, scale or repair, as what is found suggests. */
module Branches {
  import opened Hosts
  import opened ScalePlan
  import opened Topology
  import opened Repair
  import opened Lookup
  import opened Steps
  import opened Runs
  import opened Passes

  // ---------- probing ----------

  lemma AloneExactly(idOf: string -> string, r: Roles, ip: string)
    requires r.apart == map[]
    ensures Alone(idOf, r, ip) <==> ip !in r.Members() || |r.Members()| == 1
  {
    if ip in r.Members() {
      MembersSeeAll(idOf, r, ip);
    } else {
      OutsiderListsItself(idOf, r, ip);
    }
  }

  ghost predicate AllMembers(r: Roles, addrs: seq<Address>) {
    forall i :: 0 <= i < |addrs| ==> addrs[i].ip in r.Members()
  }

  /** Probing changes nothing, accounts for every address, and finds a clustered one unless all
      are alone. */
  lemma {:induction false} ProbeKeeps(env: Env, w: World, addrs: seq<Address>, clustered: seq<Address>,
                                      alone: seq<Address>)
    requires w.roles.apart == map[] && AllMembers(w.roles, clustered)
    ensures var p := ProbeAll(env, w, addrs, clustered, alone);
            && p.world.roles == w.roles && w.clock <= p.world.clock
            && (p.Probed? ==>
                  && |p.clustered| + |p.alone| == |addrs| + |clustered| + |alone|
                  && AllMembers(w.roles, p.clustered)
                  && (p.clustered == [] <==>
                        clustered == [] && forall i :: 0 <= i < |addrs| ==> Alone(env.idOf, w.roles, addrs[i].ip))
                  && (|w.roles.Members()| != 1 ==> p.alone == alone + Without(addrs, w.roles.Members())))
            && (Quiet(env, w.clock) ==> p.Probed?)
    decreases |addrs|
  {
    hide Without, Roles.Members, Alone;
    if addrs == [] {
      assert Without(addrs, w.roles.Members()) == [] by { NothingWithout(w.roles.Members()); }
    } else {
      var a, rest := addrs[0], addrs[1..];
      assert addrs == [a] + rest;
      AloneExactly(env.idOf, w.roles, a.ip);
      WithoutConcat([a], rest, w.roles.Members());
      WithoutOne(a, w.roles.Members());
      var w' := Ask(env, w).world;
      if Alone(env.idOf, w.roles, a.ip) {
        ProbeKeeps(env, w', rest, clustered, alone + [a]);
      } else {
        ProbeKeeps(env, w', rest, clustered + [a], alone);
      }
    }
  }

  lemma NothingWithout(ips: set<string>)
    ensures Without([], ips) == []
  {
  }

  lemma WithoutOne(a: Address, ips: set<string>)
    ensures Without([a], ips) == if a.ip in ips then [] else [a]
  {
    assert [a][..0] == [];
  }

  /** The probe's verdict on a topology in order. */
  lemma ProbeVerdict(env: Env, w: World, addrs: seq<Address>)
    requires Ready(env, w, addrs)
    ensures var p := ProbeAll(env, w, addrs, [], []);
            && p.world.roles == w.roles && w.clock <= p.world.clock
            && (p.Probed? ==>
                  && |p.clustered| + |p.alone| == |addrs|
                  && (p.clustered == [] <==> |w.roles.Members()| < 2)
                  && (p.clustered != [] ==> p.clustered[0].ip in w.roles.Members())
                  && (|w.roles.Members()| >= 2 ==> |p.alone| == |addrs| - |w.roles.Members()|))
            && (Quiet(env, w.clock) ==> p.Probed?)
  {
    hide Without, WellFormed, GoodAddrs, AddrIps, Quiet, Alone;
    OneClusterOnly(env.idOf, w.roles, addrs);
    ProbeKeeps(env, w, addrs, [], []);
    WellFormedCounts(env.idOf, addrs, w.roles);
    JoiningCount(env.idOf, addrs, w.roles);
    ServedCount(env.idOf, w.roles, addrs);
    var members := w.roles.Members();
    forall i | 0 <= i < |addrs|
      ensures Alone(env.idOf, w.roles, addrs[i].ip) <==> addrs[i].ip !in members || |members| == 1
    {
      AloneExactly(env.idOf, w.roles, addrs[i].ip);
    }
    if |members| >= 2 {
      var m :| m in members;
      var i := IndexOf(addrs, m);
      assert !Alone(env.idOf, w.roles, addrs[i].ip);
    } else if |members| == 0 {
      assert members == {};
    }
  }

  lemma {:induction false} UnhealthyHasMembers(env: Env, w: World, addrs: seq<Address>, clustered: seq<Address>,
                                               alone: seq<Address>)
    requires ProbeAll(env, w, addrs, clustered, alone).Unhealthy?
    ensures w.roles.Members() != {}
    ensures ProbeAll(env, w, addrs, clustered, alone).world.roles == w.roles
    decreases |addrs|
  {
    hide ClusterOf;
    var w' := Ask(env, w).world;
    if Alone(env.idOf, w.roles, addrs[0].ip) {
      UnhealthyHasMembers(env, w', addrs[1..], clustered, alone + [addrs[0]]);
    } else if env.healthy(w.clock) {
      UnhealthyHasMembers(env, w', addrs[1..], clustered + [addrs[0]], alone);
    } else {
      StrangerIsAlone(env.idOf, w.roles, addrs[0].ip);
    }
  }

  lemma StrangerIsAlone(idOf: string -> string, r: Roles, ip: string)
    ensures ip !in r.Members() ==> Alone(idOf, r, ip)
  {
    if ip !in r.Members() {
      OutsiderListsItself(idOf, r, ip);
    }
  }

  // ---------- the creating repair ----------

  lemma SoundAfter(env: Env, w: World, addrs: seq<Address>, mid: World, run: Run)
    requires mid.roles == w.roles && w.clock <= mid.clock
    ensures Sound(env, mid, addrs, run) ==> Sound(env, w, addrs, run)
    ensures Quiet(env, w.clock) ==> Quiet(env, mid.clock)
  {
    hide WellFormed, Extends;
  }

  lemma RebalanceKeeps(env: Env, w: World, addrs: seq<Address>, run: Run)
    requires Sound(env, w, addrs, run)
    ensures Sound(env, w, addrs, Rebalance(env, run))
    ensures Rebalance(env, run).status == run.status || (run.status == Done && Rebalance(env, run).status == Error)
    ensures Quiet(env, w.clock) ==> Rebalance(env, run).status == run.status
  {
    hide WellFormed, Extends;
  }

  lemma MembersBounded(env: Env, w: World, addrs: seq<Address>)
    requires Ready(env, w, addrs)
    ensures |w.roles.Members()| <= |addrs|
    ensures |w.roles.Members()| == 0 <==> w.roles.Members() == {}
  {
    hide WellFormed, GoodAddrs, Without;
    JoiningCount(env.idOf, addrs, w.roles);
    ServedCount(env.idOf, w.roles, addrs);
  }

  /** Where readiness and probe lead a repair: nowhere, into creation, or on with the cluster found. */
  datatype Course = Stops | Creates(at: nat) | GoesOn(at: nat)

  function CourseOf(env: Env, w: World, addrs: seq<Address>): Course {
    if !env.answer(w.clock).Works? || addrs == [] then Stops
    else
      match ProbeAll(env, World(w.roles, w.clock + 1), addrs, [], [])
      case ProbeFailed(_) => Stops
      case Unhealthy(v) => Creates(v.clock)
      case Probed(v, clustered, alone) => if clustered == [] then Creates(v.clock) else GoesOn(v.clock)
  }

  /** The repair creates beside a cluster, and the command takes effect. */
  predicate CreatingBreaks(env: Env, w: World, addrs: seq<Address>) {
    var c := CourseOf(env, w, addrs);
    c.Creates? && CreateSplits(w.roles, addrs) && Takes(env, c.at)
  }

  /** Undisturbed, a repair goes on with a cluster of two members or more. */
  lemma QuietGoesOn(env: Env, w: World, addrs: seq<Address>)
    requires Ready(env, w, addrs) && Quiet(env, w.clock) && |w.roles.Members()| >= 2
    ensures CourseOf(env, w, addrs).GoesOn?
  {
    hide WellFormed, GoodAddrs, ProbeAll, Roles.Members;
    MembersBounded(env, w, addrs);
    ProbeVerdict(env, World(w.roles, w.clock + 1), addrs);
  }

  /** The creating repair keeps the topology in order unless it creates beside a cluster, which an
      undisturbed one does not where the probe finds a cluster. It never hangs, panics only on a single
      pod, and undisturbed it succeeds exactly when there are two members or more, or a creation fits.
      (A cluster of one member looks like no cluster to the probe.) */
  lemma FixCreatingKeeps(env: Env, w: World, addrs: seq<Address>)
    requires Ready(env, w, addrs)
    ensures var run := FixCreating(env, w, addrs);
            && (if CreatingBreaks(env, w, addrs) then run.world.roles.apart != map[] else Sound(env, w, addrs, run))
            && Extends(w.roles, run.world.roles) && w.clock <= run.world.clock
            && run.status != Hung
            && (run.status == Panicked ==> |addrs| == 1)
            && (Quiet(env, w.clock) ==>
                  (run.status == Done <==> |w.roles.Members()| >= 2 || CreationFits(w.roles, addrs)))
  {
    hide WellFormed, GoodAddrs, Quiet, Extends, CreateOnce, RepairOnce, Rebalance, ProbeAll, Complete, Roles.Members,
         CreateSplits, CreationFits, Takes;
    var q := Ask(env, w);
    MembersBounded(env, w, addrs);
    ExtendsReflexive(w.roles);
    QuietFrom(env, w.clock);
    if q.status == Done && addrs != [] {
      ProbeVerdict(env, q.world, addrs);
      var p := ProbeAll(env, q.world, addrs, [], []);
      SoundAfter(env, w, addrs, q.world, Run(q.world, Error));
      if p.Probed? && p.clustered != [] {
        var asked := p.clustered[0].ip;
        RepairOnceKeeps(env, p.world, addrs, asked);
        RebalanceKeeps(env, p.world, addrs, RepairOnce(env, p.world, addrs, asked));
        SoundAfter(env, w, addrs, p.world, Rebalance(env, RepairOnce(env, p.world, addrs, asked)));
      } else {
        CreateOnceKeeps(env, p.world, addrs);
        CreateOnceExact(env, p.world, addrs);
        SoundAfter(env, w, addrs, p.world, CreateOnce(env, p.world, addrs));
      }
    }
    CreationNeedsPods(w.roles, addrs);
  }

  lemma CreationNeedsPods(r: Roles, addrs: seq<Address>)
    ensures CreationFits(r, addrs) ==> addrs != []
  {
    hide FounderMasters, FounderSlaves, Roles.Members, IpSet;
  }

  /** Finding an unhealthy member, which the probe reports as no cluster and no error, sends the repair
      into creation. It leaves the topology alone, and fails, unless no planned master is a member and
      the command takes effect; then it founds a second cluster. */
  lemma UnhealthyMemberExactly(env: Env, w: World, addrs: seq<Address>)
    requires Ready(env, w, addrs) && env.answer(w.clock) == Works && addrs != []
    requires ProbeAll(env, World(w.roles, w.clock + 1), addrs, [], []).Unhealthy?
    ensures var run := FixCreating(env, w, addrs);
            var at := ProbeAll(env, World(w.roles, w.clock + 1), addrs, [], []).world.clock;
            && (run.world.roles != w.roles <==> CreateSplits(w.roles, addrs) && Takes(env, at))
            && (run.world.roles == w.roles ==> run.status == Error)
            && (run.world.roles != w.roles ==> run.world.roles.apart != map[])
  {
    hide CreateOnce, ProbeAll, Roles.Members, RepairOnce, Rebalance, WellFormed, GoodAddrs, FounderMasters;
    var mid := World(w.roles, w.clock + 1);
    UnhealthyHasMembers(env, mid, addrs, [], []);
    CreationChangesExactly(env, ProbeAll(env, mid, addrs, [], []).world, addrs);
    if |addrs| < 2 {
      SingleHasNoMembers(env.idOf, w.roles, addrs);
    }
  }

  // ---------- starting a scale-up over ----------

  /** A scale-up that goes ahead and asks a node outside the cluster that can be introduced to another. */
  predicate UpgradeSplits(idOf: string -> string, r: Roles, addrs: seq<Address>, olds: seq<string>, kind: UpdateType) {
    olds != [] && kind != Other && ScaleSplits(idOf, r, addrs, olds[0])
  }

  /** The pods are ready, and the scale-up gets to its first add-node, which takes effect. */
  predicate UpgradeTakes(env: Env, clock: nat) {
    env.answer(clock).Works? && ScaleTakes(env, clock + 1)
  }

  lemma UpgradeKeeps(env: Env, w: World, addrs: seq<Address>, olds: seq<string>, kind: UpdateType)
    requires Ready(env, w, addrs) && (olds != [] ==> olds[0] in AddrIps(addrs))
    ensures var run := Upgrade(env, w, addrs, olds, kind);
            && (if UpgradeSplits(env.idOf, w.roles, addrs, olds, kind) && UpgradeTakes(env, w.clock)
                then run.world.roles.apart != map[] else Sound(env, w, addrs, run))
            && Extends(w.roles, run.world.roles) && w.clock <= run.world.clock
            && (run.status == Done || run.status == Error)
            && (Quiet(env, w.clock) ==>
                  (run.status == Done <==>
                     && olds != [] && kind != Other
                     && (|| |addrs| == 1
                         || (olds[0] in w.roles.Members() && Served(env.idOf, w.roles) == w.roles.masters))))
  {
    hide WellFormed, GoodAddrs, Quiet, Extends, ScaleOnce, Served, Complete, ScaleSplits, Roles.Members, AddrIps,
         ScaleTakes;
    var q := Ask(env, w);
    ExtendsReflexive(w.roles);
    QuietFrom(env, w.clock);
    if q.status == Done && olds != [] {
      ScaleOnceKeeps(env, q.world, addrs, olds[0]);
      ScaleOnceExtends(env, q.world, addrs, olds[0], Exactly);
      SoundAfter(env, w, addrs, q.world, ScaleOnce(env, q.world, addrs, olds[0]));
    }
  }

  predicate UpgradingSplits(idOf: string -> string, r: Roles, addrs: seq<Address>, conditions: nat, kind: UpdateType) {
    || CreateSplits(r, addrs)
    || (|r.Members()| >= 2 && conditions == |r.Members()| <= |addrs|
        && UpgradeSplits(idOf, r, addrs, FirstIps(addrs, |addrs| - conditions), kind))
  }

  predicate ScalingSplits(idOf: string -> string, r: Roles, addrs: seq<Address>, conditions: nat, kind: UpdateType) {
    || CreateSplits(r, addrs)
    || (|r.Members()| >= 2 && conditions <= |addrs|
        && UpgradeSplits(idOf, r, addrs, FirstIps(addrs, |addrs| - conditions), kind))
  }

  /** The repair splits, by creation or by the scale-up it starts over, and the command takes effect. */
  predicate UpgradingBreaks(env: Env, w: World, addrs: seq<Address>, conditions: nat, kind: UpdateType) {
    || CreatingBreaks(env, w, addrs)
    || (var c := CourseOf(env, w, addrs);
        && c.GoesOn? && conditions == |w.roles.Members()| <= |addrs|
        && UpgradeSplits(env.idOf, w.roles, addrs, FirstIps(addrs, |addrs| - conditions), kind)
        && UpgradeTakes(env, c.at))
  }

  predicate ScalingBreaks(env: Env, w: World, addrs: seq<Address>, conditions: nat, kind: UpdateType) {
    || CreatingBreaks(env, w, addrs)
    || (var c := CourseOf(env, w, addrs);
        && c.GoesOn? && conditions <= |addrs|
        && UpgradeSplits(env.idOf, w.roles, addrs, FirstIps(addrs, |addrs| - conditions), kind)
        && UpgradeTakes(env, c.at))
  }

  /** The upgrading repair: when and how it keeps the topology in order, and exactly when it ends well
      undisturbed. With as many members recorded as there are it starts the scale-up over, which needs a
      new pod, the first pod in the cluster and every existing master with its slave; otherwise it
      repairs; and either way it needs a known strategy type. */
  lemma FixUpgradingKeeps(env: Env, w: World, addrs: seq<Address>, conditions: nat, kind: UpdateType)
    requires Ready(env, w, addrs)
    ensures var run := FixUpgrading(env, w, addrs, conditions, kind);
            && (if UpgradingBreaks(env, w, addrs, conditions, kind) then run.world.roles.apart != map[]
                else Sound(env, w, addrs, run))
            && Extends(w.roles, run.world.roles) && w.clock <= run.world.clock
            && run.status != Hung
            && (run.status == Panicked ==> |addrs| == 1 || conditions > |addrs|)
            && (Quiet(env, w.clock) ==>
                  (run.status == Done <==>
                     if |w.roles.Members()| < 2 then CreationFits(w.roles, addrs)
                     else
                       && conditions <= |addrs| && kind != Other
                       && (conditions == |w.roles.Members()| ==>
                             && conditions < |addrs| && addrs[0].ip in w.roles.Members()
                             && Served(env.idOf, w.roles) == w.roles.masters)))
  {
    hide WellFormed, GoodAddrs, Quiet, Extends, CreateOnce, RepairOnce, Upgrade, ProbeAll, Complete, Served,
         Roles.Members, CreateSplits, CreationFits, UpgradeSplits, UpgradeTakes, Takes, Ips, AddrIps;
    var q := Ask(env, w);
    MembersBounded(env, w, addrs);
    ExtendsReflexive(w.roles);
    QuietFrom(env, w.clock);
    if q.status == Done && addrs != [] {
      ProbeVerdict(env, q.world, addrs);
      var p := ProbeAll(env, q.world, addrs, [], []);
      SoundAfter(env, w, addrs, q.world, Run(q.world, Error));
      if !p.Probed? || p.clustered == [] {
        CreateOnceKeeps(env, p.world, addrs);
        CreateOnceExact(env, p.world, addrs);
        SoundAfter(env, w, addrs, p.world, CreateOnce(env, p.world, addrs));
      } else if conditions <= |addrs| {
        var asked, olds := p.clustered[0].ip, FirstIps(addrs, |addrs| - conditions);
        RepairOnceKeeps(env, p.world, addrs, asked);
        CheckKindKeeps(env, p.world, addrs, RepairOnce(env, p.world, addrs, asked), kind);
        SoundAfter(env, w, addrs, p.world, CheckKind(RepairOnce(env, p.world, addrs, asked), kind));
        UpgradeKeeps(env, p.world, addrs, olds, kind);
        SoundAfter(env, w, addrs, p.world, Upgrade(env, p.world, addrs, olds, kind));
      }
    }
    CreationNeedsPods(w.roles, addrs);
  }

  lemma CheckKindKeeps(env: Env, w: World, addrs: seq<Address>, run: Run, kind: UpdateType)
    requires Sound(env, w, addrs, run)
    ensures Sound(env, w, addrs, CheckKind(run, kind))
  {
    hide WellFormed, Extends;
  }

  /** The scaling branch: the same, and it always starts the scale-up over. */
  lemma FixScalingKeeps(env: Env, w: World, addrs: seq<Address>, conditions: nat, kind: UpdateType)
    requires Ready(env, w, addrs)
    ensures var run := FixScaling(env, w, addrs, conditions, kind);
            && (if ScalingBreaks(env, w, addrs, conditions, kind) then run.world.roles.apart != map[]
                else Sound(env, w, addrs, run))
            && Extends(w.roles, run.world.roles) && w.clock <= run.world.clock
            && run.status != Hung
            && (run.status == Panicked ==> |addrs| == 1 || conditions > |addrs|)
            && (Quiet(env, w.clock) ==>
                  (run.status == Done <==>
                     if |w.roles.Members()| < 2 then CreationFits(w.roles, addrs)
                     else
                       && conditions < |addrs| && kind != Other && addrs[0].ip in w.roles.Members()
                       && Served(env.idOf, w.roles) == w.roles.masters))
  {
    hide WellFormed, GoodAddrs, Quiet, Extends, CreateOnce, Upgrade, ProbeAll, Complete, Served, Roles.Members,
         CreateSplits, CreationFits, UpgradeSplits, UpgradeTakes, Takes, Ips, AddrIps;
    var q := Ask(env, w);
    MembersBounded(env, w, addrs);
    ExtendsReflexive(w.roles);
    QuietFrom(env, w.clock);
    if q.status == Done && addrs != [] {
      ProbeVerdict(env, q.world, addrs);
      var p := ProbeAll(env, q.world, addrs, [], []);
      SoundAfter(env, w, addrs, q.world, Run(q.world, Error));
      if !p.Probed? || p.clustered == [] {
        CreateOnceKeeps(env, p.world, addrs);
        CreateOnceExact(env, p.world, addrs);
        SoundAfter(env, w, addrs, p.world, CreateOnce(env, p.world, addrs));
      } else if conditions <= |addrs| {
        var olds := FirstIps(addrs, |addrs| - conditions);
        UpgradeKeeps(env, p.world, addrs, olds, kind);
        SoundAfter(env, w, addrs, p.world, Upgrade(env, p.world, addrs, olds, kind));
      }
    }
    CreationNeedsPods(w.roles, addrs);
  }
}
