/** Runs of attempts, interrupted anywhere: exactly which attempts can break the topology up, what every
    run keeps, and that one undisturbed repair completes what a run leaves behind. */
module Convergence {
  import opened Hosts
  import opened ScalePlan
  import opened Topology
  import opened Repair
  import opened Lookup
  import opened Steps
  import opened Runs
  import opened Passes
  import opened Branches
  import opened Naming

  // ---------- attempts ----------

  /** One attempt by the operator, with the pods it finds; `olds` are the endpoints before a scale-up,
      `conditions` the number of members last recorded, `how` the way ids are found. */
  datatype Attempt =
    | Create(addrs: seq<Address>)
    | Scale(addrs: seq<Address>, olds: seq<string>, kind: UpdateType, how: Finding)
    | RepairCreating(addrs: seq<Address>)
    | RepairScaling(addrs: seq<Address>, conditions: nat, kind: UpdateType, how: Finding)
    | RepairUpgrading(addrs: seq<Address>, conditions: nat, kind: UpdateType, how: Finding)

  function Perform(env: Env, w: World, e: Attempt): Run {
    match e
    case Create(addrs) => CreateOnce(env, w, addrs)
    case Scale(addrs, olds, kind, how) => Upgrade(env, w, addrs, olds, kind, how)
    case RepairCreating(addrs) => FixCreating(env, w, addrs)
    case RepairScaling(addrs, conditions, kind, how) => FixScaling(env, w, addrs, conditions, kind, how)
    case RepairUpgrading(addrs, conditions, kind, how) => FixUpgrading(env, w, addrs, conditions, kind, how)
  }

  /** The endpoints before a scale-up are still there. */
  ghost predicate OldPodsRemain(e: Attempt) {
    e.Scale? && e.olds != [] ==> e.olds[0] in AddrIps(e.addrs)
  }

  /** Ids are found ideally, or in what the asked node lists then and with clear names. */
  ghost predicate LooksRight(env: Env, w: World, e: Attempt) {
    match e
    case Scale(addrs, olds, _, how) => UpgradeLooksRight(env, w, addrs, olds, how)
    case RepairScaling(addrs, conditions, _, how) => RepairLooksRight(env, w, addrs, conditions, how)
    case RepairUpgrading(addrs, conditions, _, how) => RepairLooksRight(env, w, addrs, conditions, how)
    case _ => true
  }

  /** From these roles the attempt may leave a second cluster: a creation none of whose planned masters
      is a member, or a scale-up that asks a node outside which can be introduced to another one. */
  predicate Splits(idOf: string -> string, r: Roles, e: Attempt) {
    match e
    case Create(addrs) => CreateSplits(r, addrs)
    case Scale(addrs, olds, kind, _) => UpgradeSplits(idOf, r, addrs, olds, kind)
    case RepairCreating(addrs) => CreateSplits(r, addrs)
    case RepairScaling(addrs, conditions, kind, _) => ScalingSplits(idOf, r, addrs, conditions, kind)
    case RepairUpgrading(addrs, conditions, kind, _) => UpgradingSplits(idOf, r, addrs, conditions, kind)
  }

  /** The attempt gets to a command that splits, and that takes effect. */
  predicate Breaks(env: Env, w: World, e: Attempt) {
    match e
    case Create(addrs) => CreateSplits(w.roles, addrs) && Takes(env, w.clock)
    case Scale(addrs, olds, kind, _) =>
      UpgradeSplits(env.idOf, w.roles, addrs, olds, kind) && UpgradeTakes(env, w.clock)
    case RepairCreating(addrs) => CreatingBreaks(env, w, addrs)
    case RepairScaling(addrs, conditions, kind, _) => ScalingBreaks(env, w, addrs, conditions, kind)
    case RepairUpgrading(addrs, conditions, kind, _) => UpgradingBreaks(env, w, addrs, conditions, kind)
  }

  /** An attempt leaves a second cluster if it breaks the topology up; if not it keeps it in order and
      reports success only when it is complete. None hangs; it panics only on a single pod or on fewer
      pods than recorded. */
  lemma PerformKeeps(env: Env, w: World, e: Attempt)
    requires Ready(env, w, e.addrs) && OldPodsRemain(e) && LooksRight(env, w, e)
    ensures if Breaks(env, w, e) then Perform(env, w, e).world.roles.apart != map[]
            else Sound(env, w, e.addrs, Perform(env, w, e))
    ensures Perform(env, w, e).status != Hung
    ensures Perform(env, w, e).status == Panicked ==>
      |e.addrs| == 1 || ((e.RepairScaling? || e.RepairUpgrading?) && e.conditions > |e.addrs|)
  {
    hide WellFormed, GoodAddrs, Extends, CreateOnce, Upgrade, FixCreating, FixScaling, FixUpgrading, Complete,
         AddrIps, CreateSplits, UpgradeSplits, CreatingBreaks, ScalingBreaks, UpgradingBreaks, UpgradeTakes, Takes,
         UpgradeLooksRight, RepairLooksRight;
    match e
    case Create(addrs) =>
      CreateOnceKeeps(env, w, addrs);
      CreateOnceExact(env, w, addrs);
    case Scale(addrs, olds, kind, how) =>
      UpgradeAsIdeal(env, w, addrs, olds, kind, how);
      UpgradeKeeps(env, w, addrs, olds, kind);
    case RepairCreating(addrs) => FixCreatingKeeps(env, w, addrs);
    case RepairScaling(addrs, conditions, kind, how) =>
      RepairAsIdeal(env, w, addrs, conditions, kind, how);
      FixScalingKeeps(env, w, addrs, conditions, kind);
    case RepairUpgrading(addrs, conditions, kind, how) =>
      RepairAsIdeal(env, w, addrs, conditions, kind, how);
      FixUpgradingKeeps(env, w, addrs, conditions, kind);
  }

  // ---------- the attempts that may split do ----------

  /** Where a repair goes on there are two members or more. */
  lemma GoesOnWithMembers(env: Env, w: World, addrs: seq<Address>)
    requires Ready(env, w, addrs) && CourseOf(env, w, addrs).GoesOn?
    ensures |w.roles.Members()| >= 2
  {
    hide WellFormed, GoodAddrs, ProbeAll, Roles.Members;
    ProbeVerdict(env, World(w.roles, w.clock + 1), addrs);
  }

  /** Only an attempt that splits can break. */
  lemma BreaksOnlyIfSplits(env: Env, w: World, e: Attempt)
    requires Ready(env, w, e.addrs) && Breaks(env, w, e)
    ensures Splits(env.idOf, w.roles, e)
  {
    hide WellFormed, GoodAddrs, CourseOf, UpgradeSplits, CreateSplits, Roles.Members;
    if CourseOf(env, w, e.addrs).GoesOn? {
      GoesOnWithMembers(env, w, e.addrs);
    }
  }

  /** Every command works and no member is healthy. */
  ghost predicate Sick(env: Env) {
    forall t: nat :: env.answer(t) == Works && !env.healthy(t)
  }

  /** A probe under which nobody is healthy reports nobody clustered. */
  lemma {:induction false} SickProbe(env: Env, w: World, addrs: seq<Address>, alone: seq<Address>)
    requires Sick(env)
    ensures var p := ProbeAll(env, w, addrs, [], alone);
            !p.ProbeFailed? && p.world.roles == w.roles && (p.Probed? ==> p.clustered == [])
    decreases |addrs|
  {
    hide Alone;
    if addrs != [] && Alone(env.idOf, w.roles, addrs[0].ip) {
      SickProbe(env, Ask(env, w).world, addrs[1..], alone + [addrs[0]]);
    }
  }

  /** So every repair ends in creation, which takes effect. */
  lemma SickCreates(env: Env, w: World, addrs: seq<Address>)
    requires Sick(env) && addrs != []
    ensures CourseOf(env, w, addrs).Creates? && Takes(env, CourseOf(env, w, addrs).at) && Takes(env, w.clock)
  {
    hide ProbeAll;
    SickProbe(env, World(w.roles, w.clock + 1), addrs, []);
  }

  lemma QuietTakes(env: Env, clock: nat)
    requires Quiet(env, clock)
    ensures Takes(env, clock) && UpgradeTakes(env, clock)
  {
  }

  lemma CreateSplitsPods(r: Roles, addrs: seq<Address>)
    requires CreateSplits(r, addrs)
    ensures addrs != []
  {
  }

  /** An attempt that splits breaks when nothing goes wrong, or nothing but that every member is
      unhealthy. */
  lemma SplitsBreak(env: Env, w: World, e: Attempt)
    requires Ready(env, w, e.addrs) && OldPodsRemain(e) && Splits(env.idOf, w.roles, e)
    requires if CreateSplits(w.roles, e.addrs) && !e.Scale? then Sick(env) else Quiet(env, w.clock)
    ensures Breaks(env, w, e)
  {
    hide WellFormed, GoodAddrs, CreateSplits, UpgradeSplits, CourseOf, Quiet, Takes, UpgradeTakes, Roles.Members,
         AddrIps;
    var addrs := e.addrs;
    if CreateSplits(w.roles, addrs) && !e.Scale? {
      CreateSplitsPods(w.roles, addrs);
      SickCreates(env, w, addrs);
    } else {
      QuietTakes(env, w.clock);
      if !e.Scale? {
        QuietGoesOn(env, w, addrs);
        CourseLater(env, w, addrs);
        QuietLater(env, w.clock, CourseOf(env, w, addrs).at);
        QuietTakes(env, CourseOf(env, w, addrs).at);
      }
    }
  }

  lemma CourseLater(env: Env, w: World, addrs: seq<Address>)
    requires Ready(env, w, addrs) && CourseOf(env, w, addrs).GoesOn?
    ensures w.clock <= CourseOf(env, w, addrs).at
  {
    hide WellFormed, GoodAddrs, ProbeAll, Roles.Members;
    ProbeVerdict(env, World(w.roles, w.clock + 1), addrs);
  }

  /** The same attempt, finding ids in another way. */
  function With(e: Attempt, how: Finding): (r: Attempt)
    ensures r.addrs == e.addrs
  {
    if e.Scale? || e.RepairScaling? || e.RepairUpgrading? then e.(how := how) else e
  }

  /** Exactly the attempts that split can leave the topology out of order. */
  lemma SplitsExactly(idOf: string -> string, r: Roles, e: Attempt)
    requires GoodIds(idOf) && GoodAddrs(e.addrs) && WellFormed(idOf, r, e.addrs) && OldPodsRemain(e)
    ensures (forall env: Env, w: World, how: Finding ::
               env.idOf == idOf && w.roles == r && LooksRight(env, w, With(e, how)) ==>
                 WellFormed(idOf, Perform(env, w, With(e, how)).world.roles, e.addrs))
       <==> !Splits(idOf, r, e)
  {
    hide WellFormed, GoodAddrs, Perform, CreateSplits, Splits, OldPodsRemain, Breaks, LooksRight, With;
    if Splits(idOf, r, e) {
      var healthy := e.Scale? || !CreateSplits(r, e.addrs);
      var env, w, e' := Env(idOf, _ => Works, _ => healthy), World(r, 0), With(e, Exactly);
      WithKeeps(idOf, r, e, Exactly);
      IdealLooksRight(env, w, e);
      SplitsBreak(env, w, e');
      PerformKeeps(env, w, e');
      OneClusterOrNot(idOf, Perform(env, w, e').world.roles, e.addrs);
    } else {
      forall env: Env, w: World, how: Finding
        | env.idOf == idOf && w.roles == r && LooksRight(env, w, With(e, how))
        ensures WellFormed(idOf, Perform(env, w, With(e, how)).world.roles, e.addrs)
      {
        WithKeeps(idOf, r, e, how);
        if Breaks(env, w, With(e, how)) {
          BreaksOnlyIfSplits(env, w, With(e, how));
        }
        PerformKeeps(env, w, With(e, how));
      }
    }
  }

  lemma WithKeeps(idOf: string -> string, r: Roles, e: Attempt, how: Finding)
    ensures Splits(idOf, r, With(e, how)) == Splits(idOf, r, e)
    ensures OldPodsRemain(With(e, how)) == OldPodsRemain(e) && With(e, how).Scale? == e.Scale?
  {
  }

  lemma IdealLooksRight(env: Env, w: World, e: Attempt)
    ensures LooksRight(env, w, With(e, Exactly))
  {
  }

  lemma OneClusterOrNot(idOf: string -> string, r: Roles, addrs: seq<Address>)
    requires r.apart != map[]
    ensures !WellFormed(idOf, r, addrs)
  {
  }

  // ---------- runs ----------

  /** A run: attempts one after the other, whatever interrupts them. */
  function PerformAll(env: Env, w: World, run: seq<Attempt>): World
    decreases |run|
  {
    if run == [] then w else PerformAll(env, Perform(env, w, run[0]).world, run[1..])
  }

  function Pods(run: seq<Attempt>): seq<seq<Address>> {
    seq(|run|, i requires 0 <= i < |run| => run[i].addrs)
  }

  /** Pods are only ever added between attempts. */
  ghost predicate GrowingRun(addrs: seq<Address>, run: seq<Attempt>) {
    Growing(addrs, Pods(run)) && forall i :: 0 <= i < |run| ==> OldPodsRemain(run[i])
  }

  /** No attempt of the run breaks the topology up. */
  ghost predicate NeverBreaks(env: Env, w: World, run: seq<Attempt>)
    decreases |run|
  {
    run == [] || (!Breaks(env, w, run[0]) && NeverBreaks(env, Perform(env, w, run[0]).world, run[1..]))
  }

  /** Every attempt up to the first that breaks looks ids up right. */
  ghost predicate AllLookRight(env: Env, w: World, run: seq<Attempt>)
    decreases |run|
  {
    run == [] ||
    (LooksRight(env, w, run[0])
     && (Breaks(env, w, run[0]) || AllLookRight(env, Perform(env, w, run[0]).world, run[1..])))
  }

  lemma FirstAttempt(addrs: seq<Address>, run: seq<Attempt>)
    requires GrowingRun(addrs, run) && run != []
    ensures GoodAddrs(run[0].addrs) && AddrIps(addrs) <= AddrIps(run[0].addrs) && OldPodsRemain(run[0])
    ensures GrowingRun(run[0].addrs, run[1..])
    ensures LastPods(addrs, Pods(run)) == LastPods(run[0].addrs, Pods(run[1..]))
  {
    hide GoodAddrs, AddrIps, OldPodsRemain;
    assert Pods(run)[1..] == Pods(run[1..]);
    assert forall i :: 0 <= i < |run[1..]| ==> run[1..][i] == run[i + 1];
  }

  /** Probing changes nothing, whatever the topology. */
  lemma {:induction false} ProbeOnlyReads(env: Env, w: World, addrs: seq<Address>, clustered: seq<Address>,
                                          alone: seq<Address>)
    ensures ProbeAll(env, w, addrs, clustered, alone).world.roles == w.roles
    decreases |addrs|
  {
    hide Alone;
    if addrs != [] {
      var w' := Ask(env, w).world;
      ProbeOnlyReads(env, w', addrs[1..], clustered, alone + [addrs[0]]);
      ProbeOnlyReads(env, w', addrs[1..], clustered + [addrs[0]], alone);
    }
  }

  lemma PerformExtends(env: Env, w: World, e: Attempt)
    ensures Extends(w.roles, Perform(env, w, e).world.roles)
  {
    hide Extends, CreateOnce, RepairOnce, ScaleOnce, ProbeAll;
    ExtendsReflexive(w.roles);
    var addrs := e.addrs;
    ProbeOnlyReads(env, World(w.roles, w.clock + 1), addrs, [], []);
    var p := ProbeAll(env, World(w.roles, w.clock + 1), addrs, [], []);
    CreateOnceExtends(env, w, addrs);
    CreateOnceExtends(env, p.world, addrs);
    if p.Probed? && p.clustered != [] {
      RepairOnceExtends(env, p.world, addrs, p.clustered[0].ip);
    }
    if e.Scale? && e.olds != [] {
      ScaleOnceExtends(env, World(w.roles, w.clock + 1), addrs, e.olds[0], e.how);
    } else if (e.RepairScaling? || e.RepairUpgrading?) && e.conditions < |addrs| {
      var asked := FirstIps(addrs, |addrs| - e.conditions)[0];
      ScaleOnceExtends(env, World(w.roles, p.world.clock + 1), addrs, asked, e.how);
    }
  }

  /** Over every run whatsoever no member changes its role or master, and what is apart stays apart. */
  lemma {:induction false} RunExtends(env: Env, w: World, run: seq<Attempt>)
    ensures Extends(w.roles, PerformAll(env, w, run).roles)
    decreases |run|
  {
    hide Extends, Perform;
    ExtendsReflexive(w.roles);
    if run != [] {
      var w' := Perform(env, w, run[0]).world;
      PerformExtends(env, w, run[0]);
      RunExtends(env, w', run[1..]);
      ExtendsTransitive(w.roles, w'.roles, PerformAll(env, w', run[1..]).roles);
    }
  }

  lemma ApartForever(env: Env, w: World, run: seq<Attempt>)
    requires w.roles.apart != map[]
    ensures PerformAll(env, w, run).roles.apart != map[]
  {
    hide PerformAll;
    RunExtends(env, w, run);
    assert w.roles.apart.Keys != {};
  }

  /** So a second cluster is for ever: no run, repairs included, puts the topology in order again. */
  lemma SplitIsForever(env: Env, w: World, run: seq<Attempt>, addrs: seq<Address>)
    requires w.roles.apart != map[]
    ensures !WellFormed(env.idOf, PerformAll(env, w, run).roles, addrs)
  {
    hide PerformAll;
    ApartForever(env, w, run);
  }

  /** Run invariant: over any run, interrupted anywhere, with pods added in between, the topology is in order
      at the end - one cluster, disjoint roles, every slave with a master of its own - if and only if no
      attempt breaks it up. */
  lemma {:induction false} RunKeeps(env: Env, w: World, addrs: seq<Address>, run: seq<Attempt>)
    requires Ready(env, w, addrs) && GrowingRun(addrs, run) && AllLookRight(env, w, run)
    ensures var w' := PerformAll(env, w, run);
            && (if NeverBreaks(env, w, run) then Ready(env, w', LastPods(addrs, Pods(run)))
                else w'.roles.apart != map[])
            && (WellFormed(env.idOf, w'.roles, LastPods(addrs, Pods(run))) <==> NeverBreaks(env, w, run))
            && Extends(w.roles, w'.roles)
    decreases |run|
  {
    hide WellFormed, GoodAddrs, Extends, Perform, AddrIps, GrowingRun, Breaks, Pods, LooksRight, Complete,
         OldPodsRemain;
    RunExtends(env, w, run);
    if run == [] {
      NoPods();
    } else {
      var e, rest := run[0], run[1..];
      FirstAttempt(addrs, run);
      GrowKeeps(env.idOf, w.roles, addrs, e.addrs);
      PerformKeeps(env, w, e);
      var w' := Perform(env, w, e).world;
      if Breaks(env, w, e) {
        ApartForever(env, w', rest);
        OneClusterOrNot(env.idOf, PerformAll(env, w', rest).roles, LastPods(addrs, Pods(run)));
      } else {
        RunKeeps(env, w', e.addrs, rest);
      }
    }
  }

  lemma NoPods()
    ensures Pods([]) == []
  {
  }

  // ---------- repairs complete what a run leaves behind ----------

  predicate IsRepair(e: Attempt) {
    e.RepairCreating? || e.RepairScaling? || e.RepairUpgrading?
  }

  /** What a repair that is not disturbed needs. Without a cluster it creates, which needs two pods; a cluster
      of one member looks like no cluster to the probe, and is never repaired. To start a scale-up over it
      needs a new pod, the first pod in the cluster and every master with its slave, and the scaling and
      upgrading repairs a known strategy type. */
  predicate Mends(idOf: string -> string, r: Roles, e: Attempt) {
    if |r.Members()| < 2 then IsRepair(e) && r.Members() == {} && |e.addrs| >= 2
    else
      match e
      case RepairCreating(_) => true
      case RepairScaling(addrs, conditions, kind, _) =>
        kind != Other && StartsOver(idOf, r, addrs, conditions)
      case RepairUpgrading(addrs, conditions, kind, _) =>
        && kind != Other && conditions <= |addrs|
        && (conditions == |r.Members()| ==> StartsOver(idOf, r, addrs, conditions))
      case _ => false
  }

  predicate StartsOver(idOf: string -> string, r: Roles, addrs: seq<Address>, conditions: nat) {
    conditions < |addrs| && addrs[0].ip in r.Members() && Served(idOf, r) == r.masters
  }

  lemma StartsOverKeeps(idOf: string -> string, r: Roles, addrs: seq<Address>, conditions: nat, kind: UpdateType)
    requires StartsOver(idOf, r, addrs, conditions)
    ensures !UpgradeSplits(idOf, r, addrs, FirstIps(addrs, |addrs| - conditions), kind)
  {
    hide PlanVia, Roles.Members, Served;
  }

  /** Undisturbed, a repair of one member or none creates. */
  lemma QuietCreates(env: Env, w: World, addrs: seq<Address>)
    requires Ready(env, w, addrs) && Quiet(env, w.clock) && |w.roles.Members()| < 2 && addrs != []
    ensures CourseOf(env, w, addrs).Creates? && Takes(env, CourseOf(env, w, addrs).at)
  {
    hide WellFormed, GoodAddrs, ProbeAll, Roles.Members;
    ProbeVerdict(env, World(w.roles, w.clock + 1), addrs);
  }

  /** Beside a cluster of one member a creation that fits splits; beside none it fits whenever it can. */
  lemma FitsOrSplits(r: Roles, addrs: seq<Address>)
    ensures CreationFits(r, addrs) && r.Members() != {} ==> CreateSplits(r, addrs)
    ensures r.Members() == {} ==> !CreateSplits(r, addrs) && (CreationFits(r, addrs) <==> |addrs| >= 2)
    ensures CreationFits(r, addrs) ==> addrs != []
  {
    hide FounderMasters, FounderSlaves, IpSet, Roles.Members;
  }

  /** When a repair reports success, undisturbed. */
  lemma RepairDoneExactly(env: Env, w: World, e: Attempt)
    requires Ready(env, w, e.addrs) && IsRepair(e) && LooksRight(env, w, e) && Quiet(env, w.clock)
    ensures Perform(env, w, e).status == Done <==>
              if |w.roles.Members()| < 2 then CreationFits(w.roles, e.addrs) else Mends(env.idOf, w.roles, e)
  {
    hide WellFormed, GoodAddrs, Extends, FixCreating, FixScaling, FixUpgrading, Complete, CreationFits, Quiet,
         CreatingBreaks, ScalingBreaks, UpgradingBreaks, RepairLooksRight, Served, Roles.Members;
    match e
    case RepairCreating(addrs) => FixCreatingKeeps(env, w, addrs);
    case RepairScaling(addrs, conditions, kind, how) =>
      RepairAsIdeal(env, w, addrs, conditions, kind, how);
      FixScalingKeeps(env, w, addrs, conditions, kind);
    case RepairUpgrading(addrs, conditions, kind, how) =>
      RepairAsIdeal(env, w, addrs, conditions, kind, how);
      FixUpgradingKeeps(env, w, addrs, conditions, kind);
  }

  /** Undisturbed, a repair of a cluster of two members or more breaks nothing if it has what it needs. */
  lemma MendsUnbroken(env: Env, w: World, e: Attempt)
    requires Ready(env, w, e.addrs) && Quiet(env, w.clock) && |w.roles.Members()| >= 2 && Mends(env.idOf, w.roles, e)
    ensures !Breaks(env, w, e)
  {
    hide WellFormed, GoodAddrs, CourseOf, UpgradeSplits, UpgradeTakes, StartsOver, CreateSplits, Roles.Members, Quiet,
         Ips, AddrIps;
    QuietGoesOn(env, w, e.addrs);
    if !e.RepairCreating? && e.conditions <= |e.addrs| && StartsOver(env.idOf, w.roles, e.addrs, e.conditions) {
      StartsOverKeeps(env.idOf, w.roles, e.addrs, e.conditions, e.kind);
    }
  }

  /** Without a cluster nothing can break; beside one of one member a creation that fits does. */
  lemma FewMembersBreak(env: Env, w: World, e: Attempt)
    requires Ready(env, w, e.addrs) && Quiet(env, w.clock) && |w.roles.Members()| < 2 && IsRepair(e)
    requires CreationFits(w.roles, e.addrs)
    ensures Breaks(env, w, e) <==> w.roles.Members() != {}
  {
    hide WellFormed, GoodAddrs, CourseOf, UpgradeSplits, UpgradeTakes, CreateSplits, CreationFits, Takes, Roles.Members,
         Quiet, Ips, AddrIps;
    FitsOrSplits(w.roles, e.addrs);
    QuietCreates(env, w, e.addrs);
  }

  /** Undisturbed, a repair reports success on a complete topology if and only if it has what it needs. */
  lemma MendsExactly(env: Env, w: World, e: Attempt)
    requires Ready(env, w, e.addrs) && IsRepair(e) && LooksRight(env, w, e) && Quiet(env, w.clock)
    ensures var run := Perform(env, w, e);
            run.status == Done && Complete(env.idOf, run.world.roles, e.addrs) <==> Mends(env.idOf, w.roles, e)
  {
    hide WellFormed, GoodAddrs, Extends, Perform, LooksRight, Breaks, Complete, CreationFits, StartsOver, Quiet,
         Roles.Members, AddrIps;
    PerformKeeps(env, w, e);
    RepairDoneExactly(env, w, e);
    FitsOrSplits(w.roles, e.addrs);
    MembersBounded(env, w, e.addrs);
    if |w.roles.Members()| >= 2 {
      if Mends(env.idOf, w.roles, e) {
        MendsUnbroken(env, w, e);
      }
    } else if CreationFits(w.roles, e.addrs) {
      FewMembersBreak(env, w, e);
      if w.roles.Members() != {} {
        ApartIncomplete(env.idOf, Perform(env, w, e).world.roles, e.addrs);
      }
    }
  }

  /** Crash convergence: start from nothing, let any run of creations, scale-ups and repairs happen, each cut
      short anywhere. Then one undisturbed repair completes the topology if and only if no attempt of the run
      broke it up and the repair has what it needs: exactly ⌊n/2⌋ masters, each with exactly one slave, and
      n mod 2 addresses outside, after which the plan is empty. */
  lemma CrashConvergence(env: Env, run: seq<Attempt>, e: Attempt)
    requires GoodIds(env.idOf) && GoodAddrs(e.addrs) && GrowingRun([], run) && IsRepair(e)
    requires AddrIps(LastPods([], Pods(run))) <= AddrIps(e.addrs)
    requires AllLookRight(env, World(OneCluster({}, map[]), 0), run)
    requires var w := PerformAll(env, World(OneCluster({}, map[]), 0), run);
             Quiet(env, w.clock) && LooksRight(env, w, e)
    ensures var start := World(OneCluster({}, map[]), 0);
            var w := PerformAll(env, start, run);
            var fixed := Perform(env, w, e);
            && ((fixed.status == Done && Complete(env.idOf, fixed.world.roles, e.addrs)) <==>
                  (NeverBreaks(env, start, run) && Mends(env.idOf, w.roles, e)))
            && Extends(w.roles, fixed.world.roles)
            && (Complete(env.idOf, fixed.world.roles, e.addrs) ==>
                  && |AddrIps(e.addrs) - fixed.world.roles.Members()| == |e.addrs| % 2
                  && PlanFor(env.idOf, e.addrs, fixed.world.roles) == Planned([], [], []))
  {
    hide WellFormed, Extends, AddrIps, PerformAll, Perform, PlanFor, GrowingRun, Quiet, Roles.Members, GoodAddrs,
         NeverBreaks, AllLookRight, Pods, Mends, IsRepair, LooksRight, Complete;
    var start := World(OneCluster({}, map[]), 0);
    NothingWellFormed(env.idOf);
    RunKeeps(env, start, [], run);
    var w := PerformAll(env, start, run);
    var r := Perform(env, w, e).world.roles;
    PerformExtends(env, w, e);
    if NeverBreaks(env, start, run) {
      GrowKeeps(env.idOf, w.roles, LastPods([], Pods(run)), e.addrs);
      MendsExactly(env, w, e);
    } else {
      ApartExtends(w.roles, r);
      ApartIncomplete(env.idOf, r, e.addrs);
    }
    if Complete(env.idOf, r, e.addrs) {
      CompleteIsStable(env.idOf, e.addrs, r);
    }
  }

  lemma ApartIncomplete(idOf: string -> string, r: Roles, addrs: seq<Address>)
    requires r.apart != map[]
    ensures !Complete(idOf, r, addrs)
  {
  }

  lemma ApartExtends(r: Roles, r': Roles)
    requires Extends(r, r') && r.apart != map[]
    ensures r'.apart != map[]
  {
    assert r.apart.Keys != {};
  }

  lemma NothingWellFormed(idOf: string -> string)
    ensures WellFormed(idOf, OneCluster({}, map[]), []) && GoodAddrs([]) && AddrIps([]) == {}
  {
    var r := OneCluster({}, map[]);
    assert r.parentOf.Values == {} && r.parentOf.Keys == {};
  }

  // ---------- while no pod is added ----------

  /** A creation or the repair of one, for these pods. */
  predicate CreatesFor(addrs: seq<Address>, e: Attempt) {
    (e.Create? || e.RepairCreating?) && e.addrs == addrs
  }

  /** Nothing is there yet, or the planned masters are. */
  predicate FoundersIn(r: Roles, addrs: seq<Address>) {
    r.Members() == {} || IpSet(FounderMasters(addrs)) <= r.Members()
  }

  lemma FoundersStopCreation(idOf: string -> string, r: Roles, addrs: seq<Address>)
    requires GoodIds(idOf) && GoodAddrs(addrs) && FoundersIn(r, addrs)
    ensures !CreateSplits(r, addrs)
  {
    hide FounderMasters, FounderSlaves;
    if |addrs| >= 2 {
      FounderNamed(idOf, addrs);
    }
  }

  /** The plan of creation is the same every time, so its masters are there from the first time on. */
  lemma FoundersStay(env: Env, w: World, addrs: seq<Address>, e: Attempt)
    requires Ready(env, w, addrs) && CreatesFor(addrs, e) && FoundersIn(w.roles, addrs)
    ensures !Breaks(env, w, e) && LooksRight(env, w, e)
    ensures FoundersIn(Perform(env, w, e).world.roles, addrs)
  {
    hide WellFormed, GoodAddrs, FounderMasters, FounderSlaves, CreateSplits, CreateOnce, RepairOnce, Rebalance,
         ProbeAll, Extends, Roles.Members, IpSet, Complete;
    FoundersStopCreation(env.idOf, w.roles, addrs);
    PerformKeeps(env, w, e);
    ExtendsMembers(w.roles, Perform(env, w, e).world.roles);
    if w.roles.Members() == {} {
      FoundingAttempt(env, w, e);
    }
  }

  /** From nothing, an attempt creates all planned masters or nothing. */
  lemma FoundingAttempt(env: Env, w: World, e: Attempt)
    requires Ready(env, w, e.addrs) && CreatesFor(e.addrs, e) && w.roles.Members() == {}
    ensures var r := Perform(env, w, e).world.roles; r.Members() == {} || IpSet(FounderMasters(e.addrs)) <= r.Members()
  {
    hide WellFormed, GoodAddrs, FounderMasters, FounderSlaves, CreateOnce, RepairOnce, Rebalance, ProbeAll, IpSet;
    var addrs := e.addrs;
    if e.Create? {
      FoundingCreation(env, w, addrs);
    } else if addrs != [] && env.answer(w.clock).Works? {
      var mid := World(w.roles, w.clock + 1);
      ProbeVerdict(env, mid, addrs);
      FoundingCreation(env, ProbeAll(env, mid, addrs, [], []).world, addrs);
    }
  }

  lemma FoundingCreation(env: Env, w: World, addrs: seq<Address>)
    requires Ready(env, w, addrs) && w.roles.Members() == {}
    ensures var r := CreateOnce(env, w, addrs).world.roles;
            r.Members() == {} || IpSet(FounderMasters(addrs)) <= r.Members()
  {
    hide WellFormed, GoodAddrs, FounderMasters, FounderSlaves, IpSet, AttachFounders, Created, Extends,
         Roles.Members;
    if |addrs| >= 2 {
      CreateSteps(env, w, addrs);
      hide CreateOnce;
      CreationTakes(env, w, addrs);
      var ms := FounderMasters(addrs);
      CreatedMembers(env.idOf, w.roles, ms);
      var created := World(Created(env.idOf, w.roles, ms), w.clock + 2);
      ExtendsMembers(created.roles, AttachFounders(env, created, FounderSlaves(addrs), ms).world.roles);
    } else {
      CreateOnceKeeps(env, w, addrs);
      FewPodsNoSplit(w.roles, addrs);
      hide CreateOnce, Complete;
      SingleHasNoMembers(env.idOf, CreateOnce(env, w, addrs).world.roles, addrs);
    }
  }

  lemma FewPodsNoSplit(r: Roles, addrs: seq<Address>)
    requires |addrs| < 2
    ensures !CreateSplits(r, addrs)
  {
  }

  /** While no pod is added, creations and their repairs never break the topology up, whatever interrupts them and
      whoever is unhealthy. */
  lemma {:induction false} SamePodsKeep(env: Env, w: World, addrs: seq<Address>, run: seq<Attempt>)
    requires Ready(env, w, addrs) && FoundersIn(w.roles, addrs)
    requires forall i :: 0 <= i < |run| ==> CreatesFor(addrs, run[i])
    ensures NeverBreaks(env, w, run)
    ensures var w' := PerformAll(env, w, run); Ready(env, w', addrs) && FoundersIn(w'.roles, addrs)
    decreases |run|
  {
    hide WellFormed, GoodAddrs, Perform, Breaks, FoundersIn, Extends, Complete, LooksRight;
    if run != [] {
      FoundersStay(env, w, addrs, run[0]);
      PerformKeeps(env, w, run[0]);
      assert forall i :: 0 <= i < |run[1..]| ==> run[1..][i] == run[i + 1];
      SamePodsKeep(env, Perform(env, w, run[0]).world, addrs, run[1..]);
    }
  }

  /** So with four pods or more, the same throughout, one undisturbed repair completes whatever any run
      of creations and their repairs leaves behind. */
  lemma SamePodsConverge(env: Env, run: seq<Attempt>, addrs: seq<Address>)
    requires GoodIds(env.idOf) && GoodAddrs(addrs) && |addrs| >= 4
    requires forall i :: 0 <= i < |run| ==> CreatesFor(addrs, run[i])
    requires Quiet(env, PerformAll(env, World(OneCluster({}, map[]), 0), run).clock)
    ensures var w := PerformAll(env, World(OneCluster({}, map[]), 0), run);
            var fixed := FixCreating(env, w, addrs);
            && fixed.status == Done
            && Complete(env.idOf, fixed.world.roles, addrs)
            && Extends(w.roles, fixed.world.roles)
  {
    hide WellFormed, GoodAddrs, PerformAll, FixCreating, Extends, Complete, FounderMasters, FounderSlaves, AddrIps,
         Quiet;
    var start := World(OneCluster({}, map[]), 0);
    NothingWellFormed(env.idOf);
    GrowKeeps(env.idOf, start.roles, [], addrs);
    SamePodsKeep(env, start, addrs, run);
    var w := PerformAll(env, start, run);
    FixCreatingKeeps(env, w, addrs);
    FoundersStopCreation(env.idOf, w.roles, addrs);
    FounderCount(env.idOf, w.roles, addrs);
  }

  lemma FounderCount(idOf: string -> string, r: Roles, addrs: seq<Address>)
    requires GoodIds(idOf) && GoodAddrs(addrs) && addrs != [] && FoundersIn(r, addrs)
    ensures r.Members() == {} || |r.Members()| >= |addrs| / 2
  {
    hide FounderMasters, FounderSlaves, IpSet;
    FoundedWellFormed(idOf, addrs);
    if r.Members() != {} {
      Hosts.SubsetSize(IpSet(FounderMasters(addrs)), r.Members());
    }
  }
}
