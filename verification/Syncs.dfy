/** What syncs do over time to the record and to the live cluster, while no more pods are asked for than the
    StatefulSet has. */
module Syncs {
  import opened Wrappers
  import opened Hosts
  import opened Topology
  import opened Repair
  import opened Lookup
  import opened Steps
  import opened Runs
  import opened Passes
  import opened Branches
  import opened Naming
  import opened Convergence
  import opened FailingInputs
  import opened StatusWrites
  import opened StatusHistory
  import Reshard

  /** The recorded versions of the object, and the live cluster. */
  datatype Cluster = Cluster(versions: seq<Version>, world: World)

  /** What is asked for: the replicas, and the update strategy; and the StatefulSet, if there is one. */
  datatype Spec = Spec(replicas: nat, sts: Option<Reshard.StatefulSet>, kind: UpdateType, strategies: nat)

  function Decided(spec: Spec): Reshard.SyncAction {
    Reshard.Decision(spec.replicas, spec.sts, spec.kind, spec.strategies)
  }

  /** Every sync checks the cluster. */
  predicate Checking(spec: Spec) {
    Decided(spec) == Reshard.CheckStatus
  }

  /** A sync from a copy of version `from`: the pods it finds, the endpoints before a scale-up, how it looks ids
      up, what its first write says, sees and meets, whether Service and StatefulSet can be written, and what
      the rest of it records. Or anybody's change to the rest of the object. */
  datatype Happening =
    | Sync(from: nat, addrs: seq<Address>, olds: seq<string>, how: Finding, write: Write, applied: bool,
           later: seq<Version>)
    | Touch

  function Last(c: Cluster): StatusWrites.Status
    requires c.versions != []
  {
    c.versions[|c.versions| - 1].status
  }

  /** What a check that starts from this status does to the live cluster. The first command, unless the
      cluster is only health-checked, waits for the pods. */
  function Check(env: Env, w: World, s: StatusWrites.Status, spec: Spec, addrs: seq<Address>, how: Finding): Run {
    match Decide(s, spec.replicas, env.answer(w.clock).Works?)
    case FixCreating => Perform(env, w, RepairCreating(addrs))
    case FixScaling => Perform(env, w, RepairScaling(addrs, |s.conditions|, spec.kind, how))
    case FixUpgrading => Perform(env, w, RepairUpgrading(addrs, |s.conditions|, spec.kind, how))
    case _ => Ask(env, w)
  }

  /** A check that finds the pods not ready records a failure; one that leaves the cluster alone nothing. */
  function Checked(env: Env, c: Cluster, spec: Spec, e: Happening): Cluster
    requires e.Sync? && e.from < |c.versions|
  {
    var s := c.versions[e.from].status;
    var versions :=
      match Decide(s, spec.replicas, env.answer(c.world.clock).Works?)
      case RecordFailed => Record(c.versions, e.from, s, e.write.(phase := Failed, snapshot := None))
      case LeaveAlone => c.versions
      case _ => c.versions + e.later;
    Cluster(versions, Check(env, c.world, s, spec, e.addrs, e.how).world)
  }

  /** A pass that starts with a write of its phase, and goes on only if that reports success. */
  function Started(c: Cluster, e: Happening, w: Write, run: Run): Cluster
    requires e.Sync? && e.from < |c.versions|
  {
    var s := c.versions[e.from].status;
    var versions := Record(c.versions, e.from, s, w);
    if Goes(c.versions, e.from, s, w) && e.applied then Cluster(versions + e.later, run.world)
    else Cluster(versions, c.world)
  }

  /** `sync`: create, check, scale up, refuse or do nothing. */
  function Happen(env: Env, c: Cluster, spec: Spec, e: Happening): (r: Cluster)
    requires c.versions != []
    ensures r.versions != []
  {
    match e
    case Touch => c.(versions := c.versions + [Version(Last(c), None)])
    case Sync(from, addrs, olds, how, write, _, _) =>
      if from >= |c.versions| then c
      else
        match Decided(spec)
        case CreateCluster =>
          Started(c, e, write.(phase := Creating, reason := ""), CreateOnce(env, c.world, addrs))
        case CheckStatus => Checked(env, c, spec, e)
        case UpgradeCluster =>
          Started(c, e, write.(phase := Scaling, reason := ""), Upgrade(env, c.world, addrs, olds, spec.kind, how))
        case Nothing => c
        case _ => c.(versions := Record(c.versions, from, c.versions[from].status, write.(phase := Running)))
  }

  function HappenAll(env: Env, c: Cluster, spec: Spec, events: seq<Happening>): (r: Cluster)
    requires c.versions != []
    ensures r.versions != []
    decreases |events|
  {
    if events == [] then c else HappenAll(env, Happen(env, c, spec, events[0]), spec, events[1..])
  }

  // ---------- creating, scaling up, refusing ----------

  /** The first sync of a cluster: without a StatefulSet, or one that has pods, it records that the cluster is
      being created, unless that is on record, and undisturbed, with two pods or more, it completes it. */
  lemma FirstSyncCreates(env: Env, c: Cluster, spec: Spec, e: Happening)
    requires spec.sts.None? || spec.sts.value.statusReplicas == 0
    requires c.versions != [] && e.Sync? && e.from + 1 == |c.versions| && e.write.apiUp && e.applied
    requires Ready(env, c.world, e.addrs) && c.world.roles.Members() == {} && |e.addrs| >= 2
    requires Quiet(env, c.world.clock)
    ensures var c', creating := Happen(env, c, spec, e), StatusWrites.Status(0, "", Creating, []);
            && Complete(env.idOf, c'.world.roles, e.addrs)
            && c'.versions == (if DeepEqual(creating, Last(c)) then c.versions
                               else c.versions + [Version(creating, Some(Creating))]) + e.later
  {
    hide WellFormed, GoodAddrs, CreateOnce, Complete, DeepEqual, CreationFits, Roles.Members, Quiet, CreateSplits;
    Reshard.DecisionExactly(spec.replicas, spec.sts, spec.kind, spec.strategies);
    CreateOnceExact(env, c.world, e.addrs);
    CreateOnceKeeps(env, c.world, e.addrs);
    FitsOrSplits(c.world.roles, e.addrs);
  }

  /** A sync asked for more pods than the StatefulSet has, with automatic assignment or with one strategy for
      every two new pods, records that it scales and, undisturbed, completes the cluster if and only if the
      first old endpoint is a member and every existing master has its slave, or there is only one pod. */
  lemma UpgradeSyncExactly(env: Env, c: Cluster, spec: Spec, e: Happening)
    requires spec.sts.Some? && spec.sts.value.statusReplicas > 0 && !spec.sts.value.deleting
    requires spec.replicas > spec.sts.value.replicas
    requires spec.kind == AutoReceive
             || (spec.kind == AssignReceive && spec.strategies == (spec.replicas - spec.sts.value.replicas) / 2)
    requires c.versions != [] && e.Sync? && e.from + 1 == |c.versions|
    requires e.write.apiUp && e.write.sts.Some? && e.applied
    requires Ready(env, c.world, e.addrs) && Quiet(env, c.world.clock)
    requires e.olds != [] ==> e.olds[0] in AddrIps(e.addrs)
    requires LooksRight(env, c.world, Scale(e.addrs, e.olds, spec.kind, e.how))
    ensures var c', run := Happen(env, c, spec, e), Upgrade(env, c.world, e.addrs, e.olds, spec.kind, e.how);
            && c'.world == run.world
            && (run.status == Done ==> Complete(env.idOf, c'.world.roles, e.addrs))
            && (run.status == Done <==>
                  e.olds != []
                  && (|e.addrs| == 1
                      || (e.olds[0] in c.world.roles.Members()
                          && Served(env.idOf, c.world.roles) == c.world.roles.masters)))
            && (Last(c).phase != Scaling ==>
                  && |c'.versions| == |c.versions| + 1 + |e.later|
                  && c'.versions[|c.versions|].status.phase == Scaling
                  && multiset(c'.versions[|c.versions|].status.conditions) == multiset(Last(c).conditions))
  {
    hide WellFormed, GoodAddrs, Upgrade, Complete, SortByName, Roles.Members, Quiet, UpgradeSplits, UpgradeTakes,
         Served, AddrIps, UpgradeLooksRight;
    Reshard.DecisionExactly(spec.replicas, spec.sts, spec.kind, spec.strategies);
    UpgradeAsIdeal(env, c.world, e.addrs, e.olds, spec.kind, e.how);
    UpgradeKeeps(env, c.world, e.addrs, e.olds, spec.kind);
    if UpgradeSplits(env.idOf, c.world.roles, e.addrs, e.olds, spec.kind) {
      SplitsOutside(env, c.world, e.addrs, e.olds, spec.kind);
    }
    SortPermutes(Last(c).conditions);
  }

  /** A sync that reads a version which is no longer current, or does not reach the API, starts nothing: unless
      its phase is on record already in what it read, its first write is refused, and the pass ends there. */
  lemma StaleSyncStartsNothing(env: Env, c: Cluster, spec: Spec, e: Happening)
    requires c.versions != [] && e.Sync? && e.from < |c.versions|
    requires e.from + 1 < |c.versions| || !e.write.apiUp
    requires Decided(spec) == Reshard.CreateCluster ==> c.versions[e.from].status.phase != Creating
    requires Decided(spec) == Reshard.UpgradeCluster ==> c.versions[e.from].status.phase != Scaling
    requires Decided(spec) != Reshard.CheckStatus
    ensures Happen(env, c, spec, e) == c
  {
    hide SortByName, CreateOnce, Upgrade, Reshard.Decision;
  }

  lemma SplitsOutside(env: Env, w: World, addrs: seq<Address>, olds: seq<string>, kind: UpdateType)
    requires Ready(env, w, addrs) && UpgradeSplits(env.idOf, w.roles, addrs, olds, kind)
    ensures olds[0] !in w.roles.Members() && |addrs| != 1
  {
    hide WellFormed, GoodAddrs, PlanVia, Roles.Members;
    if |addrs| < 2 {
      SingleHasNoMembers(env.idOf, w.roles, addrs);
    }
  }

  /** A sync that refuses the upgrade leaves the live cluster alone, and so does one of a cluster whose
      StatefulSet is being deleted, which leaves the record alone as well. */
  lemma RefusedLeavesCluster(env: Env, c: Cluster, spec: Spec, e: Happening)
    requires spec.sts.Some? && spec.sts.value.statusReplicas > 0 && spec.replicas > spec.sts.value.replicas
    requires c.versions != [] && e.Sync?
    ensures spec.sts.value.deleting ==> Happen(env, c, spec, e) == c
    ensures spec.kind == Other
            || (spec.kind == AssignReceive && spec.strategies != (spec.replicas - spec.sts.value.replicas) / 2) ==>
              var c' := Happen(env, c, spec, e);
              && c'.world == c.world
              && (c'.versions == c.versions
                  || (|c'.versions| == |c.versions| + 1
                      && Last(c').phase == Running && Last(c').reason == e.write.reason))
  {
    hide SortByName, DeepEqual;
    Reshard.DecisionExactly(spec.replicas, spec.sts, spec.kind, spec.strategies);
  }

  // ---------- clusters that checks leave alone ----------

  predicate LeftAlone(s: StatusWrites.Status, replicas: nat) {
    Decide(s, replicas, true) == LeaveAlone
  }

  /** Exactly the clusters a check leaves alone if the pods are ready: those recorded as Running with another
      number of members than asked for, and those in a phase no check deals with. */
  lemma LeftAloneExactly(s: StatusWrites.Status, replicas: nat)
    ensures LeftAlone(s, replicas) <==>
      (s.phase == Running && |s.conditions| != replicas) || s.phase == NoPhase || s.phase == Deleting
  {
  }

  /** The sync reads the current version, finds the pods not ready, and its write goes through. */
  predicate Fails(env: Env, c: Cluster, e: Happening) {
    e.Sync? && !env.answer(c.world.clock).Works? && e.from + 1 == |c.versions|
    && e.write.sts.Some? && e.write.apiUp
  }

  /** The number of happenings before the first sync that fails, all of them if none does. */
  function FirstFailure(env: Env, c: Cluster, spec: Spec, events: seq<Happening>): (n: nat)
    requires c.versions != []
    ensures n <= |events|
    decreases |events|
  {
    if events == [] || Fails(env, c, events[0]) then 0
    else 1 + FirstFailure(env, Happen(env, c, spec, events[0]), spec, events[1..])
  }

  /** From version k on nothing else has been recorded, and no sync starts from an older version. */
  predicate Since(c: Cluster, k: nat) {
    k < |c.versions| && forall i :: k <= i < |c.versions| ==> c.versions[i].status == Last(c)
  }

  predicate ReadsSince(events: seq<Happening>, k: nat) {
    forall i :: 0 <= i < |events| ==> events[i].Sync? ==> k <= events[i].from
  }

  predicate Untouched(c: Cluster, c': Cluster)
    requires c.versions != []
  {
    c'.world.roles == c.world.roles && c'.versions != [] && Last(c') == Last(c)
  }

  /** The roles are as they were, and the failure is recorded with the conditions there were. */
  predicate FailedFrom(c: Cluster, c': Cluster)
    requires c.versions != []
  {
    && c'.world.roles == c.world.roles && c'.versions != []
    && Last(c').phase == Failed && Last(c').conditions == SortByName(Last(c).conditions)
  }

  lemma CheckedUntouched(env: Env, c: Cluster, spec: Spec, k: nat, e: Happening)
    requires e.Sync? && k <= e.from < |c.versions| && Since(c, k) && LeftAlone(Last(c), spec.replicas)
    ensures var c' := Checked(env, c, spec, e);
            if Fails(env, c, e) then FailedFrom(c, c') else Untouched(c, c') && Since(c', k)
  {
    hide SortByName, Perform;
  }

  lemma HappenUntouched(env: Env, c: Cluster, spec: Spec, k: nat, e: Happening)
    requires Checking(spec) && Since(c, k) && LeftAlone(Last(c), spec.replicas) && (e.Sync? ==> k <= e.from)
    ensures var c' := Happen(env, c, spec, e);
            if Fails(env, c, e) then FailedFrom(c, c') else Untouched(c, c') && Since(c', k)
  {
    hide SortByName, Checked, Started, CreateOnce, Upgrade, Reshard.Decision, LeftAlone, Record;
    if e.Sync? && e.from < |c.versions| {
      CheckedUntouched(env, c, spec, k, e);
    }
  }

  lemma HappenFirst(env: Env, c: Cluster, spec: Spec, events: seq<Happening>, i: nat)
    requires c.versions != [] && 0 < i <= |events|
    ensures HappenAll(env, c, spec, events[..i])
         == HappenAll(env, Happen(env, c, spec, events[0]), spec, events[1..][..i - 1])
  {
    hide Happen;
    assert events[..i][1..] == events[1..][..i - 1];
  }

  /** A cluster that checks leave alone stays as it is, roles and record, until the first sync that finds the
      pods not ready and gets that recorded; that one records a failure with the conditions there were, and
      changes no role. */
  lemma {:induction false} LeftAloneUntilFailure(env: Env, c: Cluster, spec: Spec, k: nat, events: seq<Happening>)
    requires Checking(spec) && Since(c, k) && LeftAlone(Last(c), spec.replicas) && ReadsSince(events, k)
    ensures var n := FirstFailure(env, c, spec, events);
            && (forall i :: 0 <= i <= n ==> Untouched(c, HappenAll(env, c, spec, events[..i])))
            && (n < |events| ==> FailedFrom(c, HappenAll(env, c, spec, events[..n + 1])))
    decreases |events|
  {
    hide Happen, Fails, Checking, SortByName, LeftAlone;
    if events != [] {
      var c' := Happen(env, c, spec, events[0]);
      HappenUntouched(env, c, spec, k, events[0]);
      HappenFirst(env, c, spec, events, 1);
      if !Fails(env, c, events[0]) {
        var n, rest := FirstFailure(env, c', spec, events[1..]), events[1..];
        assert forall i :: 0 <= i < |rest| ==> rest[i] == events[i + 1];
        LeftAloneUntilFailure(env, c', spec, k, rest);
        forall i | 0 < i <= n + 1 ensures Untouched(c, HappenAll(env, c, spec, events[..i])) {
          HappenFirst(env, c, spec, events, i);
        }
        if n < |rest| {
          HappenFirst(env, c, spec, events, n + 2);
        }
      }
    }
  }

  /** So it stays as it is throughout if and only if there is no such sync. */
  lemma LeftAloneThroughoutExactly(env: Env, c: Cluster, spec: Spec, k: nat, events: seq<Happening>)
    requires Checking(spec) && Since(c, k) && LeftAlone(Last(c), spec.replicas) && ReadsSince(events, k)
    ensures (forall i :: 0 <= i <= |events| ==> Untouched(c, HappenAll(env, c, spec, events[..i]))) <==>
      FirstFailure(env, c, spec, events) == |events|
  {
    hide HappenAll, FirstFailure, Checking, SortByName, ReadsSince;
    LeftAloneUntilFailure(env, c, spec, k, events);
    var n := FirstFailure(env, c, spec, events);
    assert n < |events| ==> !Untouched(c, HappenAll(env, c, spec, events[..n + 1]));
  }

  // ---------- the repair that follows a failure ----------

  /** The check of a failed cluster with recorded members, its pods ready, is the upgrading repair. */
  lemma FailedIsUpgraded(env: Env, c: Cluster, spec: Spec, e: Happening)
    requires Checking(spec) && c.versions != [] && e.Sync? && e.from + 1 == |c.versions|
    requires Last(c).phase == Failed && Last(c).conditions != [] && env.answer(c.world.clock).Works?
    ensures var run := Check(env, c.world, Last(c), spec, e.addrs, e.how);
            && run == Perform(env, c.world, RepairUpgrading(e.addrs, |Last(c).conditions|, spec.kind, e.how))
            && Happen(env, c, spec, e).world == run.world
  {
    hide Perform, Reshard.Decision, Record, Started, CreateOnce, Upgrade;
  }

  /** A check of a cluster that needs repair, its pods ready and nothing disturbed, completes it if and only if
      the repair of its phase has what it needs: a cluster recorded as Creating, or as Failed without members,
      is repaired as one being created; one recorded as Scaling has its scale-up started over; one recorded as
      Upgrading, or as Failed with members, is repaired as one being upgraded. */
  lemma CheckRepairsExactly(env: Env, c: Cluster, spec: Spec, e: Happening)
    requires c.versions != [] && e.Sync? && e.from + 1 == |c.versions|
    requires spec.sts.Some? && spec.sts.value.statusReplicas > 0 && spec.replicas <= spec.sts.value.replicas
    requires Ready(env, c.world, e.addrs) && Quiet(env, c.world.clock)
    requires LooksRight(env, c.world, RepairUpgrading(e.addrs, |Last(c).conditions|, spec.kind, e.how))
    ensures var s, conditions := Last(c), |Last(c).conditions|;
            var c', run := Happen(env, c, spec, e), Check(env, c.world, s, spec, e.addrs, e.how);
            var done := run.status == Done && Complete(env.idOf, c'.world.roles, e.addrs);
            && c'.world == run.world
            && (s.phase == Scaling ==>
                  (done <==> Mends(env.idOf, c.world.roles, RepairScaling(e.addrs, conditions, spec.kind, e.how))))
            && ((s.phase == Creating && conditions != spec.replicas) || (s.phase == Failed && conditions == 0) ==>
                  (done <==> Mends(env.idOf, c.world.roles, RepairCreating(e.addrs))))
            && ((s.phase == Upgrading && conditions != spec.replicas) || (s.phase == Failed && conditions > 0) ==>
                  (done <==> Mends(env.idOf, c.world.roles, RepairUpgrading(e.addrs, conditions, spec.kind, e.how))))
  {
    hide WellFormed, GoodAddrs, Complete, Quiet, Perform, Mends, LooksRight;
    Reshard.DecisionExactly(spec.replicas, spec.sts, spec.kind, spec.strategies);
    QuietFrom(env, c.world.clock);
    var s, conditions := Last(c), |Last(c).conditions|;
    DecideExactly(s, spec.replicas, true);
    hide Decide;
    RepairsLookAlike(env, c.world, e.addrs, conditions, spec.kind, e.how);
    MendsExactly(env, c.world, RepairCreating(e.addrs));
    MendsExactly(env, c.world, RepairScaling(e.addrs, conditions, spec.kind, e.how));
    MendsExactly(env, c.world, RepairUpgrading(e.addrs, conditions, spec.kind, e.how));
  }

  lemma RepairsLookAlike(env: Env, w: World, addrs: seq<Address>, conditions: nat, kind: UpdateType, how: Finding)
    requires LooksRight(env, w, RepairUpgrading(addrs, conditions, kind, how))
    ensures LooksRight(env, w, RepairScaling(addrs, conditions, kind, how))
    ensures LooksRight(env, w, RepairCreating(addrs))
  {
  }

  /** A scale-up that fails is recorded as Running with the members it reached. It stays as it is up to the
      first sync that finds the pods not ready and gets that recorded. If the next sync is not disturbed, it
      completes the cluster if and only if the upgrading repair has what it needs for the roles the scale-up
      left and the members recorded then. */
  lemma FailedScaleUpRepairedExactly(env: Env, versions: seq<Version>, from: nat, was: StatusWrites.Status, w: Write,
                                     world: World, spec: Spec, events: seq<Happening>, e: Happening)
    requires Checking(spec) && from < |versions| && w.phase == Running && Record(versions, from, was, w) != versions
    requires w.snapshot.Some? && |w.snapshot.value| !in {0, spec.replicas} && ReadsSince(events, |versions|)
    requires FirstFailure(env, Cluster(Record(versions, from, was, w), world), spec, events) == |events| - 1
    requires var c := HappenAll(env, Cluster(Record(versions, from, was, w), world), spec, events);
             && e.Sync? && e.from + 1 == |c.versions| && Ready(env, c.world, e.addrs) && Quiet(env, c.world.clock)
             && LooksRight(env, c.world, RepairUpgrading(e.addrs, |w.snapshot.value|, spec.kind, e.how))
    ensures var c := HappenAll(env, Cluster(Record(versions, from, was, w), world), spec, events);
            var run := Check(env, c.world, Last(c), spec, e.addrs, e.how);
            && c.world.roles == world.roles
            && Last(c).phase == Failed && |Last(c).conditions| == |w.snapshot.value|
            && Happen(env, c, spec, e).world == run.world
            && (run.status == Done && Complete(env.idOf, run.world.roles, e.addrs) <==>
                  Mends(env.idOf, world.roles, RepairUpgrading(e.addrs, |w.snapshot.value|, spec.kind, e.how)))
  {
    hide HappenAll, Happen, Check, Checking, SortByName, Record, FirstFailure, ReadsSince, Mends, Perform, LooksRight,
         GoodAddrs, WellFormed, Complete, Quiet, Fails;
    var c0 := Cluster(Record(versions, from, was, w), world);
    FailedScaleUpChecked(versions, from, was, w, spec.replicas, true);
    var c := HappenAll(env, c0, spec, events);
    LeftAloneUntilFailure(env, c0, spec, |versions|, events);
    assert events[..|events|] == events;
    SortPermutes(Last(c0).conditions);
    QuietFrom(env, c.world.clock);
    FailedIsUpgraded(env, c, spec, e);
    MendsExactly(env, c.world, RepairUpgrading(e.addrs, |w.snapshot.value|, spec.kind, e.how));
  }

  /** Where the record is true and the number of members odd, a new master is without its slave, and the repair
      that starts the scale-up over does not have what it needs. */
  lemma OddRecordIsNotMended(idOf: string -> string, r: Roles, addrs: seq<Address>, e: Attempt)
    requires GoodIds(idOf) && WellFormed(idOf, r, addrs) && |r.Members()| % 2 == 1
    requires e.RepairUpgrading? && e.conditions == |r.Members()|
    ensures !Mends(idOf, r, e)
  {
    hide WellFormed, Served, Roles.Members;
    ServedCount(idOf, r, addrs);
    assert |r.Members()| != 0;
  }

  // ---------- six of eight, and seven ----------

  /** The six old pods, and two new ones. */
  function EightPods(): seq<Address> {
    OldPods() + [Address("6", "a"), Address("7", "b")]
  }

  lemma EightPodsGood()
    ensures GoodAddrs(EightPods()) && |EightPods()| == 8 && EightPods()[0] == OldPods()[0]
    ensures AddrIps(OldPods()) <= AddrIps(EightPods())
  {
    hide GoodAddrs, AddrIps;
    LetterIps(EightPods(), ['0', '1', '2', '3', '4', '5', '6', '7']);
    AddrIpsGrow(OldPods(), [Address("6", "a"), Address("7", "b")]);
  }

  function EightAsked(): (spec: Spec)
    ensures Checking(spec)
  {
    Spec(8, Some(Reshard.StatefulSet(8, 8, false)), AutoReceive, 0)
  }

  function EightSync(from: nat): Happening {
    var unready := Write(Failed, "timed out waiting for the condition", None, Some(8), true);
    Sync(from, EightPods(), [], Exactly, unready, true, [])
  }

  /** A scale-up of the eight pods failed and is recorded as Running with fewer of them, truly. The check leaves
      it alone. Once a sync has found the pods not ready the next one, nothing else going wrong, takes it up. */
  lemma EightPodsTakenUp(env: Env, r: Roles, clock: nat, s: StatusWrites.Status)
    requires GoodIds(env.idOf) && WellFormed(env.idOf, r, EightPods())
    requires !env.answer(clock).Works? && Quiet(env, clock + 1)
    requires s.phase == Running && 0 < |s.conditions| < 8
    ensures var c := Cluster([Version(s, Some(Running))], World(r, clock));
            var c' := Happen(env, c, EightAsked(), EightSync(0));
            var c'' := Happen(env, c', EightAsked(), EightSync(1));
            var repair := RepairUpgrading(EightPods(), |s.conditions|, AutoReceive, Exactly);
            && LeftAlone(s, 8)
            && c'.world == World(r, clock + 1) && Last(c').phase == Failed && |Last(c').conditions| == |s.conditions|
            && c''.world == Perform(env, c'.world, repair).world
            && ((Perform(env, c'.world, repair).status == Done && Complete(env.idOf, c''.world.roles, EightPods())) <==>
                  Mends(env.idOf, r, repair))
  {
    hide WellFormed, GoodAddrs, Complete, Perform, Mends, SortByName, EightPods, Quiet;
    EightPodsGood();
    var c := Cluster([Version(s, Some(Running))], World(r, clock));
    HappenUntouched(env, c, EightAsked(), 0, EightSync(0));
    SortPermutes(s.conditions);
    var c' := Happen(env, c, EightAsked(), EightSync(0));
    QuietFrom(env, clock + 1);
    FailedIsUpgraded(env, c', EightAsked(), EightSync(1));
    MendsExactly(env, c'.world, RepairUpgrading(EightPods(), |s.conditions|, AutoReceive, Exactly));
  }

  /** Six of eight: the specification has not changed, and the cluster is completed. */
  lemma SixOfEightIsRepaired(env: Env, r: Roles, clock: nat, s: StatusWrites.Status)
    requires GoodIds(env.idOf) && Complete(env.idOf, r, OldPods())
    requires !env.answer(clock).Works? && Quiet(env, clock + 1) && s.phase == Running && |s.conditions| == 6
    ensures var c := Cluster([Version(s, Some(Running))], World(r, clock));
            var c' := Happen(env, c, EightAsked(), EightSync(0));
            && LeftAlone(s, 8) && c'.world.roles == r
            && Complete(env.idOf, Happen(env, c', EightAsked(), EightSync(1)).world.roles, EightPods())
  {
    hide WellFormed, Happen, GoodAddrs, OldPods, EightPods, EightAsked, EightSync, Perform, Served, Roles.Members,
         AddrIps, Quiet, LeftAlone;
    EightPodsGood();
    TwelvePods();
    GrowKeeps(env.idOf, r, OldPods(), EightPods());
    EightPodsTakenUp(env, r, clock, s);
    ServedCount(env.idOf, r, OldPods());
    EvenCompleteHasFirst(env.idOf, r, OldPods());
  }

  /** A complete cluster of an even number of pods has all of them. */
  lemma EvenCompleteHasFirst(idOf: string -> string, r: Roles, addrs: seq<Address>)
    requires GoodIds(idOf) && GoodAddrs(addrs) && Complete(idOf, r, addrs) && addrs != [] && |addrs| % 2 == 0
    ensures |r.Members()| == |addrs| && addrs[0].ip in r.Members()
  {
    hide WellFormed, GoodAddrs, Roles.Members;
    ServedCount(idOf, r, addrs);
    EvenCompleteHasAll(idOf, r, addrs);
    assert Ips(addrs)[0] in AddrIps(addrs);
  }

  /** Seven of eight, a new master without its slave: it is not. */
  lemma SevenOfEightIsNotRepaired(env: Env, r: Roles, clock: nat, s: StatusWrites.Status)
    requires GoodIds(env.idOf) && WellFormed(env.idOf, r, EightPods()) && |r.Members()| == 7
    requires !env.answer(clock).Works? && Quiet(env, clock + 1) && s.phase == Running && |s.conditions| == 7
    ensures var c := Cluster([Version(s, Some(Running))], World(r, clock));
            var c' := Happen(env, c, EightAsked(), EightSync(0));
            var repair := RepairUpgrading(EightPods(), 7, AutoReceive, Exactly);
            && Happen(env, c', EightAsked(), EightSync(1)).world == Perform(env, c'.world, repair).world
            && Perform(env, c'.world, repair).status != Done
  {
    hide WellFormed, Happen, GoodAddrs, OldPods, EightPods, EightAsked, EightSync, Perform, Served, Roles.Members,
         AddrIps, Quiet, LeftAlone, Mends;
    EightPodsGood();
    EightPodsTakenUp(env, r, clock, s);
    var c' := Happen(env, Cluster([Version(s, Some(Running))], World(r, clock)), EightAsked(), EightSync(0));
    var repair := RepairUpgrading(EightPods(), 7, AutoReceive, Exactly);
    RepairDoneExactly(env, c'.world, repair);
    OddRecordIsNotMended(env.idOf, r, EightPods(), repair);
  }
}
