/** Which commands a pass issues: how many, in which order, and none after one that failed. */
module Commands {
  import opened Hosts
  import opened ScalePlan
  import opened Topology
  import opened Repair
  import opened Lookup
  import opened Steps
  import opened Runs
  import opened Passes
  import opened Branches
  import opened Positions
  import CreationPlan
  import CreationProperties

  /** A pass goes on only after commands that worked: at most the last one failed, and if it does not end in an
      error none did. */
  ghost predicate Proceeds(env: Env, from: nat, run: Run) {
    && from <= run.world.clock
    && (forall t :: from <= t < run.world.clock - 1 ==> env.answer(t).Works?)
    && (run.status != Error && from < run.world.clock ==> env.answer(run.world.clock - 1).Works?)
  }

  /** One part after another. */
  lemma Then(env: Env, from: nat, a: Run, b: Run)
    requires Proceeds(env, from, a) && a.status != Error && Proceeds(env, a.world.clock, b)
    ensures Proceeds(env, from, b)
  {
  }

  // ---------- adding nodes ----------

  /** Two commands for each master on success. */
  lemma {:induction false} AddMastersCommands(env: Env, w: World, via: string, ips: seq<string>)
    ensures var run := AddMasters(env, w, via, ips);
            && Proceeds(env, w.clock, run)
            && (run.status == Done || run.status == Error)
            && (run.status == Done ==> run.world.clock == w.clock + 2 * |ips|)
    decreases |ips|
  {
    hide Joined, Roles.Members;
    if ips != [] {
      var q := Ask(env, w);
      var c := Change(env, q.world, ips[0] !in w.roles.Members(), Joined(env.idOf, w.roles, via, ips[0]));
      if q.status == Done && c.status == Done {
        AddMastersCommands(env, c.world, via, ips[1..]);
        Then(env, w.clock, c, AddMasters(env, c.world, via, ips[1..]));
      }
    }
  }

  /** Two commands for each slave on success. */
  lemma {:induction false} AttachSlavesCommands(env: Env, w: World, slaves: seq<string>, ids: seq<string>)
    requires |slaves| == |ids|
    ensures var run := AttachSlaves(env, w, slaves, ids);
            && Proceeds(env, w.clock, run)
            && (run.status == Done || run.status == Error)
            && (run.status == Done ==> run.world.clock == w.clock + 2 * |slaves|)
    decreases |slaves|
  {
    hide Attached, Roles.Members, MasterIds;
    if slaves != [] {
      var q := Ask(env, w);
      var legal := slaves[0] !in w.roles.Members() && ids[0] in MasterIds(env.idOf, w.roles);
      var c := Change(env, q.world, legal, Attached(w.roles, slaves[0], ids[0]));
      if q.status == Done && c.status == Done {
        AttachSlavesCommands(env, c.world, slaves[1..], ids[1..]);
        Then(env, w.clock, c, AttachSlaves(env, c.world, slaves[1..], ids[1..]));
      }
    }
  }

  /** Masters join one cluster in the order given: wherever that stops, the first k have, and nobody else. */
  lemma {:induction false} MastersJoinInOrder(env: Env, w: World, via: string, ips: seq<string>) returns (k: nat)
    requires w.roles.apart == map[] && via in w.roles.Members()
    ensures k <= |ips|
    ensures var run := AddMasters(env, w, via, ips);
            && run.world.roles == OneCluster(w.roles.masters + IpSet(ips[..k]), w.roles.parentOf)
            && (run.status == Done ==> k == |ips|)
            && w.clock + 2 * k <= run.world.clock <= w.clock + 2 * k + 2
            && (run.world.clock > w.clock + 2 * k ==> run.status == Error)
    decreases |ips|
  {
    hide Joined;
    k := 0;
    NobodyJoined(ips, w.roles);
    if ips != [] {
      var q := Ask(env, w);
      var c := Change(env, q.world, ips[0] !in w.roles.Members(), Joined(env.idOf, w.roles, via, ips[0]));
      JoinedHere(env.idOf, w.roles, via, ips[0]);
      if q.status == Done && ips[0] !in w.roles.Members() && !env.answer(q.world.clock).FailsBefore? {
        var rest := 0;
        if c.status == Done {
          rest := MastersJoinInOrder(env, c.world, via, ips[1..]);
        } else {
          NobodyJoined(ips[1..], c.world.roles);
        }
        k := rest + 1;
        FirstJoined(ips, rest);
      }
    }
  }

  lemma NobodyJoined(ips: seq<string>, r: Roles)
    requires r.apart == map[]
    ensures ips[..0] == [] && r == OneCluster(r.masters + IpSet(ips[..0]), r.parentOf)
  {
  }

  lemma FirstJoined(ips: seq<string>, k: nat)
    requires ips != [] && k <= |ips| - 1
    ensures IpSet(ips[..k + 1]) == {ips[0]} + IpSet(ips[1..][..k])
  {
    assert ips[..k + 1] == [ips[0]] + ips[1..][..k];
  }

  /** The first k slaves are attached, each under the id at its place, and nothing else has changed. */
  ghost predicate AttachedUpTo(r: Roles, r': Roles, slaves: seq<string>, ids: seq<string>, k: nat) {
    && k <= |slaves| == |ids|
    && r'.masters == r.masters && r'.apart == r.apart && Extends(r, r')
    && r'.parentOf.Keys == r.parentOf.Keys + IpSet(slaves[..k])
    && forall i :: 0 <= i < k ==> slaves[i] in r'.parentOf && r'.parentOf[slaves[i]] == ids[i]
  }

  lemma NobodyAttached(r: Roles, slaves: seq<string>, ids: seq<string>)
    requires |slaves| == |ids|
    ensures AttachedUpTo(r, r, slaves, ids, 0)
  {
    assert slaves[..0] == [];
  }

  lemma FirstAttached(r: Roles, r': Roles, slaves: seq<string>, ids: seq<string>, k: nat)
    requires slaves != [] && |slaves| == |ids| && slaves[0] !in r.Members()
    requires AttachedUpTo(Attached(r, slaves[0], ids[0]), r', slaves[1..], ids[1..], k)
    ensures AttachedUpTo(r, r', slaves, ids, k + 1)
  {
    hide IpSet;
    var mid := Attached(r, slaves[0], ids[0]);
    FirstJoined(slaves, k);
    assert slaves[0] in mid.parentOf && mid.parentOf[slaves[0]] == ids[0];
    forall i | 0 <= i < k + 1 ensures slaves[i] in r'.parentOf && r'.parentOf[slaves[i]] == ids[i] {
      if i > 0 {
        assert slaves[1..][i - 1] == slaves[i] && ids[1..][i - 1] == ids[i];
      }
    }
  }

  /** Slaves are attached in the order given, wherever that stops. */
  lemma {:induction false} SlavesAttachInOrder(env: Env, w: World, slaves: seq<string>, ids: seq<string>)
    returns (k: nat)
    requires |slaves| == |ids|
    ensures k <= |slaves|
    ensures var run := AttachSlaves(env, w, slaves, ids);
            && AttachedUpTo(w.roles, run.world.roles, slaves, ids, k)
            && (run.status == Done ==> k == |slaves|)
            && w.clock + 2 * k <= run.world.clock <= w.clock + 2 * k + 2
            && (run.world.clock > w.clock + 2 * k ==> run.status == Error)
    decreases |slaves|
  {
    hide MasterIds, Attached, AttachedUpTo;
    k := 0;
    NobodyAttached(w.roles, slaves, ids);
    if slaves != [] {
      var q := Ask(env, w);
      var legal := slaves[0] !in w.roles.Members() && ids[0] in MasterIds(env.idOf, w.roles);
      var c := Change(env, q.world, legal, Attached(w.roles, slaves[0], ids[0]));
      if q.status == Done && legal && !env.answer(q.world.clock).FailsBefore? {
        var rest := 0;
        if c.status == Done {
          rest := SlavesAttachInOrder(env, c.world, slaves[1..], ids[1..]);
        } else {
          NobodyAttached(c.world.roles, slaves[1..], ids[1..]);
        }
        k := rest + 1;
        FirstAttached(w.roles, AttachSlaves(env, w, slaves, ids).world.roles, slaves, ids, rest);
      }
    }
  }

  /** Lists of different lengths are refused before any command. */
  lemma AddSlavesCommands(env: Env, w: World, slaves: seq<string>, masters: seq<string>, ids: seq<string>)
    ensures var run := AddSlaves(env, w, slaves, masters, ids);
            && Proceeds(env, w.clock, run)
            && (run.status == Done || run.status == Error)
            && (run.status == Done ==> |slaves| == |masters| == |ids| && run.world.clock == w.clock + 2 * |slaves|)
            && (!(|slaves| == |masters| == |ids|) ==> run == Run(w, Error))
  {
    if |slaves| == |masters| == |ids| {
      AttachSlavesCommands(env, w, slaves, ids);
    }
  }

  // ---------- passes ----------

  lemma PromotedCommands(env: Env, w: World, addrs: seq<Address>, asked: string)
    ensures var run, o := Promoted(env, w, addrs, asked), PlanVia(env.idOf, addrs, w.roles, asked);
            && Proceeds(env, w.clock, run)
            && (run.status == Done ==> o.Planned? && run.world.clock == w.clock + 2 + 2 * |o.masters|)
            && (run.status == Panicked <==> env.answer(w.clock).Works? && o.IndexPanic?)
            && (run.status == Hung <==> env.answer(w.clock).Works? && o.NeverReturns?)
  {
    hide PlanVia, AddMasters;
    var q, o := Ask(env, w), PlanVia(env.idOf, addrs, w.roles, asked);
    if q.status == Done && o.Planned? {
      AddMastersCommands(env, q.world, asked, o.masters);
      var a := AddMasters(env, q.world, asked, o.masters);
      Then(env, w.clock, q, a);
      if a.status == Done {
        Then(env, w.clock, a, Ask(env, a.world));
      }
    }
  }

  /** A repair that reports success has listed twice and used two commands for each node it added. */
  lemma RepairOnceCommands(env: Env, w: World, addrs: seq<Address>, asked: string)
    ensures var run, o := RepairOnce(env, w, addrs, asked), PlanVia(env.idOf, addrs, w.roles, asked);
            && Proceeds(env, w.clock, run)
            && (run.status == Done ==>
                  o.Planned? && run.world.clock == w.clock + 2 + 2 * |o.masters| + 2 * |o.slaves|)
  {
    hide PlanVia, Promoted, AddSlaves, IdsOf, Seen;
    PromotedCommands(env, w, addrs, asked);
    var b, o := Promoted(env, w, addrs, asked), PlanVia(env.idOf, addrs, w.roles, asked);
    if b.status == Done && o.slaves != [] {
      var ids := IdsOf(env.idOf, Seen(env.idOf, b.world.roles, asked), o.parents);
      AddSlavesCommands(env, b.world, o.slaves, o.parents, ids);
      Then(env, w.clock, b, AddSlaves(env, b.world, o.slaves, o.parents, ids));
    }
  }

  /** So has a scale-up. */
  lemma ScaleOnceCommands(env: Env, w: World, addrs: seq<Address>, asked: string, how: Finding)
    ensures var run, o := ScaleOnce(env, w, addrs, asked, how), PlanVia(env.idOf, addrs, w.roles, asked);
            && Proceeds(env, w.clock, run)
            && (run.status == Done ==>
                  o.Planned? && run.world.clock == w.clock + 2 + 2 * |o.masters| + 2 * |o.slaves|)
  {
    hide PlanVia, Promoted, AddSlaves, FindIds, Seen;
    PromotedCommands(env, w, addrs, asked);
    var b, o := Promoted(env, w, addrs, asked), PlanVia(env.idOf, addrs, w.roles, asked);
    if b.status == Done {
      var ids := FindIds(how, env.idOf, Seen(env.idOf, b.world.roles, asked), o.masters);
      AddSlavesCommands(env, b.world, o.slaves, o.masters, ids);
      var c := AttachToNew(env, b.world, o.masters, o.slaves, ids);
      assert Proceeds(env, b.world.clock, c);
      Then(env, w.clock, b, c);
    }
  }

  /** A scale-up without old endpoints is refused at once, one with an unknown strategy type after the wait for
      the pods; a successful one waits first. */
  lemma UpgradeCommands(env: Env, w: World, addrs: seq<Address>, olds: seq<string>, kind: UpdateType, how: Finding)
    ensures var run := Upgrade(env, w, addrs, olds, kind, how);
            && Proceeds(env, w.clock, run)
            && (olds == [] ==> run == Run(w, Error))
            && (olds != [] && kind == Other ==> run == Run(World(w.roles, w.clock + 1), Error))
            && (run.status == Done ==>
                  var o := PlanVia(env.idOf, addrs, w.roles, olds[0]);
                  o.Planned? && run.world.clock == w.clock + 3 + 2 * |o.masters| + 2 * |o.slaves|)
  {
    hide PlanVia, ScaleOnce;
    var q := Ask(env, w);
    if olds != [] && q.status == Done && kind != Other {
      ScaleOnceCommands(env, q.world, addrs, olds[0], how);
      Then(env, w.clock, q, ScaleOnce(env, q.world, addrs, olds[0], how));
    }
  }

  /** A creation that reports success waits for the pods, creates, lists, uses two commands for each slave, and
      checks the cluster at the end. It indexes out of range exactly on a single pod, once the command that
      creates nothing has worked. */
  lemma CreateOnceCommands(env: Env, w: World, addrs: seq<Address>)
    ensures var run := CreateOnce(env, w, addrs);
            && Proceeds(env, w.clock, run)
            && (run.status == Done ==> run.world.clock == w.clock + 4 + 2 * (|addrs| / 2))
            && (run.status == Panicked <==>
                  |addrs| == 1 && env.answer(w.clock).Works? && env.answer(w.clock + 1).Works?)
            && run.status != Hung
  {
    hide CreationPlan.Masters, CreationPlan.Slaves, AttachFounders, Created, Roles.Members, IpSet, Change, Ips;
    var q := Ask(env, w);
    if q.status == Done && addrs != [] {
      var ms, ss := Ips(CreationPlan.Masters(addrs)), Ips(CreationPlan.Slaves(addrs));
      CreationProperties.CreationConserves(addrs);
      NobodyNamed(ms);
      var legal := IpSet(ms) !! w.roles.Members();
      var c := Change(env, q.world, legal, Created(env.idOf, w.roles, ms));
      ChangeCommand(env, w, legal, Created(env.idOf, w.roles, ms));
      if c.status == Done && ms != [] {
        AttachFoundersCommands(env, c.world, ss, ms);
        Then(env, w.clock, c, AttachFounders(env, c.world, ss, ms));
      }
    }
  }

  /** A change after a question that was answered. */
  lemma ChangeCommand(env: Env, w: World, legal: bool, after: Roles)
    requires env.answer(w.clock).Works?
    ensures var c := Change(env, Ask(env, w).world, legal, after);
            && Proceeds(env, w.clock, c) && c.world.clock == w.clock + 2
            && (c.status == Done <==> legal && env.answer(w.clock + 1).Works?)
            && (c.status == Done || c.status == Error)
  {
  }

  lemma NobodyNamed(ms: seq<string>)
    ensures ms == [] ==> IpSet(ms) == {}
  {
  }

  /** What is left of a creation once its masters exist. If the first of them does not list as many nodes as
      there are planned slaves it ends there. */
  lemma AttachFoundersCommands(env: Env, w: World, ss: seq<string>, ms: seq<string>)
    requires ms != []
    ensures var run := AttachFounders(env, w, ss, ms);
            && Proceeds(env, w.clock, run)
            && (run.status == Done ==> run.world.clock == w.clock + 2 + 2 * |ss|)
            && (run.status == Done || run.status == Error)
            && (|Seen(env.idOf, w.roles, ms[0]).Members()| != |ss| ==> run == Run(World(w.roles, w.clock + 1), Error))
  {
    hide AddSlaves, IdsOf, Seen, Roles.Members;
    var n := Ask(env, w);
    if n.status == Done {
      var seen := Seen(env.idOf, n.world.roles, ms[0]);
      var ids := IdsOf(env.idOf, seen, ms);
      AddSlavesCommands(env, n.world, ss, ms, ids);
      var s := AddSlaves(env, n.world, ss, ms, ids);
      Then(env, w.clock, n, s);
      if s.status == Done {
        Then(env, w.clock, s, Ask(env, s.world));
      }
    }
  }

  // ---------- repairs ----------

  /** The probe asks every pod in turn and stops at the first that fails or is an unhealthy member. */
  lemma {:induction false} ProbeCommands(env: Env, w: World, addrs: seq<Address>, clustered: seq<Address>,
                                         alone: seq<Address>)
    ensures var p := ProbeAll(env, w, addrs, clustered, alone);
            && Proceeds(env, w.clock, Run(p.world, if p.ProbeFailed? then Error else Done))
            && (p.Probed? ==> p.world.clock == w.clock + |addrs|)
            && (!p.Probed? ==> w.clock < p.world.clock <= w.clock + |addrs|)
    decreases |addrs|
  {
    hide Alone;
    if addrs != [] {
      var q, rest := Ask(env, w), addrs[1..];
      if q.status == Done {
        ProbeCommands(env, q.world, rest, clustered, alone + [addrs[0]]);
        ProbeCommands(env, q.world, rest, clustered + [addrs[0]], alone);
      }
    }
  }

  /** Pod i stops a probe: it is a member, and unhealthy. */
  predicate StopsAt(env: Env, w: World, addrs: seq<Address>, i: nat)
    requires i < |addrs|
  {
    !Alone(env.idOf, w.roles, addrs[i].ip) && !env.healthy(w.clock + i)
  }

  predicate GoesPast(env: Env, w: World, addrs: seq<Address>, i: nat)
    requires i < |addrs|
  {
    env.answer(w.clock + i).Works? && !StopsAt(env, w, addrs, i)
  }

  /** A probe, exactly: it fails at the first command that does, or meets the first unhealthy member, whichever
      comes first; otherwise it has asked every pod. An unhealthy pod that is alone does not stop it. */
  lemma {:induction false} ProbeStops(env: Env, w: World, addrs: seq<Address>, clustered: seq<Address>,
                                      alone: seq<Address>)
    returns (i: nat)
    ensures i <= |addrs|
    ensures forall j :: 0 <= j < i ==> GoesPast(env, w, addrs, j)
    ensures match ProbeAll(env, w, addrs, clustered, alone)
            case ProbeFailed(v) =>
              i < |addrs| && v == World(w.roles, w.clock + i + 1) && !env.answer(w.clock + i).Works?
            case Unhealthy(v) =>
              i < |addrs| && v == World(w.roles, w.clock + i + 1) && env.answer(w.clock + i).Works?
              && StopsAt(env, w, addrs, i)
            case Probed(v, _, _) => i == |addrs| && v == World(w.roles, w.clock + i)
    decreases |addrs|
  {
    hide Alone;
    i := 0;
    if addrs != [] && env.answer(w.clock).Works? && !StopsAt(env, w, addrs, 0) {
      var next, rest := World(w.roles, w.clock + 1), addrs[1..];
      if Alone(env.idOf, w.roles, addrs[0].ip) {
        i := ProbeStops(env, next, rest, clustered, alone + [addrs[0]]);
      } else {
        i := ProbeStops(env, next, rest, clustered + [addrs[0]], alone);
      }
      forall j | 0 <= j <= i ensures GoesPast(env, w, addrs, j) {
        if j > 0 {
          StopsLater(env, w, addrs, j);
          assert GoesPast(env, next, rest, j - 1);
        }
      }
      if i < |rest| {
        StopsLater(env, w, addrs, i + 1);
      }
      i := i + 1;
    }
  }

  lemma StopsLater(env: Env, w: World, addrs: seq<Address>, j: nat)
    requires 0 < j < |addrs|
    ensures StopsAt(env, w, addrs, j) == StopsAt(env, World(w.roles, w.clock + 1), addrs[1..], j - 1)
  {
    hide Alone;
  }

  /** Its two lists hold the pods that know others and those that do not, each in the order of the pods. */
  lemma {:induction false} ProbeLists(env: Env, w: World, addrs: seq<Address>, clustered: seq<Address>,
                                      alone: seq<Address>)
    returns (known: seq<nat>, lone: seq<nat>)
    requires ProbeAll(env, w, addrs, clustered, alone).Probed?
    ensures var p := ProbeAll(env, w, addrs, clustered, alone);
            && |p.clustered| == |clustered| + |known| && p.clustered[..|clustered|] == clustered
            && |p.alone| == |alone| + |lone| && p.alone[..|alone|] == alone
            && At(p.clustered[|clustered|..], addrs, known) && Increasing(known)
            && At(p.alone[|alone|..], addrs, lone) && Increasing(lone)
    ensures forall i: nat :: i in known <==> i < |addrs| && !Alone(env.idOf, w.roles, addrs[i].ip)
    ensures forall i: nat :: i in lone <==> i < |addrs| && Alone(env.idOf, w.roles, addrs[i].ip)
    decreases |addrs|
  {
    hide Alone;
    known, lone := [], [];
    if addrs != [] {
      var a, rest, next := addrs[0], addrs[1..], World(w.roles, w.clock + 1);
      assert addrs == [a] + rest;
      if Alone(env.idOf, w.roles, a.ip) {
        known, lone := ProbeLists(env, next, rest, clustered, alone + [a]);
        var p := ProbeAll(env, next, rest, clustered, alone + [a]);
        ShiftAt(p.clustered[|clustered|..], a, rest, known);
        ShiftAt(p.alone[|alone| + 1..], a, rest, lone);
        NextInList(p.alone, alone, a);
        known, lone := Shift(known), [0] + Shift(lone);
      } else {
        known, lone := ProbeLists(env, next, rest, clustered + [a], alone);
        var p := ProbeAll(env, next, rest, clustered + [a], alone);
        ShiftAt(p.clustered[|clustered| + 1..], a, rest, known);
        ShiftAt(p.alone[|alone|..], a, rest, lone);
        NextInList(p.clustered, clustered, a);
        known, lone := [0] + Shift(known), Shift(lone);
      }
    }
  }

  lemma NextInList(all: seq<Address>, list: seq<Address>, a: Address)
    requires |all| >= |list| + 1 && all[..|list| + 1] == list + [a]
    ensures all[..|list|] == list && all[|list|..] == [a] + all[|list| + 1..]
  {
    assert all[|list|] == all[..|list| + 1][|list|];
    assert all[..|list|] == all[..|list| + 1][..|list|];
  }

  lemma RebalanceCommands(env: Env, from: nat, r: Run)
    requires Proceeds(env, from, r)
    ensures Proceeds(env, from, Rebalance(env, r))
    ensures r.status != Done ==> Rebalance(env, r) == r
    ensures r.status == Done ==> Rebalance(env, r).status == Done || Rebalance(env, r).status == Error
    ensures Rebalance(env, r).status == Done <==>
      r.status == Done && env.answer(r.world.clock).Works? && env.answer(r.world.clock + 1).Works?
    ensures Rebalance(env, r).status == Done ==> Rebalance(env, r).world == World(r.world.roles, r.world.clock + 2)
  {
  }

  /** The nodes a repair of n pods adds take two commands each. */
  function RepairCost(r: Roles, addrs: seq<Address>): int {
    2 + 2 * (|addrs| / 2 - |r.masters|) + 2 * (|addrs| / 2 - |r.parentOf|)
  }

  lemma PlanCost(env: Env, w: World, addrs: seq<Address>, asked: string)
    requires Ready(env, w, addrs) && asked in w.roles.Members()
    ensures var o := PlanVia(env.idOf, addrs, w.roles, asked);
            o.Planned? && 2 + 2 * |o.masters| + 2 * |o.slaves| == RepairCost(w.roles, addrs)
  {
    hide WellFormed, GoodAddrs, PlanFor, Roles.Members;
    OneClusterOnly(env.idOf, w.roles, addrs);
    MembersSeeAll(env.idOf, w.roles, asked);
    PlanIsExact(env.idOf, addrs, w.roles);
  }

  /** Where readiness and probe lead, and the commands that took. */
  lemma CourseCommands(env: Env, w: World, addrs: seq<Address>)
    requires Ready(env, w, addrs)
    ensures var c := CourseOf(env, w, addrs);
            && (c.GoesOn? ==> c.at == w.clock + 1 + |addrs| && |w.roles.Members()| >= 2)
            && (!c.Stops? ==> addrs != [] && Proceeds(env, w.clock, Run(World(w.roles, c.at), Done)))
  {
    hide WellFormed, GoodAddrs, ProbeAll, Roles.Members;
    if env.answer(w.clock).Works? && addrs != [] {
      var mid := World(w.roles, w.clock + 1);
      ProbeVerdict(env, mid, addrs);
      ProbeCommands(env, mid, addrs, [], []);
      var p := ProbeAll(env, mid, addrs, [], []);
      UnhealthyReads(env, mid, addrs);
      if !p.ProbeFailed? {
        Then(env, w.clock, Ask(env, w), Run(p.world, Done));
      }
    }
  }

  lemma UnhealthyReads(env: Env, w: World, addrs: seq<Address>)
    ensures var p := ProbeAll(env, w, addrs, [], []); p.Unhealthy? ==> p.world.roles == w.roles
  {
    hide ProbeAll;
    if ProbeAll(env, w, addrs, [], []).Unhealthy? {
      UnhealthyHasMembers(env, w, addrs, [], []);
    }
  }

  /** What a creating repair issues. If it goes on with a cluster and reports success it has waited for the pods,
      asked each of them, listed twice, added what was missing with two commands each, and then waited for the
      cluster and rebalanced its slots. */
  lemma FixCreatingCommands(env: Env, w: World, addrs: seq<Address>)
    requires Ready(env, w, addrs)
    ensures var run, c := FixCreating(env, w, addrs), CourseOf(env, w, addrs);
            match c
            case Stops => run.status == Error && run.world.roles == w.roles
            case Creates(at) => run == CreateOnce(env, World(w.roles, at), addrs)
            case GoesOn(at) =>
              && Proceeds(env, w.clock, run) && (run.status == Done || run.status == Error)
              && (run.status == Done ==> run.world.clock == at + RepairCost(w.roles, addrs) + 2)
  {
    hide WellFormed, GoodAddrs, CreateOnce, RepairOnce, Rebalance, PlanVia, Roles.Members, RepairCost;
    CourseCommands(env, w, addrs);
    if env.answer(w.clock).Works? && addrs != [] {
      var mid := World(w.roles, w.clock + 1);
      ProbeVerdict(env, mid, addrs);
      UnhealthyReads(env, mid, addrs);
      var p := ProbeAll(env, mid, addrs, [], []);
      hide ProbeAll;
      if p.Probed? && p.clustered != [] {
        var asked, r := p.clustered[0].ip, RepairOnce(env, p.world, addrs, p.clustered[0].ip);
        PlanCost(env, p.world, addrs, asked);
        RepairOnceCommands(env, p.world, addrs, asked);
        RepairOnceKeeps(env, p.world, addrs, asked);
        Then(env, w.clock, Run(p.world, Done), r);
        RebalanceCommands(env, w.clock, r);
      }
    }
  }

  /** What an upgrading repair issues: with fewer pods than members recorded it indexes out of range; with as
      many recorded as there are it starts the scale-up over through the first pod; otherwise it repairs. */
  lemma FixUpgradingCommands(env: Env, w: World, addrs: seq<Address>, conditions: nat, kind: UpdateType, how: Finding)
    requires Ready(env, w, addrs)
    ensures var run, c := FixUpgrading(env, w, addrs, conditions, kind, how), CourseOf(env, w, addrs);
            match c
            case Stops => run.status == Error && run.world.roles == w.roles
            case Creates(at) => run == CreateOnce(env, World(w.roles, at), addrs)
            case GoesOn(at) =>
              if conditions > |addrs| then run == Run(World(w.roles, at), Panicked)
              else if conditions == |w.roles.Members()| then
                run == Upgrade(env, World(w.roles, at), addrs, FirstIps(addrs, |addrs| - conditions), kind, how)
              else
                && Proceeds(env, w.clock, run) && (run.status == Done || run.status == Error)
                && (run.status == Done ==> kind != Other && run.world.clock == at + RepairCost(w.roles, addrs))
  {
    hide WellFormed, GoodAddrs, CreateOnce, RepairOnce, Upgrade, PlanVia, Roles.Members, RepairCost, Ips, AddrIps;
    CourseCommands(env, w, addrs);
    MembersBounded(env, w, addrs);
    if env.answer(w.clock).Works? && addrs != [] {
      var mid := World(w.roles, w.clock + 1);
      ProbeVerdict(env, mid, addrs);
      UnhealthyReads(env, mid, addrs);
      var p := ProbeAll(env, mid, addrs, [], []);
      hide ProbeAll;
      if p.Probed? && p.clustered != [] {
        var asked, r := p.clustered[0].ip, RepairOnce(env, p.world, addrs, p.clustered[0].ip);
        PlanCost(env, p.world, addrs, asked);
        RepairOnceCommands(env, p.world, addrs, asked);
        RepairOnceKeeps(env, p.world, addrs, asked);
        Then(env, w.clock, Run(p.world, Done), r);
      }
    }
  }

  /** What the scaling branch issues: it always starts the scale-up over. */
  lemma FixScalingCommands(env: Env, w: World, addrs: seq<Address>, conditions: nat, kind: UpdateType, how: Finding)
    requires Ready(env, w, addrs)
    ensures var run, c := FixScaling(env, w, addrs, conditions, kind, how), CourseOf(env, w, addrs);
            match c
            case Stops => run.status == Error && run.world.roles == w.roles
            case Creates(at) => run == CreateOnce(env, World(w.roles, at), addrs)
            case GoesOn(at) =>
              if conditions > |addrs| then run == Run(World(w.roles, at), Panicked)
              else run == Upgrade(env, World(w.roles, at), addrs, FirstIps(addrs, |addrs| - conditions), kind, how)
  {
    hide WellFormed, GoodAddrs, CreateOnce, Upgrade, Roles.Members, Ips, AddrIps;
    CourseCommands(env, w, addrs);
    if env.answer(w.clock).Works? && addrs != [] {
      var mid := World(w.roles, w.clock + 1);
      ProbeVerdict(env, mid, addrs);
      UnhealthyReads(env, mid, addrs);
      hide ProbeAll;
    }
  }
}
