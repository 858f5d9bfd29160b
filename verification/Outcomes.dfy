/** What the passes build: the planned slave of each planned parent, and scale-up after scale-up. */
module Outcomes {
  import opened Counting
  import opened Hosts
  import opened ScalePlan
  import opened Topology
  import opened Repair
  import opened Lookup
  import opened Steps
  import opened Runs
  import opened Passes
  import CreationPlan
  import CreationProperties

  /** Slave i has been attached to the node with id i. */
  ghost predicate AttachedPairwise(r: Roles, slaves: seq<string>, ids: seq<string>) {
    && |slaves| == |ids|
    && forall i :: 0 <= i < |slaves| ==> slaves[i] in r.parentOf && r.parentOf[slaves[i]] == ids[i]
  }

  lemma AttachedFirst(r: Roles, slaves: seq<string>, ids: seq<string>)
    requires slaves != [] && |slaves| == |ids|
    requires slaves[0] in r.parentOf && r.parentOf[slaves[0]] == ids[0]
    requires AttachedPairwise(r, slaves[1..], ids[1..])
    ensures AttachedPairwise(r, slaves, ids)
  {
    forall i | 0 <= i < |slaves| ensures slaves[i] in r.parentOf && r.parentOf[slaves[i]] == ids[i] {
      if i > 0 {
        assert slaves[i] == slaves[1..][i - 1] && ids[i] == ids[1..][i - 1];
      }
    }
  }

  /** Done means every slave hangs under the node it was meant for. */
  lemma {:induction false} AttachSlavesPairs(env: Env, w: World, slaves: seq<string>, ids: seq<string>)
    requires |slaves| == |ids| && AttachSlaves(env, w, slaves, ids).status == Done
    ensures AttachedPairwise(AttachSlaves(env, w, slaves, ids).world.roles, slaves, ids)
    decreases |slaves|
  {
    hide MasterIds, Extends, AttachedPairwise, Roles.Members;
    if slaves == [] {
      NobodyAttached(w.roles);
    } else {
      var after := World(Attached(w.roles, slaves[0], ids[0]), w.clock + 2);
      AttachSlavesPairs(env, after, slaves[1..], ids[1..]);
      AttachSlavesExtends(env, after, slaves[1..], ids[1..]);
      var run := AttachSlaves(env, after, slaves[1..], ids[1..]);
      ExtendsParent(after.roles, run.world.roles, slaves[0]);
      AttachedFirst(run.world.roles, slaves, ids);
    }
  }

  lemma NobodyAttached(r: Roles)
    ensures AttachedPairwise(r, [], [])
  {
  }

  lemma ExtendsParent(r: Roles, r': Roles, s: string)
    requires Extends(r, r') && s in r.parentOf
    ensures s in r'.parentOf && r'.parentOf[s] == r.parentOf[s]
  {
  }

  /** The plan is carried out to the letter: each planned slave under its planned parent. */
  ghost predicate CarriesOut(idOf: string -> string, r: Roles, slaves: seq<string>, parents: seq<string>) {
    && |slaves| == |parents|
    && forall i :: 0 <= i < |slaves| ==> slaves[i] in r.parentOf && r.parentOf[slaves[i]] == idOf(parents[i])
  }

  lemma PairsCarryOut(idOf: string -> string, r: Roles, at: Roles, slaves: seq<string>, parents: seq<string>)
    requires IpSet(parents) <= at.Members() && AttachedPairwise(r, slaves, IdsOf(idOf, at, parents))
    ensures CarriesOut(idOf, r, slaves, parents)
  {
    IdsOfMembers(idOf, at, parents);
  }

  /** A repair that reports success has promoted exactly the planned masters and put each planned slave
      under its planned parent. */
  lemma RepairCarriesOutPlan(env: Env, w: World, addrs: seq<Address>, asked: string)
    requires Ready(env, w, addrs) && asked in w.roles.Members() && RepairOnce(env, w, addrs, asked).status == Done
    ensures var o, r := PlanVia(env.idOf, addrs, w.roles, asked), RepairOnce(env, w, addrs, asked).world.roles;
            && o.Planned?
            && r.masters == w.roles.masters + IpSet(o.masters)
            && CarriesOut(env.idOf, r, o.slaves, o.parents)
  {
    hide WellFormed, PlanFor, PlanVia, GoodAddrs, Attachable, Extends, Promoted, AttachSlaves, IdsOf, IpSet, Served,
         CarriesOut, Seen, Roles.Members;
    PromotedKeeps(env, w, addrs, asked);
    var b, o := Promoted(env, w, addrs, asked), PlanFor(env.idOf, addrs, w.roles);
    PlanAttachable(env.idOf, addrs, w.roles, b.world.roles);
    ParentsAreMembers(env.idOf, addrs, w.roles, b.world.roles);
    if o.slaves == [] {
      NothingToCarryOut(env.idOf, b.world.roles, o.slaves, o.parents);
    } else {
      var ids := IdsOf(env.idOf, b.world.roles, o.parents);
      AttachSlavesExtends(env, b.world, o.slaves, ids);
      AttachSlavesPairs(env, b.world, o.slaves, ids);
      var r := AttachSlaves(env, b.world, o.slaves, ids).world.roles;
      PairsCarryOut(env.idOf, r, b.world.roles, o.slaves, o.parents);
    }
  }

  lemma ParentsAreMembers(idOf: string -> string, addrs: seq<Address>, r: Roles, r': Roles)
    requires GoodIds(idOf) && GoodAddrs(addrs) && WellFormed(idOf, r, addrs)
    requires var o := PlanFor(idOf, addrs, r); o.Planned? && r'.masters == r.masters + IpSet(o.masters)
    ensures IpSet(PlanFor(idOf, addrs, r).parents) <= r'.Members()
  {
    hide WellFormed, PlanFor, GoodAddrs, Served, IpSet, Distinct;
    PlanIsExact(idOf, addrs, r);
  }

  lemma NothingToCarryOut(idOf: string -> string, r: Roles, slaves: seq<string>, parents: seq<string>)
    requires slaves == [] && |parents| == 0
    ensures CarriesOut(idOf, r, slaves, parents)
  {
  }

  /** So does a scale-up that reports success, although it discards the planned parents and pairs new
      slaves with new masters by position. */
  lemma ScaleCarriesOutPlan(env: Env, w: World, addrs: seq<Address>, asked: string)
    requires Ready(env, w, addrs) && asked in AddrIps(addrs) && ScaleOnce(env, w, addrs, asked).status == Done
    ensures var o, r := PlanVia(env.idOf, addrs, w.roles, asked), ScaleOnce(env, w, addrs, asked).world.roles;
            && o.Planned?
            && r.masters == w.roles.masters + IpSet(o.masters)
            && CarriesOut(env.idOf, r, o.slaves, o.parents)
  {
    hide WellFormed, PlanFor, PlanVia, GoodAddrs, Extends, ScaleOnce, IpSet, CarriesOut, Roles.Members, AddrIps,
         Complete;
    if asked in w.roles.Members() {
      ScaleCarriesOut(env, w, addrs, asked);
    } else {
      ScaleThroughOutsider(env, w, addrs, asked);
      OutsiderPlan(env.idOf, addrs, w.roles, asked);
      EmptyIpSet();
      NothingToCarryOut(env.idOf, w.roles, [], []);
    }
  }

  lemma ScaleCarriesOut(env: Env, w: World, addrs: seq<Address>, asked: string)
    requires Ready(env, w, addrs) && asked in w.roles.Members() && ScaleOnce(env, w, addrs, asked).status == Done
    ensures var o, r := PlanVia(env.idOf, addrs, w.roles, asked), ScaleOnce(env, w, addrs, asked).world.roles;
            && o.Planned?
            && r.masters == w.roles.masters + IpSet(o.masters)
            && CarriesOut(env.idOf, r, o.slaves, o.parents)
  {
    hide WellFormed, PlanFor, PlanVia, GoodAddrs, Attachable, Extends, Promoted, AttachSlaves, IdsOf, IpSet, Served,
         CarriesOut, Seen, Roles.Members;
    PromotedKeeps(env, w, addrs, asked);
    ScaleAlignment(env.idOf, addrs, w.roles);
    var b, o := Promoted(env, w, addrs, asked), PlanFor(env.idOf, addrs, w.roles);
    PlanAttachable(env.idOf, addrs, w.roles, b.world.roles);
    NewMastersAreMembers(b.world.roles, w.roles, o.masters);
    var ids := IdsOf(env.idOf, b.world.roles, o.masters);
    AttachSlavesExtends(env, b.world, o.slaves, ids);
    AttachSlavesPairs(env, b.world, o.slaves, ids);
    PairsCarryOut(env.idOf, AttachSlaves(env, b.world, o.slaves, ids).world.roles, b.world.roles, o.slaves, o.masters);
  }

  /** A creation that reports success has added the planned masters, each with its planned slave. */
  lemma CreationCarriesOutPlan(env: Env, w: World, addrs: seq<Address>)
    requires Ready(env, w, addrs) && CreateOnce(env, w, addrs).status == Done
    ensures var r := CreateOnce(env, w, addrs).world.roles;
            && addrs != []
            && r.masters == w.roles.masters + IpSet(FounderMasters(addrs))
            && CarriesOut(env.idOf, r, FounderSlaves(addrs), FounderMasters(addrs))
  {
    hide WellFormed, GoodAddrs, Attachable, AttachSlaves, IdsOf, FounderMasters, FounderSlaves, IpSet, CarriesOut,
         Extends, AttachFounders, Seen, Founded, Created;
    assert addrs != [];
    CreateSteps(env, w, addrs);
    hide CreateOnce;
    var ms, ss, founded := FounderMasters(addrs), FounderSlaves(addrs), Founded(addrs);
    var created := World(Created(env.idOf, w.roles, ms), w.clock + 2);
    CreatedMembers(env.idOf, w.roles, ms);
    FoundingPlan(env.idOf, addrs);
    FoundersSeeFounders(env.idOf, w.roles, addrs);
    FoundersDone(env, created, ss, ms, founded);
    var ids := IdsOf(env.idOf, founded, ms);
    var n := World(created.roles, created.clock + 1);
    AttachSlavesExtends(env, n, ss, ids);
    AttachSlavesPairs(env, n, ss, ids);
    FoundersAreMembers(addrs);
    PairsCarryOut(env.idOf, AttachSlaves(env, n, ss, ids).world.roles, founded, ss, ms);
  }

  lemma FoundersDone(env: Env, w: World, ss: seq<string>, ms: seq<string>, seen: Roles)
    requires ms != [] && AttachFounders(env, w, ss, ms).status == Done && seen == Seen(env.idOf, w.roles, ms[0])
    ensures var ids := IdsOf(env.idOf, seen, ms);
            && |ss| == |ms| == |ids|
            && AttachSlaves(env, World(w.roles, w.clock + 1), ss, ids).status == Done
            && AttachFounders(env, w, ss, ms).world.roles
               == AttachSlaves(env, World(w.roles, w.clock + 1), ss, ids).world.roles
  {
    hide AttachSlaves, IdsOf, Roles.Members, Seen;
  }

  lemma FoundersAreMembers(addrs: seq<Address>)
    ensures IpSet(FounderMasters(addrs)) <= Founded(addrs).Members()
  {
    hide FounderMasters, IpSet;
  }

  // ---------- scale-up after scale-up ----------

  lemma CompleteServesAll(idOf: string -> string, r: Roles, addrs: seq<Address>)
    requires GoodIds(idOf) && Complete(idOf, r, addrs)
    ensures Served(idOf, r) == r.masters
  {
    ServedCount(idOf, r, addrs);
  }

  /** Scale-ups one after the other, all through the same old endpoint. */
  function ScaleThrough(env: Env, w: World, asked: string, sizes: seq<seq<Address>>): Run
    decreases |sizes|
  {
    if sizes == [] then Run(w, Done)
    else
      var run := ScaleOnce(env, w, sizes[0], asked);
      if run.status != Done then run else ScaleThrough(env, run.world, asked, sizes[1..])
  }

  lemma {:induction false} GrowingLast(addrs: seq<Address>, sizes: seq<seq<Address>>)
    requires GoodAddrs(addrs) && Growing(addrs, sizes)
    ensures |addrs| <= |LastPods(addrs, sizes)|
    decreases |sizes|
  {
    hide GoodAddrs, AddrIps;
    if sizes != [] {
      GoodAddrsDistinct(addrs);
      GoodAddrsDistinct(sizes[0]);
      DistinctIpCount(addrs);
      DistinctIpCount(sizes[0]);
      Hosts.SubsetSize(AddrIps(addrs), AddrIps(sizes[0]));
      GrowingLast(sizes[0], sizes[1..]);
      assert LastPods(addrs, sizes) == LastPods(sizes[0], sizes[1..]);
    }
  }

  /** From a complete topology any number of undisturbed scale-ups succeed if and only if the node they
      ask is a member (or there is only ever one pod); then they leave a complete topology. With an even
      number of pods to start from it always is. */
  lemma {:induction false} ScaleUpsSucceed(env: Env, w: World, addrs: seq<Address>, asked: string,
                                           sizes: seq<seq<Address>>)
    requires GoodIds(env.idOf) && GoodAddrs(addrs) && Complete(env.idOf, w.roles, addrs)
    requires asked in AddrIps(addrs) && Growing(addrs, sizes) && Quiet(env, w.clock) && sizes != []
    ensures var run := ScaleThrough(env, w, asked, sizes);
            && (run.status == Done <==> asked in w.roles.Members() || |LastPods(addrs, sizes)| == 1)
            && (run.status == Done ==> Complete(env.idOf, run.world.roles, LastPods(addrs, sizes)))
            && (|addrs| % 2 == 0 ==> run.status == Done)
            && Extends(w.roles, run.world.roles)
    decreases |sizes|
  {
    hide WellFormed, GoodAddrs, Quiet, Extends, ScaleOnce, Served, AddrIps, ScaleSplits, Roles.Members;
    var more, rest := sizes[0], sizes[1..];
    GrowKeeps(env.idOf, w.roles, addrs, more);
    CompleteServesAll(env.idOf, w.roles, addrs);
    ScaleOnceKeeps(env, w, more, asked);
    ScaleOnceExtends(env, w, more, asked, Exactly);
    GrowingLast(more, rest);
    if |addrs| % 2 == 0 {
      EvenCompleteHasAll(env.idOf, w.roles, addrs);
    }
    var run := ScaleOnce(env, w, more, asked);
    assert LastPods(addrs, sizes) == LastPods(more, rest);
    if run.status == Done {
      MemberOrSingle(env.idOf, w.roles, run.world.roles, more, asked);
      if rest != [] {
        QuietLater(env, w.clock, run.world.clock);
        ScaleUpsSucceed(env, run.world, more, asked, rest);
        ExtendsTransitive(w.roles, run.world.roles, ScaleThrough(env, run.world, asked, rest).world.roles);
      }
    }
  }

  lemma MemberOrSingle(idOf: string -> string, r: Roles, r': Roles, addrs: seq<Address>, asked: string)
    requires GoodIds(idOf) && WellFormed(idOf, r', addrs) && Extends(r, r')
    ensures asked in r.Members() ==> asked in r'.Members()
    ensures |addrs| == 1 ==> asked !in r'.Members()
  {
    hide WellFormed;
    if |addrs| == 1 {
      SingleHasNoMembers(idOf, r', addrs);
    }
  }

  // ---------- scale-ups after a creation ----------

  /** The planned masters and slaves are all pods but the one left over. */
  lemma FoundersAndLeftover(addrs: seq<Address>)
    requires GoodAddrs(addrs) && addrs != []
    ensures var used := IpSet(FounderMasters(addrs)) + IpSet(FounderSlaves(addrs));
            var out := AddrIps(CreationPlan.Outside(addrs));
            && used == AddrIps(addrs) - out && out <= AddrIps(addrs)
            && |used| == 2 * (|addrs| / 2)
  {
    hide CreationPlan.Masters, CreationPlan.Slaves, CreationPlan.Outside, Ips, IpSet, Distinct;
    CreationProperties.CreationConserves(addrs);
    GoodAddrsDistinct(addrs);
    var m, s, o := CreationPlan.Masters(addrs), CreationPlan.Slaves(addrs), CreationPlan.Outside(addrs);
    IpsPermute(m + s + o, addrs);
    IpsConcat(m, s);
    IpsConcat(m + s, o);
    DistinctPermutation(Ips(addrs), Ips(m + s + o));
    AppendFacts(Ips(m + s), Ips(o));
    AppendFacts(Ips(m), Ips(s));
    SameIpSet(Ips(m + s + o), Ips(addrs));
    DistinctCount(Ips(m));
    DistinctCount(Ips(s));
  }

  lemma SameIpSet(s: seq<string>, t: seq<string>)
    requires multiset(s) == multiset(t)
    ensures IpSet(s) == IpSet(t)
  {
    forall x ensures x in s <==> x in t {
      assert x in multiset(s) <==> x in multiset(t);
    }
  }

  /** A first creation that reports success takes every pod in but the one left over. */
  lemma CreationMembers(env: Env, w: World, addrs: seq<Address>)
    requires Ready(env, w, addrs) && w.roles.Members() == {} && CreateOnce(env, w, addrs).status == Done
    ensures CreateOnce(env, w, addrs).world.roles.Members() == AddrIps(addrs) - AddrIps(CreationPlan.Outside(addrs))
  {
    hide WellFormed, GoodAddrs, FounderMasters, FounderSlaves, AddrIps, IpSet, CarriesOut, Extends, CreateOnce,
         CreationPlan.Outside;
    CreateOnceKeeps(env, w, addrs);
    CreationCarriesOutPlan(env, w, addrs);
    FoundersAndLeftover(addrs);
    var r := CreateOnce(env, w, addrs).world.roles;
    CarriedOutSlaves(env.idOf, r, FounderSlaves(addrs), FounderMasters(addrs));
    ServedCount(env.idOf, r, addrs);
    var used := IpSet(FounderMasters(addrs)) + IpSet(FounderSlaves(addrs));
    assert used <= r.Members();
    Hosts.SubsetSize(used, r.Members());
    assert r.Members() - used == {};
  }

  lemma CarriedOutSlaves(idOf: string -> string, r: Roles, slaves: seq<string>, parents: seq<string>)
    requires CarriesOut(idOf, r, slaves, parents)
    ensures IpSet(slaves) <= r.parentOf.Keys
  {
  }

  /** An undisturbed creation from nothing succeeds; the scale-ups that follow, undisturbed, succeed if
      and only if the node they ask is not the pod the creation plan leaves over. */
  lemma ScaleUpsAfterCreation(env: Env, w: World, addrs: seq<Address>, asked: string, sizes: seq<seq<Address>>)
    requires Ready(env, w, addrs) && w.roles.Members() == {} && |addrs| >= 2 && Quiet(env, w.clock)
    requires asked in AddrIps(addrs) && Growing(addrs, sizes) && sizes != []
    ensures var created := CreateOnce(env, w, addrs);
            && created.status == Done && Complete(env.idOf, created.world.roles, addrs)
            && (ScaleThrough(env, created.world, asked, sizes).status == Done
                <==> asked !in AddrIps(CreationPlan.Outside(addrs)))
  {
    hide WellFormed, GoodAddrs, FounderMasters, FounderSlaves, AddrIps, IpSet, Quiet, Extends, CreateOnce,
         ScaleThrough, CreationPlan.Outside, Growing, LastPods;
    CreateOnceKeeps(env, w, addrs);
    CreateOnceExact(env, w, addrs);
    CreationMembers(env, w, addrs);
    var created := CreateOnce(env, w, addrs);
    QuietLater(env, w.clock, created.world.clock);
    ScaleUpsSucceed(env, created.world, addrs, asked, sizes);
    GrowingLast(addrs, sizes);
  }
}
