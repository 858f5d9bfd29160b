/** One pass: a repair, a scale-up or a creation. Wherever it is cut short it keeps the topology in
    order, with the exceptions stated; if it reports success the topology is complete; and exactly
    stated is when an undisturbed pass succeeds. */
module Passes {
  import opened Counting
  import opened Hosts
  import opened ScalePlan
  import opened Topology
  import opened Repair
  import opened Lookup
  import opened Steps
  import opened Runs
  import CreationPlan
  import CreationProperties

  ghost predicate Ready(env: Env, w: World, addrs: seq<Address>) {
    GoodIds(env.idOf) && GoodAddrs(addrs) && WellFormed(env.idOf, w.roles, addrs)
  }

  // ---------- one repair ----------

  /** The planned masters can be promoted. */
  lemma PlanPromotable(idOf: string -> string, addrs: seq<Address>, r: Roles)
    requires GoodIds(idOf) && GoodAddrs(addrs) && WellFormed(idOf, r, addrs)
    ensures var o := PlanFor(idOf, addrs, r);
            o.Planned? && Promotable(r, addrs, o.masters)
  {
    hide WellFormed, PlanFor, GoodAddrs, AddrIps, Served, Roles.Members;
    PlanIsExact(idOf, addrs, r);
    var o := PlanFor(idOf, addrs, r);
    AppendFacts(o.masters, o.slaves);
  }

  lemma AppendFacts(a: seq<string>, b: seq<string>)
    requires Distinct(a + b)
    ensures Distinct(a) && Distinct(b) && IpSet(a) !! IpSet(b)
    ensures IpSet(a + b) == IpSet(a) + IpSet(b)
  {
    var all := a + b;
    forall i, j | 0 <= i < j < |a| ensures a[i] != a[j] { assert all[i] != all[j]; }
    forall i, j | 0 <= i < j < |b| ensures b[i] != b[j] { assert all[|a| + i] != all[|a| + j]; }
    forall i, j | 0 <= i < |a| && 0 <= j < |b| ensures a[i] != b[j] { assert all[i] != all[|a| + j]; }
  }

  /** Promoting masters serves nobody yet. */
  lemma ServedAfterJoin(idOf: string -> string, r: Roles, r': Roles, addrs: seq<Address>)
    requires GoodIds(idOf) && WellFormed(idOf, r, addrs)
    requires r'.parentOf == r.parentOf && r.masters <= r'.masters
    ensures Served(idOf, r') == Served(idOf, r)
  {
    forall m | m in Served(idOf, r') ensures m in Served(idOf, r) {
      assert idOf(m) in MasterIds(idOf, r);
    }
  }

  /** After the promotions the planned slaves can be attached to the planned parents. */
  lemma PlanAttachable(idOf: string -> string, addrs: seq<Address>, r: Roles, r': Roles)
    requires GoodIds(idOf) && GoodAddrs(addrs) && WellFormed(idOf, r, addrs) && WellFormed(idOf, r', addrs)
    requires var o := PlanFor(idOf, addrs, r);
             o.Planned? && r'.masters == r.masters + IpSet(o.masters) && r'.parentOf == r.parentOf
    ensures var o := PlanFor(idOf, addrs, r);
            && |o.slaves| == |o.parents| == |IdsOf(idOf, r', o.parents)| == |addrs| / 2 - |r.parentOf|
            && |r'.masters| == |addrs| / 2
            && Attachable(idOf, r', addrs, o.slaves, IdsOf(idOf, r', o.parents))
  {
    hide WellFormed, PlanFor, GoodAddrs, AddrIps, Served, Attachable, Distinct, IpSet;
    PlanIsExact(idOf, addrs, r);
    var o := PlanFor(idOf, addrs, r);
    AppendFacts(o.masters, o.slaves);
    ServedAfterJoin(idOf, r, r', addrs);
    assert IpSet(o.parents) <= r'.masters - Served(idOf, r');
    assert IpSet(o.parents) <= r'.Members();
    IdsOfMembers(idOf, r', o.parents);
    IdsAttach(idOf, r', addrs, o.slaves, o.parents);
    DistinctCount(o.masters);
  }

  lemma ExtendsMembers(r: Roles, r': Roles)
    requires Extends(r, r')
    ensures r.Members() <= r'.Members()
  {
  }

  /** A member asked lists the whole cluster, now and after anything was added to it. */
  lemma AskedSeesAll(idOf: string -> string, r: Roles, r': Roles, addrs: seq<Address>, asked: string)
    requires WellFormed(idOf, r, addrs) && WellFormed(idOf, r', addrs) && Extends(r, r') && asked in r.Members()
    ensures Seen(idOf, r, asked) == r && Seen(idOf, r', asked) == r' && asked in r'.Members()
    ensures PlanVia(idOf, addrs, r, asked) == PlanFor(idOf, addrs, r)
  {
    hide WellFormed, Extends, Seen, Roles.Members, PlanFor;
    OneClusterOnly(idOf, r, addrs);
    OneClusterOnly(idOf, r', addrs);
    ExtendsMembers(r, r');
    MembersSeeAll(idOf, r, asked);
    MembersSeeAll(idOf, r', asked);
  }

  /** The promotions through a member, wherever they stop; done means all of them, ready for the
      slaves. */
  lemma PromotedKeeps(env: Env, w: World, addrs: seq<Address>, asked: string)
    requires Ready(env, w, addrs) && asked in w.roles.Members()
    ensures Safe(env, w, addrs, Promoted(env, w, addrs, asked))
    ensures var b, o := Promoted(env, w, addrs, asked), PlanFor(env.idOf, addrs, w.roles);
            && o.Planned? && o == PlanVia(env.idOf, addrs, w.roles, asked)
            && b.world.roles.parentOf == w.roles.parentOf
            && Seen(env.idOf, b.world.roles, asked) == b.world.roles
            && (b.status == Done ==> b.world.roles.masters == w.roles.masters + IpSet(o.masters))
            && (Quiet(env, w.clock) ==> b.status == Done && Quiet(env, b.world.clock))
  {
    hide WellFormed, PlanFor, GoodAddrs, Promotable, Quiet, Extends, AddMasters, IpSet, Seen, Roles.Members;
    PlanPromotable(env.idOf, addrs, w.roles);
    var o := PlanFor(env.idOf, addrs, w.roles);
    var q := Ask(env, w);
    ExtendsReflexive(w.roles);
    AskedSeesAll(env.idOf, w.roles, w.roles, addrs, asked);
    ChangeSafe(env, w, addrs, w.roles);
    if q.status == Done {
      AddMastersKeeps(env, q.world, addrs, asked, o.masters);
      var a := AddMasters(env, q.world, asked, o.masters);
      SafeTransitive(env, w, addrs, q, a);
      if a.status == Done {
        ExtendsReflexive(a.world.roles);
        ChangeSafe(env, a.world, addrs, a.world.roles);
        SafeTransitive(env, w, addrs, a, Ask(env, a.world));
      }
    }
    QuietLater(env, w.clock, Promoted(env, w, addrs, asked).world.clock);
    AskedSeesAll(env.idOf, w.roles, Promoted(env, w, addrs, asked).world.roles, addrs, asked);
  }

  /** One repair keeps the topology well-formed wherever it stops; if it reports success the topology
      is complete, and undisturbed it does. */
  lemma RepairOnceKeeps(env: Env, w: World, addrs: seq<Address>, asked: string)
    requires Ready(env, w, addrs) && asked in w.roles.Members()
    ensures var run := RepairOnce(env, w, addrs, asked);
            && Safe(env, w, addrs, run)
            && (run.status == Done ==> Complete(env.idOf, run.world.roles, addrs))
            && (Quiet(env, w.clock) ==> run.status == Done)
  {
    hide WellFormed, PlanFor, PlanVia, GoodAddrs, Attachable, Quiet, Extends, Promoted, AttachSlaves, IdsOf, Seen,
         Roles.Members;
    PromotedKeeps(env, w, addrs, asked);
    var b, o := Promoted(env, w, addrs, asked), PlanFor(env.idOf, addrs, w.roles);
    if b.status == Done {
      PlanAttachable(env.idOf, addrs, w.roles, b.world.roles);
      if o.slaves != [] {
        var ids := IdsOf(env.idOf, b.world.roles, o.parents);
        AttachSlavesKeeps(env, b.world, addrs, o.slaves, ids);
        SafeTransitive(env, w, addrs, b, AttachSlaves(env, b.world, o.slaves, ids));
      }
    }
  }

  // ---------- one scale-up ----------

  /** Parent alignment, exactly: the lengths that `addSlaveToClusterMaster` compares agree if and only
      if every existing master has its slave, and then the discarded parents are the new masters. */
  lemma ScaleAlignment(idOf: string -> string, addrs: seq<Address>, r: Roles)
    requires GoodIds(idOf) && GoodAddrs(addrs) && WellFormed(idOf, r, addrs)
    ensures var o := PlanFor(idOf, addrs, r);
            && o.Planned?
            && (|o.slaves| == |o.masters| <==> Served(idOf, r) == r.masters)
            && (Served(idOf, r) == r.masters ==> o.parents == o.masters)
  {
    hide WellFormed, PlanFor, GoodAddrs, Served;
    PlanIsExact(idOf, addrs, r);
    ServedCount(idOf, r, addrs);
  }

  lemma NewMastersAreMembers(r: Roles, before: Roles, ms: seq<string>)
    requires r.masters == before.masters + IpSet(ms)
    ensures IpSet(ms) <= r.Members()
  {
  }

  lemma SafeError(env: Env, w: World, addrs: seq<Address>)
    requires WellFormed(env.idOf, w.roles, addrs)
    ensures Safe(env, w, addrs, Run(w, Error))
  {
  }

  /** A scale-up that asks a member. */
  lemma ScaleThroughMember(env: Env, w: World, addrs: seq<Address>, asked: string)
    requires Ready(env, w, addrs) && asked in w.roles.Members()
    ensures var run := ScaleOnce(env, w, addrs, asked);
            && Safe(env, w, addrs, run)
            && (run.status == Done ==> Complete(env.idOf, run.world.roles, addrs))
            && (Quiet(env, w.clock) ==> (run.status == Done <==> Served(env.idOf, w.roles) == w.roles.masters))
  {
    hide WellFormed, PlanFor, PlanVia, GoodAddrs, Attachable, Quiet, Extends, Promoted, AttachSlaves, IdsOf, Served,
         IpSet, Seen, Roles.Members;
    PromotedKeeps(env, w, addrs, asked);
    ScaleAlignment(env.idOf, addrs, w.roles);
    var b, o := Promoted(env, w, addrs, asked), PlanFor(env.idOf, addrs, w.roles);
    if b.status == Done {
      PlanAttachable(env.idOf, addrs, w.roles, b.world.roles);
      NewMastersAreMembers(b.world.roles, w.roles, o.masters);
      IdsOfMembers(env.idOf, b.world.roles, o.masters);
      var ids := IdsOf(env.idOf, b.world.roles, o.masters);
      SafeError(env, b.world, addrs);
      SafeTransitive(env, w, addrs, b, Run(b.world, Error));
      if |o.slaves| == |o.masters| {
        AttachSlavesKeeps(env, b.world, addrs, o.slaves, ids);
        SafeTransitive(env, w, addrs, b, AttachSlaves(env, b.world, o.slaves, ids));
      }
    }
  }

  // ---------- a scale-up that asks a node outside the cluster ----------

  /** The wait before a command ends well, and the command takes effect. */
  predicate Takes(env: Env, clock: nat) {
    env.answer(clock).Works? && !env.answer(clock + 1).FailsBefore?
  }

  /** A scale-up gets to its first add-node, and that takes effect. */
  predicate ScaleTakes(env: Env, clock: nat) {
    env.answer(clock).Works? && Takes(env, clock + 1)
  }

  /** There is a cluster, the node asked is outside it, and the first master planned from what that node
      lists is outside it too: the command that introduces the two to each other is legal. */
  predicate ScaleSplits(idOf: string -> string, r: Roles, addrs: seq<Address>, asked: string) {
    && r.Members() != {}
    && asked !in r.Members()
    && var o := PlanVia(idOf, addrs, r, asked);
       o.Planned? && o.masters != [] && o.masters[0] !in r.Members()
  }

  /** From a node outside every cluster the planner sees one master without a slave, so it plans one
      slave more than new masters. */
  lemma OutsiderPlan(idOf: string -> string, addrs: seq<Address>, r: Roles, asked: string)
    requires GoodIds(idOf) && GoodAddrs(addrs) && asked in AddrIps(addrs) - r.Members()
    ensures var o, lone := PlanVia(idOf, addrs, r, asked), OneCluster({asked}, map[]);
            && |addrs| >= 1 && o.Planned?
            && (|addrs| == 1 ==> o == Planned([], [], []))
            && (|addrs| >= 2 ==>
                  && |o.slaves| == |o.masters| + 1
                  && WellFormed(idOf, lone, addrs) && Promotable(lone, addrs, o.masters))
  {
    hide WellFormed, PlanFor, GoodAddrs, AddrIps, Served, Promotable;
    var lone := OneCluster({asked}, map[]);
    if |addrs| >= 2 {
      LoneWellFormed(idOf, addrs, asked);
      PlanPromotable(idOf, addrs, lone);
      PlanIsExact(idOf, addrs, lone);
    } else {
      SinglePlan(idOf, addrs, asked);
    }
  }

  lemma LoneWellFormed(idOf: string -> string, addrs: seq<Address>, ip: string)
    requires ip in AddrIps(addrs) && |addrs| >= 2
    ensures WellFormed(idOf, OneCluster({ip}, map[]), addrs)
  {
    var lone := OneCluster({ip}, map[]);
    assert lone.parentOf.Values == {} && lone.parentOf.Keys == {};
    assert |lone.masters| == 1;
  }

  lemma SinglePlan(idOf: string -> string, addrs: seq<Address>, ip: string)
    requires ip in AddrIps(addrs) && |addrs| < 2
    ensures |addrs| == 1 && PlanFor(idOf, addrs, OneCluster({ip}, map[])) == Planned([], [], [])
  {
    assert addrs == [addrs[0]] && Ips(addrs) == [addrs[0].ip];
    assert addrs[..0] == [];
    assert ip == addrs[0].ip;
    assert Without(addrs, OneCluster({ip}, map[]).Members()) == [];
  }

  /** The first introduction of two lone nodes founds the same cluster whether or not the first of them
      counts as one already. */
  lemma FirstJoin(idOf: string -> string, r: Roles, via: string, ip: string)
    requires r.Members() == {} && r.apart == map[]
    ensures Joined(idOf, r, via, ip) == Joined(idOf, OneCluster({via}, map[]), via, ip)
  {
    assert r.masters == {} && r.parentOf.Keys == {};
    assert r.parentOf == map[];
    assert {} + {via, ip} == {via} + {ip};
  }

  /** Masters added to a lone node while there is no cluster found one. */
  lemma FoundingByJoin(env: Env, w: World, addrs: seq<Address>, via: string, ips: seq<string>)
    requires WellFormed(env.idOf, w.roles, addrs) && w.roles.Members() == {}
    requires var lone := OneCluster({via}, map[]);
             WellFormed(env.idOf, lone, addrs) && Promotable(lone, addrs, ips)
    ensures WellFormed(env.idOf, AddMasters(env, w, via, ips).world.roles, addrs)
  {
    hide WellFormed, Promotable, Joined, Extends, Quiet, IpSet;
    var lone := OneCluster({via}, map[]);
    OneClusterOnly(env.idOf, w.roles, addrs);
    if ips != [] {
      PromotableFirst(lone, addrs, ips);
      FirstJoin(env.idOf, w.roles, via, ips[0]);
      AddMastersKeeps(env, World(lone, w.clock), addrs, via, ips);
      SameAfterFirst(env, w, World(lone, w.clock), via, ips);
    }
  }

  lemma PromotableFirst(r: Roles, addrs: seq<Address>, ips: seq<string>)
    requires Promotable(r, addrs, ips) && ips != []
    ensures ips[0] !in r.Members()
  {
    assert ips[0] in IpSet(ips);
  }

  lemma SameAfterFirst(env: Env, w: World, v: World, via: string, ips: seq<string>)
    requires ips != [] && w.clock == v.clock && ips[0] !in w.roles.Members() && ips[0] !in v.roles.Members()
    requires Joined(env.idOf, w.roles, via, ips[0]) == Joined(env.idOf, v.roles, via, ips[0])
    ensures var a, b := AddMasters(env, w, via, ips), AddMasters(env, v, via, ips);
            a.world.roles == w.roles || a == b
  {
    hide Joined, Roles.Members;
  }

  /** If it takes effect, the first introduction makes a second cluster; if not, nothing changes. */
  lemma SplittingJoin(env: Env, w: World, via: string, ips: seq<string>)
    requires w.roles.Members() != {} && via !in w.roles.Members() && ips != [] && ips[0] !in w.roles.Members()
    ensures var r' := AddMasters(env, w, via, ips).world.roles;
            if Takes(env, w.clock) then r'.apart != map[] else r' == w.roles
  {
    var after := World(Joined(env.idOf, w.roles, via, ips[0]), w.clock + 2);
    assert env.idOf(via) in after.roles.apart.Keys;
    AddMastersExtends(env, after, via, ips[1..]);
  }

  /** A scale-up that asks a node outside the cluster never reports success on two pods or more. It
      leaves a second cluster behind when it can. */
  lemma ScaleThroughOutsider(env: Env, w: World, addrs: seq<Address>, asked: string)
    requires Ready(env, w, addrs) && asked in AddrIps(addrs) - w.roles.Members()
    ensures var run := ScaleOnce(env, w, addrs, asked);
            && w.clock <= run.world.clock
            && (run.status == Done || run.status == Error)
            && (run.status == Done ==> |addrs| == 1 && run.world.roles == w.roles)
            && (Quiet(env, w.clock) ==> (run.status == Done <==> |addrs| == 1))
            && (!ScaleSplits(env.idOf, w.roles, addrs, asked) ==> WellFormed(env.idOf, run.world.roles, addrs))
            && (ScaleSplits(env.idOf, w.roles, addrs, asked) ==>
                  if ScaleTakes(env, w.clock) then run.world.roles.apart != map[] else run.world.roles == w.roles)
  {
    hide WellFormed, GoodAddrs, AddrIps, PlanVia, Promotable, Extends, Quiet, AddMasters, IdsOf, AttachSlaves, Seen,
         Roles.Members;
    OutsiderPlan(env.idOf, addrs, w.roles, asked);
    QuietFrom(env, w.clock);
    var o := PlanVia(env.idOf, addrs, w.roles, asked);
    var q := Ask(env, w);
    var a := AddMasters(env, q.world, asked, o.masters);
    AddMastersExtends(env, q.world, asked, o.masters);
    AddMastersOutside(env, q.world, addrs, asked, o.masters);
    if |addrs| == 1 {
      NothingToAdd(env, q.world, asked);
      QuietFrom(env, q.world.clock);
    }
  }

  lemma NothingToAdd(env: Env, w: World, via: string)
    ensures AddMasters(env, w, via, []) == Run(w, Done)
    ensures forall r: Roles :: IdsOf(env.idOf, r, []) == []
    ensures AttachSlaves(env, World(w.roles, w.clock + 1), [], []) == Run(World(w.roles, w.clock + 1), Done)
  {
  }

  lemma AddMastersOutside(env: Env, w: World, addrs: seq<Address>, via: string, ips: seq<string>)
    requires WellFormed(env.idOf, w.roles, addrs) && via !in w.roles.Members()
    requires |addrs| < 2 ==> ips == []
    requires var lone := OneCluster({via}, map[]);
             |addrs| >= 2 ==> WellFormed(env.idOf, lone, addrs) && Promotable(lone, addrs, ips)
    ensures var splits := w.roles.Members() != {} && ips != [] && ips[0] !in w.roles.Members();
            var r' := AddMasters(env, w, via, ips).world.roles;
            && (!splits ==> WellFormed(env.idOf, r', addrs))
            && (splits ==> if Takes(env, w.clock) then r'.apart != map[] else r' == w.roles)
  {
    hide WellFormed, Promotable, Quiet, Joined, Roles.Members;
    if w.roles.Members() == {} {
      if ips != [] {
        FoundingByJoin(env, w, addrs, via, ips);
      }
    } else if ips != [] && ips[0] !in w.roles.Members() {
      SplittingJoin(env, w, via, ips);
    }
  }

  /** A scale-up asks one old endpoint. Asking a member, or a node outside that cannot be introduced to
      another one or is not, it keeps the topology in order wherever it stops; otherwise it leaves a
      second cluster. It reports success only when the topology is complete, and undisturbed exactly
      when the node asked is a member and every existing master had its slave (or there is but one
      pod). */
  lemma ScaleOnceKeeps(env: Env, w: World, addrs: seq<Address>, asked: string)
    requires Ready(env, w, addrs) && asked in AddrIps(addrs)
    ensures var run := ScaleOnce(env, w, addrs, asked);
            && (if ScaleSplits(env.idOf, w.roles, addrs, asked) && ScaleTakes(env, w.clock)
                then run.world.roles.apart != map[] else Safe(env, w, addrs, run))
            && (run.status == Done || run.status == Error)
            && (run.status == Done ==> Complete(env.idOf, run.world.roles, addrs))
            && (run.status == Done ==> |addrs| == 1 || asked in w.roles.Members())
            && (Quiet(env, w.clock) ==>
                  (run.status == Done <==>
                     || |addrs| == 1
                     || (asked in w.roles.Members() && Served(env.idOf, w.roles) == w.roles.masters)))
  {
    hide WellFormed, GoodAddrs, AddrIps, ScaleOnce, Quiet, Extends, Served, PlanVia, Roles.Members;
    if asked in w.roles.Members() {
      ScaleThroughMember(env, w, addrs, asked);
      if |addrs| < 2 { SingleHasNoMembers(env.idOf, w.roles, addrs); }
    } else {
      ScaleThroughOutsider(env, w, addrs, asked);
      ScaleOnceExtends(env, w, addrs, asked, Exactly);
      if |addrs| < 2 { SingleHasNoMembers(env.idOf, w.roles, addrs); }
    }
  }

  /** A single pod is never a member: there is no master for it to be or to have. */
  lemma SingleHasNoMembers(idOf: string -> string, r: Roles, addrs: seq<Address>)
    requires GoodIds(idOf) && WellFormed(idOf, r, addrs) && |addrs| < 2
    ensures r.Members() == {} && Complete(idOf, r, addrs)
  {
    ServedCount(idOf, r, addrs);
    assert r.masters == {} && r.parentOf.Keys == {};
  }

  /** Whatever node is asked and whatever ids are found, no member changes its role or master. */
  lemma ScaleOnceExtends(env: Env, w: World, addrs: seq<Address>, asked: string, how: Finding)
    ensures Extends(w.roles, ScaleOnce(env, w, addrs, asked, how).world.roles)
    ensures w.clock <= ScaleOnce(env, w, addrs, asked, how).world.clock
  {
    hide PlanVia, Extends, AddMasters, FindIds, AttachSlaves, Seen;
    PromotedExtends(env, w, addrs, asked);
    var b, o := Promoted(env, w, addrs, asked), PlanVia(env.idOf, addrs, w.roles, asked);
    if b.status == Done && o.Planned? {
      var ids := FindIds(how, env.idOf, Seen(env.idOf, b.world.roles, asked), o.masters);
      AddSlavesExtends(env, b.world, o.slaves, o.masters, ids);
      ExtendsTransitive(w.roles, b.world.roles, ScaleOnce(env, w, addrs, asked, how).world.roles);
    }
  }

  lemma PromotedExtends(env: Env, w: World, addrs: seq<Address>, asked: string)
    ensures Extends(w.roles, Promoted(env, w, addrs, asked).world.roles)
    ensures w.clock <= Promoted(env, w, addrs, asked).world.clock
  {
    hide PlanVia, Extends, AddMasters;
    ExtendsReflexive(w.roles);
    var o := PlanVia(env.idOf, addrs, w.roles, asked);
    if o.Planned? {
      AddMastersExtends(env, Ask(env, w).world, asked, o.masters);
    }
  }

  lemma AddSlavesExtends(env: Env, w: World, slaves: seq<string>, masters: seq<string>, ids: seq<string>)
    ensures Extends(w.roles, AddSlaves(env, w, slaves, masters, ids).world.roles)
    ensures w.clock <= AddSlaves(env, w, slaves, masters, ids).world.clock
  {
    hide Extends, AttachSlaves;
    ExtendsReflexive(w.roles);
    if |slaves| == |ids| {
      AttachSlavesExtends(env, w, slaves, ids);
    }
  }

  // ---------- creation ----------

  function FounderMasters(addrs: seq<Address>): seq<string> {
    Ips(CreationPlan.Masters(addrs))
  }

  function FounderSlaves(addrs: seq<Address>): seq<string>
    requires addrs != []
  {
    Ips(CreationPlan.Slaves(addrs))
  }

  /** The roles right after `redis-trib create`. */
  function Founded(addrs: seq<Address>): Roles {
    OneCluster(IpSet(FounderMasters(addrs)), map[])
  }

  /** There is a cluster, but none of the planned masters is in it: nothing stops the command. */
  predicate CreateSplits(r: Roles, addrs: seq<Address>) {
    |addrs| >= 2 && r.Members() != {} && IpSet(FounderMasters(addrs)) !! r.Members()
  }

  lemma FoundingPlan(idOf: string -> string, addrs: seq<Address>)
    requires GoodIds(idOf) && GoodAddrs(addrs) && addrs != []
    ensures var ms, ss := FounderMasters(addrs), FounderSlaves(addrs);
            && |ms| == |ss| == |addrs| / 2
            && Distinct(ms) && Distinct(ss) && IpSet(ms) !! IpSet(ss)
            && IpSet(ms) + IpSet(ss) <= AddrIps(addrs)
  {
    hide CreationPlan.Masters, CreationPlan.Slaves, CreationPlan.Outside, AddrIps, IpSet, Distinct, Ips;
    CreationProperties.CreationConserves(addrs);
    var m, s, o := CreationPlan.Masters(addrs), CreationPlan.Slaves(addrs), CreationPlan.Outside(addrs);
    GoodAddrsDistinct(addrs);
    PartitionIps(m, s, o, addrs);
    AppendFacts(Ips(m), Ips(s));
  }

  lemma FoundedWellFormed(idOf: string -> string, addrs: seq<Address>)
    requires GoodIds(idOf) && GoodAddrs(addrs) && addrs != []
    ensures WellFormed(idOf, Founded(addrs), addrs)
    ensures |Founded(addrs).masters| == |Founded(addrs).Members()| == |addrs| / 2
  {
    hide FounderMasters, FounderSlaves, AddrIps, IpSet, Distinct, GoodAddrs;
    FoundingPlan(idOf, addrs);
    DistinctCount(FounderMasters(addrs));
    var r := Founded(addrs);
    assert r.parentOf.Keys == {} && r.parentOf.Values == {};
    assert r.Members() == r.masters;
  }

  lemma FoundedAttachable(idOf: string -> string, addrs: seq<Address>)
    requires GoodIds(idOf) && GoodAddrs(addrs) && addrs != []
    ensures var r, ms, ss := Founded(addrs), FounderMasters(addrs), FounderSlaves(addrs);
            && |ms| == |ss| == |addrs| / 2 == |IdsOf(idOf, r, ms)|
            && Attachable(idOf, r, addrs, ss, IdsOf(idOf, r, ms))
  {
    hide FounderMasters, FounderSlaves, AddrIps, IpSet, Distinct, GoodAddrs, WellFormed, Attachable;
    FoundingPlan(idOf, addrs);
    FoundedWellFormed(idOf, addrs);
    var r, ms, ss := Founded(addrs), FounderMasters(addrs), FounderSlaves(addrs);
    assert r.parentOf.Values == {} && Served(idOf, r) == {};
    assert r.parentOf.Keys == {} && r.Members() == r.masters;
    IdsOfMembers(idOf, r, ms);
    IdsAttach(idOf, r, addrs, ss, ms);
  }

  /** What every pass keeps, also one that ends in a panic. */
  ghost predicate Sound(env: Env, w: World, addrs: seq<Address>, run: Run) {
    && WellFormed(env.idOf, run.world.roles, addrs)
    && Extends(w.roles, run.world.roles)
    && w.clock <= run.world.clock
    && (run.status == Done ==> Complete(env.idOf, run.world.roles, addrs))
  }

  lemma EmptyExtends(r: Roles, r': Roles)
    requires r.Members() == {} && r.apart == map[]
    ensures Extends(r, r')
  {
    assert r.masters == {} && r.parentOf.Keys == {};
  }

  lemma CreatedExtends(idOf: string -> string, r: Roles, ms: seq<string>)
    ensures Extends(r, Created(idOf, r, ms))
  {
  }

  /** The new cluster lists its founders only, also when it is not the first one. */
  lemma FoundersSeeFounders(idOf: string -> string, r: Roles, addrs: seq<Address>)
    requires GoodIds(idOf) && GoodAddrs(addrs) && WellFormed(idOf, r, addrs) && |addrs| >= 2
    requires IpSet(FounderMasters(addrs)) !! r.Members()
    ensures FounderMasters(addrs) != []
    ensures Seen(idOf, Created(idOf, r, FounderMasters(addrs)), FounderMasters(addrs)[0]) == Founded(addrs)
  {
    hide FounderMasters, FounderSlaves;
    var ms := FounderMasters(addrs);
    FoundingPlan(idOf, addrs);
    FounderNamed(idOf, addrs);
    if r.Members() == {} {
      NobodyYet(r);
      assert Created(idOf, r, ms) == Founded(addrs);
      MembersSeeAll(idOf, Founded(addrs), ms[0]);
    } else {
      ApartSeen(idOf, r, addrs, ms);
    }
  }

  lemma NobodyYet(r: Roles)
    requires r.Members() == {}
    ensures r.masters == {} && r.parentOf == map[]
  {
    assert r.parentOf.Keys == {};
  }

  lemma FounderNamed(idOf: string -> string, addrs: seq<Address>)
    requires GoodIds(idOf) && GoodAddrs(addrs) && |addrs| >= 2
    ensures FounderMasters(addrs) != [] && FounderMasters(addrs)[0] in IpSet(FounderMasters(addrs))
    ensures FounderMasters(addrs)[0] != ""
  {
    hide FounderMasters, FounderSlaves;
    FoundingPlan(idOf, addrs);
    var i := IndexOf(addrs, FounderMasters(addrs)[0]);
  }

  lemma IndexOf(addrs: seq<Address>, ip: string) returns (i: nat)
    requires ip in AddrIps(addrs)
    ensures i < |addrs| && addrs[i].ip == ip
  {
    i :| 0 <= i < |Ips(addrs)| && Ips(addrs)[i] == ip;
  }

  /** Members are endpoints, so their IPs can be read back from a listing. */
  lemma WellFormedGood(idOf: string -> string, r: Roles, addrs: seq<Address>)
    requires GoodAddrs(addrs) && WellFormed(idOf, r, addrs)
    ensures GoodRoles(r)
  {
    forall ip | ip in r.Members() ensures ':' !in ip {
      var i := IndexOf(addrs, ip);
    }
  }

  /** Planned masters are endpoints. */
  lemma PlanGood(idOf: string -> string, addrs: seq<Address>, r: Roles, asked: string)
    requires GoodIds(idOf) && GoodAddrs(addrs) && WellFormed(idOf, r, addrs) && asked in AddrIps(addrs)
    ensures var o := PlanVia(idOf, addrs, r, asked);
            && o.Planned? && IpSet(o.masters) <= AddrIps(addrs)
    ensures ':' !in asked && forall ip :: ip in AddrIps(addrs) ==> ':' !in ip
  {
    hide WellFormed, PlanFor, PlanVia, AddrIps, IpSet, Roles.Members, Seen;
    if asked in r.Members() {
      OneClusterOnly(idOf, r, addrs);
      AskedSeesAll(idOf, r, r, addrs, asked) by { ExtendsReflexive(r); }
      PlanPromotable(idOf, addrs, r);
    } else {
      OutsiderPlan(idOf, addrs, r, asked);
      if |addrs| == 1 { EmptyIpSet(); }
    }
    forall ip | ip in AddrIps(addrs) ensures ':' !in ip {
      var i := IndexOf(addrs, ip);
    }
  }

  /** Exactly the founders' ids name a cluster apart. */
  lemma ApartId(idOf: string -> string, r: Roles, ms: seq<string>, m: string)
    requires GoodIds(idOf) && r.apart == map[] && r.Members() != {} && ms != []
    ensures var apart := Created(idOf, r, ms).apart;
            && (idOf(m) in apart <==> m in IpSet(ms))
            && (m in IpSet(ms) ==> apart[idOf(m)] == ms[0])
  {
    hide IpSet, Roles.Members;
    assert Created(idOf, r, ms).apart == map x | x in IpSet(ms) :: idOf(x) := ms[0];
  }

  lemma CreatedCluster(idOf: string -> string, r: Roles, ms: seq<string>, ip: string)
    requires GoodIds(idOf) && r.apart == map[] && r.parentOf.Values <= MasterIds(idOf, r) && r.Members() != {}
    requires ms != [] && IpSet(ms) !! r.Members() && ip in Created(idOf, r, ms).Members()
    ensures ClusterOf(idOf, Created(idOf, r, ms), ip) == if ip in IpSet(ms) then ms[0] else ""
  {
    hide IpSet;
    if ip in r.parentOf.Keys {
      assert r.parentOf[ip] in r.parentOf.Values;
      var m :| m in r.masters && idOf(m) == r.parentOf[ip];
      hide Created, MasterIds, GoodIds;
      CreatedMembers(idOf, r, ms);
      ApartId(idOf, r, ms, m);
    } else {
      hide Created, MasterIds, GoodIds;
      CreatedMembers(idOf, r, ms);
      ApartId(idOf, r, ms, ip);
    }
  }

  lemma CreatedMembers(idOf: string -> string, r: Roles, ms: seq<string>)
    ensures Created(idOf, r, ms).masters == r.masters + IpSet(ms) && Created(idOf, r, ms).parentOf == r.parentOf
    ensures Created(idOf, r, ms).Members() == r.Members() + IpSet(ms)
  {
    hide IpSet;
  }

  /** A cluster of these masters and nobody else lists them and nobody else. */
  lemma SeenMasters(idOf: string -> string, r: Roles, asked: string, ms: set<string>)
    requires asked in ms && ms <= r.masters && ms !! r.parentOf.Keys
    requires forall ip :: ip in r.Members() ==> (ClusterOf(idOf, r, ip) == ClusterOf(idOf, r, asked) <==> ip in ms)
    ensures Seen(idOf, r, asked) == OneCluster(ms, map[])
  {
    hide ClusterOf;
    var seen := Seen(idOf, r, asked);
    assert seen.masters == ms;
    assert seen.parentOf.Keys == {};
  }

  /** Who belongs to a cluster founded beside another one. */
  lemma ApartSeen(idOf: string -> string, r: Roles, addrs: seq<Address>, ms: seq<string>)
    requires GoodIds(idOf) && WellFormed(idOf, r, addrs) && r.Members() != {}
    requires ms != [] && ms[0] != "" && IpSet(ms) !! r.Members() && ms[0] in IpSet(ms)
    ensures Seen(idOf, Created(idOf, r, ms), ms[0]) == OneCluster(IpSet(ms), map[])
  {
    hide IpSet, AddrIps, Injective, Created, ClusterOf, MasterIds, GoodIds, Seen;
    var r' := Created(idOf, r, ms);
    CreatedMembers(idOf, r, ms);
    forall ip | ip in r'.Members() ensures ClusterOf(idOf, r', ip) == if ip in IpSet(ms) then ms[0] else "" {
      CreatedCluster(idOf, r, ms, ip);
    }
    SeenMasters(idOf, r', ms[0], IpSet(ms));
  }

  /** What remains of a creation, on whatever topology: no member changes, and undisturbed it succeeds
      exactly when none of the planned slaves is a member. */
  lemma AttachFoundersExact(env: Env, w: World, addrs: seq<Address>)
    requires GoodIds(env.idOf) && GoodAddrs(addrs) && |addrs| >= 2
    requires FounderMasters(addrs) != [] && IpSet(FounderMasters(addrs)) <= w.roles.masters
    requires Seen(env.idOf, w.roles, FounderMasters(addrs)[0]) == Founded(addrs)
    ensures var run := AttachFounders(env, w, FounderSlaves(addrs), FounderMasters(addrs));
            && Extends(w.roles, run.world.roles)
            && w.clock <= run.world.clock
            && (run.status == Done || run.status == Error)
            && (Quiet(env, w.clock) ==> (run.status == Done <==> IpSet(FounderSlaves(addrs)) !! w.roles.Members()))
  {
    hide FounderMasters, FounderSlaves, Seen, Founded, AttachSlaves, IdsOf, Attachable, Quiet, Extends,
         Roles.Members, GoodAddrs, IpSet;
    var ms, ss, r := FounderMasters(addrs), FounderSlaves(addrs), Founded(addrs);
    var ids := IdsOf(env.idOf, r, ms);
    FoundingPlan(env.idOf, addrs);
    FoundedWellFormed(env.idOf, addrs);
    FoundedAttachable(env.idOf, addrs);
    ExtendsReflexive(w.roles);
    QuietFrom(env, w.clock);
    var n := Ask(env, w);
    AttachSlavesExtends(env, n.world, ss, ids);
    var t := AttachSlaves(env, n.world, ss, ids);
    QuietLater(env, w.clock, t.world.clock);
    QuietFrom(env, t.world.clock);
    if Quiet(env, w.clock) {
      FounderIds(env.idOf, w.roles, addrs);
      AttachSlavesExact(env, n.world, ss, ids);
    }
  }

  lemma FounderIds(idOf: string -> string, r: Roles, addrs: seq<Address>)
    requires GoodIds(idOf) && GoodAddrs(addrs) && |addrs| >= 2
    requires IpSet(FounderMasters(addrs)) <= r.masters
    ensures IpSet(IdsOf(idOf, Founded(addrs), FounderMasters(addrs))) <= MasterIds(idOf, r)
  {
    hide FounderMasters, FounderSlaves, IpSet, IdsOf, AddrIps;
    FoundedAttachable(idOf, addrs);
    assert MasterIds(idOf, Founded(addrs)) <= MasterIds(idOf, r);
  }

  /** Where nothing exists, what remains of a creation keeps the topology in order. */
  lemma AttachFoundersKeeps(env: Env, w: World, addrs: seq<Address>)
    requires GoodIds(env.idOf) && GoodAddrs(addrs) && |addrs| >= 2 && w.roles == Founded(addrs)
    requires FounderMasters(addrs) != []
    ensures Sound(env, w, addrs, AttachFounders(env, w, FounderSlaves(addrs), FounderMasters(addrs)))
  {
    hide FounderMasters, FounderSlaves, WellFormed, GoodAddrs, Attachable, Quiet, Extends, AttachSlaves, IdsOf,
         Founded, Seen, Roles.Members, IpSet;
    FoundedAttachable(env.idOf, addrs);
    FoundedWellFormed(env.idOf, addrs);
    FounderNamed(env.idOf, addrs);
    var ms, ss := FounderMasters(addrs), FounderSlaves(addrs);
    FoundedAlone(env.idOf, addrs);
    var n := Ask(env, w);
    ExtendsReflexive(w.roles);
    ChangeSafe(env, w, addrs, w.roles);
    if n.status == Done {
      var ids := IdsOf(env.idOf, w.roles, ms);
      AttachSlavesKeeps(env, n.world, addrs, ss, ids);
      var s := AttachSlaves(env, n.world, ss, ids);
      SafeTransitive(env, w, addrs, n, s);
      ExtendsReflexive(s.world.roles);
      ChangeSafe(env, s.world, addrs, s.world.roles);
      SafeTransitive(env, w, addrs, s, Ask(env, s.world));
    }
  }

  lemma FoundedAlone(idOf: string -> string, addrs: seq<Address>)
    requires FounderMasters(addrs) != [] && FounderMasters(addrs)[0] in IpSet(FounderMasters(addrs))
    ensures Seen(idOf, Founded(addrs), FounderMasters(addrs)[0]) == Founded(addrs)
    ensures Founded(addrs).parentOf == map[] && |Founded(addrs).parentOf| == 0
  {
    hide FounderMasters, IpSet, Seen;
    MembersSeeAll(idOf, Founded(addrs), FounderMasters(addrs)[0]);
  }

  /** None of the pods the creation plan uses is a member. */
  predicate CreationFits(r: Roles, addrs: seq<Address>) {
    |addrs| >= 2 && IpSet(FounderMasters(addrs)) + IpSet(FounderSlaves(addrs)) !! r.Members()
  }

  lemma CreateSteps(env: Env, w: World, addrs: seq<Address>)
    requires addrs != []
    ensures var run, ms := CreateOnce(env, w, addrs), FounderMasters(addrs);
            var created := World(Created(env.idOf, w.roles, ms), w.clock + 2);
            if !Takes(env, w.clock) || !(IpSet(ms) !! w.roles.Members()) then
              run.world.roles == w.roles && w.clock <= run.world.clock && run.status == Error
            else if !env.answer(w.clock + 1).Works? then run == Run(created, Error)
            else if ms == [] then run == Run(created, Panicked)
            else run == AttachFounders(env, created, FounderSlaves(addrs), ms)
  {
    hide CreationPlan.Masters, CreationPlan.Slaves, Ips, Created, Roles.Members, IpSet, AttachFounders;
  }

  /** The second half of a creation that takes effect, and what it leaves alone. */
  lemma CreationTakes(env: Env, w: World, addrs: seq<Address>)
    requires Ready(env, w, addrs) && |addrs| >= 2
    requires IpSet(FounderMasters(addrs)) !! w.roles.Members()
    ensures var created := World(Created(env.idOf, w.roles, FounderMasters(addrs)), w.clock + 2);
            && FounderMasters(addrs) != []
            && Extends(w.roles, created.roles)
            && var run := AttachFounders(env, created, FounderSlaves(addrs), FounderMasters(addrs));
            && Extends(created.roles, run.world.roles) && Extends(w.roles, run.world.roles)
            && w.clock <= run.world.clock
            && (run.status == Done || run.status == Error)
            && (Quiet(env, w.clock) ==> (run.status == Done <==> CreationFits(w.roles, addrs)))
  {
    hide FounderMasters, FounderSlaves, Seen, Founded, Quiet, Extends, Roles.Members, WellFormed, GoodAddrs,
         AttachFounders, IpSet, Created;
    var ms := FounderMasters(addrs);
    FoundingPlan(env.idOf, addrs);
    FoundersSeeFounders(env.idOf, w.roles, addrs);
    CreatedMembers(env.idOf, w.roles, ms);
    CreatedExtends(env.idOf, w.roles, ms);
    var created := World(Created(env.idOf, w.roles, ms), w.clock + 2);
    QuietLater(env, w.clock, created.clock);
    AttachFoundersExact(env, created, addrs);
    ExtendsTransitive(w.roles, created.roles, AttachFounders(env, created, FounderSlaves(addrs), ms).world.roles);
  }

  lemma NoFounders(idOf: string -> string, r: Roles, addrs: seq<Address>)
    requires GoodIds(idOf) && GoodAddrs(addrs) && |addrs| == 1
    ensures FounderMasters(addrs) == [] && Created(idOf, r, []) == r
  {
    hide CreationPlan.Masters, CreationPlan.Slaves;
    FoundingPlan(idOf, addrs);
    assert r.masters + {} == r.masters;
    EmptyIpSet();
  }

  /** Creation on whatever topology: it never hangs and panics only on a single pod; no member changes
      its role or master; and undisturbed it succeeds exactly when none of the planned masters and
      slaves is a member. */
  lemma CreateOnceExact(env: Env, w: World, addrs: seq<Address>)
    requires Ready(env, w, addrs)
    ensures var run := CreateOnce(env, w, addrs);
            && Extends(w.roles, run.world.roles)
            && w.clock <= run.world.clock
            && run.status != Hung
            && (run.status == Panicked ==> |addrs| == 1)
            && (Quiet(env, w.clock) ==> (run.status == Done <==> CreationFits(w.roles, addrs)))
  {
    hide FounderMasters, FounderSlaves, Quiet, Extends, Roles.Members, WellFormed, GoodAddrs, AttachFounders, IpSet,
         Created;
    ExtendsReflexive(w.roles);
    QuietFrom(env, w.clock);
    QuietFrom(env, w.clock + 1);
    if addrs != [] {
      CreateSteps(env, w, addrs);
      hide CreateOnce;
      if |addrs| == 1 {
        NoFounders(env.idOf, w.roles, addrs);
      } else if IpSet(FounderMasters(addrs)) !! w.roles.Members() {
        CreationTakes(env, w, addrs);
      }
    }
  }

  /** Whatever there is already, no member changes its role or master. */
  lemma CreateOnceExtends(env: Env, w: World, addrs: seq<Address>)
    ensures Extends(w.roles, CreateOnce(env, w, addrs).world.roles)
  {
    hide FounderMasters, FounderSlaves, Extends, IpSet, Created, AttachFounders, Roles.Members;
    ExtendsReflexive(w.roles);
    if addrs != [] {
      CreateSteps(env, w, addrs);
      hide CreateOnce;
      var ms, ss := FounderMasters(addrs), FounderSlaves(addrs);
      var created := World(Created(env.idOf, w.roles, ms), w.clock + 2);
      CreatedExtends(env.idOf, w.roles, ms);
      if ms != [] {
        AttachFoundersExtends(env, created, ss, ms);
        ExtendsTransitive(w.roles, created.roles, AttachFounders(env, created, ss, ms).world.roles);
      }
    }
  }

  lemma AttachFoundersExtends(env: Env, w: World, ss: seq<string>, ms: seq<string>)
    requires ms != []
    ensures Extends(w.roles, AttachFounders(env, w, ss, ms).world.roles)
  {
    hide Extends, AddSlaves, IdsOf, Seen, Roles.Members;
    ExtendsReflexive(w.roles);
    AddSlavesExtends(env, Ask(env, w).world, ss, ms, IdsOf(env.idOf, Seen(env.idOf, w.roles, ms[0]), ms));
  }

  lemma RepairOnceExtends(env: Env, w: World, addrs: seq<Address>, asked: string)
    ensures Extends(w.roles, RepairOnce(env, w, addrs, asked).world.roles)
  {
    hide PlanVia, Extends, Promoted, IdsOf, AddSlaves, Seen;
    PromotedExtends(env, w, addrs, asked);
    var b, o := Promoted(env, w, addrs, asked), PlanVia(env.idOf, addrs, w.roles, asked);
    if b.status == Done && o.Planned? {
      var ids := IdsOf(env.idOf, Seen(env.idOf, b.world.roles, asked), o.parents);
      AddSlavesExtends(env, b.world, o.slaves, o.parents, ids);
      ExtendsTransitive(w.roles, b.world.roles, AddSlaves(env, b.world, o.slaves, o.parents, ids).world.roles);
    }
  }

  /** Exactly when a creation changes anything: two pods or more, no planned master a member, and the
      command takes effect. Where there is a cluster already, the change is a second one. */
  lemma CreationChangesExactly(env: Env, w: World, addrs: seq<Address>)
    requires Ready(env, w, addrs)
    ensures var r, r' := w.roles, CreateOnce(env, w, addrs).world.roles;
            && (r' != r <==> |addrs| >= 2 && IpSet(FounderMasters(addrs)) !! r.Members() && Takes(env, w.clock))
            && (r' == r && |addrs| >= 2 ==> CreateOnce(env, w, addrs).status == Error)
            && (r' != r && r.Members() != {} ==> r'.apart != map[])
  {
    hide FounderMasters, FounderSlaves, Quiet, WellFormed, GoodAddrs, AttachFounders, IpSet, Created;
    if addrs != [] {
      CreateSteps(env, w, addrs);
      hide CreateOnce;
      if |addrs| == 1 {
        NoFounders(env.idOf, w.roles, addrs);
      } else if IpSet(FounderMasters(addrs)) !! w.roles.Members() {
        CreationTakes(env, w, addrs);
        FounderNamed(env.idOf, addrs);
        CreatedMembers(env.idOf, w.roles, FounderMasters(addrs));
        OneClusterOnly(env.idOf, w.roles, addrs);
        if w.roles.Members() != {} {
          ApartId(env.idOf, w.roles, FounderMasters(addrs), FounderMasters(addrs)[0]);
        }
      }
    }
  }

  /** Creation keeps the topology in order wherever it stops, unless there is a cluster that none of the
      planned masters belongs to and the command takes effect. Then it founds a second one. */
  lemma CreateOnceKeeps(env: Env, w: World, addrs: seq<Address>)
    requires Ready(env, w, addrs)
    ensures var run := CreateOnce(env, w, addrs);
            if CreateSplits(w.roles, addrs) && Takes(env, w.clock) then run.world.roles.apart != map[]
            else Sound(env, w, addrs, run)
  {
    hide FounderMasters, FounderSlaves, Quiet, WellFormed, GoodAddrs, AttachFounders, IpSet, Created, Extends,
         Complete, CreateOnce, Roles.Members;
    CreateOnceExact(env, w, addrs);
    CreationChangesExactly(env, w, addrs);
    if |addrs| < 2 {
      SingleHasNoMembers(env.idOf, w.roles, addrs);
    } else if w.roles.Members() == {} {
      FirstCreation(env, w, addrs);
    }
  }

  lemma FirstCreation(env: Env, w: World, addrs: seq<Address>)
    requires Ready(env, w, addrs) && |addrs| >= 2 && w.roles.Members() == {}
    ensures Sound(env, w, addrs, CreateOnce(env, w, addrs))
  {
    hide FounderMasters, FounderSlaves, Quiet, WellFormed, GoodAddrs, AttachFounders, IpSet, Extends, Complete;
    CreateOnceExact(env, w, addrs);
    CreateSteps(env, w, addrs);
    hide CreateOnce;
    NobodyYet(w.roles);
    OneClusterOnly(env.idOf, w.roles, addrs);
    FounderNamed(env.idOf, addrs);
    FoundedWellFormed(env.idOf, addrs);
    assert Created(env.idOf, w.roles, FounderMasters(addrs)) == Founded(addrs);
    var founded := World(Founded(addrs), w.clock + 2);
    EmptyExtends(w.roles, founded.roles);
    AttachFoundersKeeps(env, founded, addrs);
    ExtendsTransitive(w.roles, founded.roles,
                      AttachFounders(env, founded, FounderSlaves(addrs), FounderMasters(addrs)).world.roles);
  }
}
