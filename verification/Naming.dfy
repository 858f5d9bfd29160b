/** The scale-up path finds the new masters' node ids by substring. Exactly when that goes right. */
module Naming {
  import opened Strings
  import opened Hosts
  import opened ScalePlan
  import opened Topology
  import opened Repair
  import opened Lookup
  import opened Steps
  import opened Runs
  import opened Passes
  import opened Branches
  import opened Outcomes

  /** No address of another node the asked one lists, or of another planned master, contains a planned
      master's IP. */
  ghost predicate ClearNames(idOf: string -> string, r: Roles, addrs: seq<Address>, asked: string) {
    var o := PlanVia(idOf, addrs, r, asked);
    o.Planned? ==> ClearAmong(Seen(idOf, r, asked).Members() + IpSet(o.masters), o.masters)
  }

  /** If the scale-up gets that far, it looks ids up in what the asked node lists then. */
  ghost predicate ListsThen(env: Env, w: World, addrs: seq<Address>, asked: string, how: Finding) {
    var b := Promoted(env, w, addrs, asked);
    how.InListing? && b.status == Done ==> Lists(env.idOf, how.nodes, Seen(env.idOf, b.world.roles, asked))
  }

  /** What a member lists after the promotions. */
  lemma ListedThen(env: Env, w: World, addrs: seq<Address>, asked: string)
    requires Ready(env, w, addrs) && asked in w.roles.Members()
    ensures var b, o := Promoted(env, w, addrs, asked), PlanVia(env.idOf, addrs, w.roles, asked);
            b.status == Done ==>
              && o.Planned? && Seen(env.idOf, b.world.roles, asked) == b.world.roles
              && b.world.roles.Members() == Seen(env.idOf, w.roles, asked).Members() + IpSet(o.masters)
              && b.world.roles.masters == w.roles.masters + IpSet(o.masters)
  {
    hide WellFormed, GoodAddrs, Promoted, PlanVia, PlanFor, Seen, IpSet, Extends, Quiet;
    PromotedKeeps(env, w, addrs, asked);
    OneClusterOnly(env.idOf, w.roles, addrs);
    MembersSeeAll(env.idOf, w.roles, asked);
  }

  /** With clear names the ids found in any listing make no difference. */
  lemma ClearNamesSuffice(env: Env, w: World, addrs: seq<Address>, asked: string, how: Finding)
    requires Ready(env, w, addrs) && asked in AddrIps(addrs)
    requires ClearNames(env.idOf, w.roles, addrs, asked) && ListsThen(env, w, addrs, asked, how)
    ensures ScaleOnce(env, w, addrs, asked, how) == ScaleOnce(env, w, addrs, asked)
  {
    hide WellFormed, GoodAddrs, Promoted, PlanVia, Seen, IpSet, AddrIps, Lists, ClearAmong, IdsOf, LookupBySubstring,
         AttachSlaves, Roles.Members, Promotable;
    var b, o := Promoted(env, w, addrs, asked), PlanVia(env.idOf, addrs, w.roles, asked);
    if how.InListing? && b.status == Done {
      if asked in w.roles.Members() {
        ListedThen(env, w, addrs, asked);
        SubstringLookupIsIds(env.idOf, how.nodes, b.world.roles, o.masters);
      } else {
        OutsiderPlan(env.idOf, addrs, w.roles, asked);
        NoIds(how.nodes, env.idOf, Seen(env.idOf, b.world.roles, asked));
      }
    }
  }

  lemma NoIds(nodes: seq<NodeInfo>, idOf: string -> string, r: Roles)
    ensures LookupBySubstring(nodes, []) == [] == IdsOf(idOf, r, [])
  {
  }

  /** And for an undisturbed scale-up that is to succeed they are needed: it does in every listing what it
      does with exact ids if and only if the names are clear. */
  lemma ScaleUpRightExactly(env: Env, w: World, addrs: seq<Address>, asked: string)
    requires Ready(env, w, addrs) && asked in w.roles.Members() && Quiet(env, w.clock)
    requires Served(env.idOf, w.roles) == w.roles.masters
    ensures (forall nodes :: ListsThen(env, w, addrs, asked, InListing(nodes)) ==>
               ScaleOnce(env, w, addrs, asked, InListing(nodes)) == ScaleOnce(env, w, addrs, asked))
       <==> ClearNames(env.idOf, w.roles, addrs, asked)
  {
    hide WellFormed, GoodAddrs, ScaleOnce, ListsThen, ClearNames, AddrIps, Served, Quiet, Roles.Members;
    MemberIsAddress(env.idOf, w.roles, addrs, asked);
    if ClearNames(env.idOf, w.roles, addrs, asked) {
      forall nodes: seq<NodeInfo> | ListsThen(env, w, addrs, asked, InListing(nodes))
        ensures ScaleOnce(env, w, addrs, asked, InListing(nodes)) == ScaleOnce(env, w, addrs, asked)
      {
        ClearNamesSuffice(env, w, addrs, asked, InListing(nodes));
      }
    } else {
      var nodes := MistakenListing(env, w, addrs, asked);
    }
  }

  lemma MemberIsAddress(idOf: string -> string, r: Roles, addrs: seq<Address>, ip: string)
    requires WellFormed(idOf, r, addrs) && ip in r.Members()
    ensures ip in AddrIps(addrs)
  {
  }

  /** With the mistaken name first in the listing, the slave meant for master i goes to another node, or is
      refused. */
  lemma MistakenListing(env: Env, w: World, addrs: seq<Address>, asked: string) returns (nodes: seq<NodeInfo>)
    requires Ready(env, w, addrs) && asked in w.roles.Members() && Quiet(env, w.clock)
    requires Served(env.idOf, w.roles) == w.roles.masters && !ClearNames(env.idOf, w.roles, addrs, asked)
    ensures ListsThen(env, w, addrs, asked, InListing(nodes))
    ensures ScaleOnce(env, w, addrs, asked, InListing(nodes)) != ScaleOnce(env, w, addrs, asked)
  {
    hide WellFormed, GoodAddrs, Promoted, PlanVia, PlanFor, Seen, AddrIps, Lists, Contains, Served, Quiet,
         AttachSlaves, Roles.Members, IdsOf, LookupBySubstring, FindContaining, Extends, GoodRoles, ScaleSplits,
         CarriesOut;
    var b, o := Promoted(env, w, addrs, asked), PlanVia(env.idOf, addrs, w.roles, asked);
    ListedThen(env, w, addrs, asked);
    PromotedKeeps(env, w, addrs, asked);
    var r := b.world.roles;
    var m, a :| m in o.masters && a in r.Members() && a != m && Contains(a + PORT, m);
    var i :| 0 <= i < |o.masters| && o.masters[i] == m;
    WellFormedGood(env.idOf, r, addrs);
    nodes := ListedFirst(env.idOf, r, a);
    NewMastersAreMembers(r, w.roles, o.masters);
    LineOf(env.idOf, r, a);
    FindContainingIs(nodes, m, 0, 0);
    SubstringFindsEach(env.idOf, nodes, r, o.masters, i);
    ScaleThroughMember(env, w, addrs, asked);
    ScaleAlignment(env.idOf, addrs, w.roles);
    if ScaleOnce(env, w, addrs, asked, InListing(nodes)) == ScaleOnce(env, w, addrs, asked) {
      ScaleCarriesOutPlan(env, w, addrs, asked) by { MemberIsAddress(env.idOf, w.roles, addrs, asked); }
      DoneAttaches(env, w, addrs, asked, nodes);
      var after := ScaleOnce(env, w, addrs, asked).world.roles;
      OneParent(env.idOf, after, o.slaves, o.parents, LookupBySubstring(nodes, o.masters), i);
    }
  }

  /** Success means that every slave went to the id found. */
  lemma DoneAttaches(env: Env, w: World, addrs: seq<Address>, asked: string, nodes: seq<NodeInfo>)
    requires ScaleOnce(env, w, addrs, asked, InListing(nodes)).status == Done
    requires PlanVia(env.idOf, addrs, w.roles, asked).Planned?
    ensures var o := PlanVia(env.idOf, addrs, w.roles, asked);
            AttachedPairwise(ScaleOnce(env, w, addrs, asked, InListing(nodes)).world.roles, o.slaves,
                             LookupBySubstring(nodes, o.masters))
  {
    hide PlanVia, Promoted, AttachSlaves, LookupBySubstring, AttachedPairwise, Seen;
    var b, o := Promoted(env, w, addrs, asked), PlanVia(env.idOf, addrs, w.roles, asked);
    AttachSlavesPairs(env, b.world, o.slaves, LookupBySubstring(nodes, o.masters));
  }

  /** No slave is attached to two nodes. */
  lemma OneParent(idOf: string -> string, r: Roles, slaves: seq<string>, parents: seq<string>, ids: seq<string>, i: nat)
    requires CarriesOut(idOf, r, slaves, parents) && AttachedPairwise(r, slaves, ids) && i < |slaves|
    ensures ids[i] == idOf(parents[i])
  {
  }

  /** Names are clear for every scale-up of pods of which none has an address that contains another's IP. */
  lemma DistinctPodsAreClear(idOf: string -> string, addrs: seq<Address>, r: Roles, asked: string)
    requires GoodIds(idOf) && GoodAddrs(addrs) && WellFormed(idOf, r, addrs) && asked in AddrIps(addrs)
    requires forall a, b :: a in AddrIps(addrs) && b in AddrIps(addrs) && a != b ==> !Contains(a + PORT, b)
    ensures ClearNames(idOf, r, addrs, asked)
  {
    hide WellFormed, GoodAddrs, PlanVia, AddrIps, Contains, Seen, Roles.Members;
    PlanGood(idOf, addrs, r, asked);
    InClusterOnly(idOf, r, addrs);
    SeenWithin(idOf, r, asked);
    var o := PlanVia(idOf, addrs, r, asked);
    forall m | m in o.masters ensures m in AddrIps(addrs) {
      InIpSet(o.masters, m);
    }
  }

  lemma SeenWithin(idOf: string -> string, r: Roles, asked: string)
    ensures Seen(idOf, r, asked).Members() <= r.Members() + {asked}
  {
  }

  // ---------- the branches that end in a scale-up ----------

  /** Ids are found ideally, or in what the asked node lists then and with clear names. */
  ghost predicate UpgradeLooksRight(env: Env, w: World, addrs: seq<Address>, olds: seq<string>, how: Finding) {
    how.InListing? && olds != [] ==>
      && ListsThen(env, World(w.roles, w.clock + 1), addrs, olds[0], how)
      && ClearNames(env.idOf, w.roles, addrs, olds[0])
  }

  lemma UpgradeAsIdeal(env: Env, w: World, addrs: seq<Address>, olds: seq<string>, kind: UpdateType, how: Finding)
    requires Ready(env, w, addrs) && (olds != [] ==> olds[0] in AddrIps(addrs))
    requires UpgradeLooksRight(env, w, addrs, olds, how)
    ensures Upgrade(env, w, addrs, olds, kind, how) == Upgrade(env, w, addrs, olds, kind)
  {
    hide WellFormed, GoodAddrs, ListsThen, ClearNames, ScaleOnce, AddrIps;
    if how.InListing? && olds != [] {
      ClearNamesSuffice(env, World(w.roles, w.clock + 1), addrs, olds[0], how);
    }
  }

  /** The repair branches ask the first pod. */
  ghost predicate RepairLooksRight(env: Env, w: World, addrs: seq<Address>, conditions: nat, how: Finding) {
    var c := CourseOf(env, w, addrs);
    c.GoesOn? && conditions <= |addrs| ==>
      UpgradeLooksRight(env, World(w.roles, c.at), addrs, FirstIps(addrs, |addrs| - conditions), how)
  }

  lemma RepairAsIdeal(env: Env, w: World, addrs: seq<Address>, conditions: nat, kind: UpdateType, how: Finding)
    requires Ready(env, w, addrs) && RepairLooksRight(env, w, addrs, conditions, how)
    ensures FixScaling(env, w, addrs, conditions, kind, how) == FixScaling(env, w, addrs, conditions, kind)
    ensures FixUpgrading(env, w, addrs, conditions, kind, how) == FixUpgrading(env, w, addrs, conditions, kind)
  {
    hide WellFormed, GoodAddrs, UpgradeLooksRight, Upgrade, CreateOnce, RepairOnce, ProbeAll, CheckKind, AddrIps,
         Ips, Roles.Members;
    if env.answer(w.clock).Works? && addrs != [] {
      ProbeVerdict(env, World(w.roles, w.clock + 1), addrs);
      var c := CourseOf(env, w, addrs);
      if c.GoesOn? && conditions <= |addrs| {
        UpgradeAsIdeal(env, World(w.roles, c.at), addrs, FirstIps(addrs, |addrs| - conditions), kind, how);
      }
    }
  }
}
