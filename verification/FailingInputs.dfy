/** Concrete inputs, and the families they belong to, on which the operator does not do what it is for. */
module FailingInputs {
  import opened Counting
  import opened Strings
  import opened Hosts
  import opened Interleaving
  import opened Pairing
  import opened ScalePlan
  import opened Topology
  import opened Repair
  import opened Steps
  import opened Runs
  import opened Passes
  import opened Branches
  import opened Convergence
  import opened Naming
  import opened Outcomes
  import opened Lookup
  import CreationPlan

  // ---------- new slaves under the wrong master ----------

  /** Two pods are added to a complete cluster of six, and the address of one of its masters, 10.0.0.110,
      contains the IPs of both. */
  function PrefixIps(): seq<string> {
    ["10.0.0.110", "10.0.0.12", "10.0.0.13", "10.0.0.14", "10.0.0.15", "10.0.0.16", "10.0.0.1", "10.0.0.11"]
  }

  function PrefixPods(): seq<Address> {
    var hosts := ["a", "b", "c", "d", "e", "f", "g", "h"];
    seq(8, i requires 0 <= i < 8 => Address(PrefixIps()[i], hosts[i]))
  }

  function PrefixRoles(idOf: string -> string): Roles {
    var ips := PrefixIps();
    ThreePairs(idOf, ips[..3], ips[3..6])
  }

  /** Three masters, each with a slave. */
  function ThreePairs(idOf: string -> string, ms: seq<string>, ss: seq<string>): Roles
    requires |ms| == |ss| == 3
  {
    OneCluster({ms[0], ms[1], ms[2]}, map[ss[0] := idOf(ms[0]), ss[1] := idOf(ms[1]), ss[2] := idOf(ms[2])])
  }

  lemma ThreeEntries(k: seq<string>, v: seq<string>)
    requires |k| == |v| == 3 && Distinct(k) && Distinct(v)
    ensures var m := map[k[0] := v[0], k[1] := v[1], k[2] := v[2]];
            m.Keys == {k[0], k[1], k[2]} && m.Values <= {v[0], v[1], v[2]} && |m| == 3 && Injective(m)
  {
    var m := map[k[0] := v[0], k[1] := v[1], k[2] := v[2]];
    assert |m.Keys| == 3;
  }

  lemma ThreePairsFormed(idOf: string -> string, ms: seq<string>, ss: seq<string>, addrs: seq<Address>)
    requires GoodIds(idOf) && |ms| == |ss| == 3 && Distinct(ms + ss)
    requires IpSet(ms + ss) <= AddrIps(addrs) && |addrs| >= 6
    ensures var r := ThreePairs(idOf, ms, ss);
            && r.Members() == {ms[0], ms[1], ms[2], ss[0], ss[1], ss[2]}
            && |r.masters| == |r.parentOf| == 3
            && WellFormed(idOf, r, addrs) && (|addrs| < 8 ==> Complete(idOf, r, addrs))
  {
    hide AddrIps, Injective;
    AppendFacts(ms, ss);
    var ids := [idOf(ms[0]), idOf(ms[1]), idOf(ms[2])];
    ThreeEntries(ss, ids);
    InBoth(ms, ss);
    var r := ThreePairs(idOf, ms, ss);
    assert |r.masters| == 3;
    assert ms[0] in r.masters && ms[1] in r.masters && ms[2] in r.masters;
  }

  lemma InBoth(ms: seq<string>, ss: seq<string>)
    requires |ms| == |ss| == 3 && IpSet(ms) !! IpSet(ss)
    ensures {ms[0], ms[1], ms[2]} <= IpSet(ms + ss) && {ss[0], ss[1], ss[2]} <= IpSet(ms + ss)
    ensures {ms[0], ms[1], ms[2]} !! {ss[0], ss[1], ss[2]}
  {
    var both := ms + ss;
    assert both[0] == ms[0] && both[1] == ms[1] && both[2] == ms[2];
    assert both[3] == ss[0] && both[4] == ss[1] && both[5] == ss[2];
    forall i, j | 0 <= i < 3 && 0 <= j < 3 ensures ms[i] != ss[j] {
      assert ms[i] in IpSet(ms) && ss[j] in IpSet(ss);
    }
  }

  /** The IPs differ in length or in their ninth character, and have no colons. */
  lemma PrefixIpsDistinct()
    ensures |PrefixIps()| == 8 && Distinct(PrefixIps())
    ensures forall i :: 0 <= i < 8 ==> PrefixIps()[i] != "" && ':' !in PrefixIps()[i]
  {
    var ips := PrefixIps();
    var lengths := [10, 9, 9, 9, 9, 9, 8, 9];
    var ninths := ['1', '2', '3', '4', '5', '6', ' ', '1'];
    forall i | 0 <= i < 8 ensures |ips[i]| == lengths[i] && (lengths[i] > 8 ==> ips[i][8] == ninths[i]) { }
    forall i, j | 0 <= i < j < 8 ensures ips[i] != ips[j] {
      assert lengths[i] != lengths[j] || ninths[i] != ninths[j];
    }
  }

  lemma PrefixAddresses()
    ensures |PrefixPods()| == 8 && Ips(PrefixPods()) == PrefixIps() && Ips(PrefixPods()[..6]) == PrefixIps()[..6]
    ensures GoodAddrs(PrefixPods())
    ensures AddrIps(PrefixPods()) - IpSet(PrefixIps()[..6]) <= {PrefixIps()[6], PrefixIps()[7]}
  {
    hide PrefixIps;
    PrefixIpsDistinct();
    assert Ips(PrefixPods()) == PrefixIps();
    LastTwo(PrefixIps());
  }

  lemma LastTwo(s: seq<string>)
    requires |s| == 8
    ensures IpSet(s) <= IpSet(s[..6]) + {s[6], s[7]}
  {
    assert s == s[..6] + [s[6], s[7]];
  }

  lemma PrefixReady(idOf: string -> string)
    requires GoodIds(idOf)
    ensures var addrs, r := PrefixPods(), PrefixRoles(idOf);
            && |addrs| == 8 && GoodAddrs(addrs) && WellFormed(idOf, r, addrs) && Complete(idOf, r, addrs[..6])
            && "10.0.0.110" in r.masters && |r.masters| == |r.parentOf| == 3
            && AddrIps(addrs) - r.Members() <= {"10.0.0.1", "10.0.0.11"}
  {
    hide WellFormed, Complete, GoodAddrs, Roles.Members, PrefixPods, ThreePairs;
    PrefixAddresses();
    PrefixIpsDistinct();
    var ips := PrefixIps();
    assert ips[..3] + ips[3..6] == ips[..6];
    SixOf(ips);
    ThreePairsFormed(idOf, ips[..3], ips[3..6], PrefixPods());
    ThreePairsFormed(idOf, ips[..3], ips[3..6], PrefixPods()[..6]);
    FirstMaster(idOf, ips[..3], ips[3..6]);
  }

  lemma FirstMaster(idOf: string -> string, ms: seq<string>, ss: seq<string>)
    requires |ms| == |ss| == 3
    ensures ms[0] in ThreePairs(idOf, ms, ss).masters
  {
  }

  lemma SixOf(s: seq<string>)
    requires |s| == 8 && Distinct(s)
    ensures Distinct(s[..6]) && IpSet(s[..6]) <= IpSet(s)
    ensures IpSet(s[..6]) == {s[0], s[1], s[2], s[3], s[4], s[5]}
  {
    assert s[..6] == [s[0], s[1], s[2], s[3], s[4], s[5]];
    forall x | x in s[..6] ensures x in s {
      var i :| 0 <= i < 6 && s[..6][i] == x;
      assert s[i] == x;
    }
  }

  lemma PrefixContained()
    ensures Contains("10.0.0.110" + PORT, "10.0.0.1") && Contains("10.0.0.110" + PORT, "10.0.0.11")
  {
    assert "10.0.0.1" <= "10.0.0.110" + PORT;
    assert "10.0.0.11" <= "10.0.0.110" + PORT;
  }

  /** Looked up in a listing that starts with 10.0.0.110, either new pod gets that node's id. */
  lemma PrefixLookup(idOf: string -> string, r: Roles, m: string) returns (nodes: seq<NodeInfo>)
    requires GoodIds(idOf) && GoodRoles(r) && "10.0.0.110" in r.Members()
    requires m in {"10.0.0.1", "10.0.0.11"}
    ensures Lists(idOf, nodes, r) && LookupBySubstring(nodes, [m]) == [idOf("10.0.0.110")]
  {
    hide Lists, Contains, Roles.Members, GoodRoles, Line;
    nodes := ListedFirst(idOf, r, "10.0.0.110");
    LineOf(idOf, r, "10.0.0.110");
    PrefixContained();
    FindContainingIs(nodes, m, 0, 0);
    assert [m][..0] == [];
  }

  /** Two slaves under one master. */
  lemma SharedMaster(idOf: string -> string, r: Roles, addrs: seq<Address>, s: string, t: string)
    requires s != t && s in r.parentOf && t in r.parentOf && r.parentOf[s] == r.parentOf[t]
    ensures !WellFormed(idOf, r, addrs)
  {
  }

  /** Two more pods for masters that each have a slave: one becomes a master, the other its slave. */
  lemma PlanForTwoMore(idOf: string -> string, addrs: seq<Address>, r: Roles) returns (m: string, s: string)
    requires GoodIds(idOf) && GoodAddrs(addrs) && WellFormed(idOf, r, addrs)
    requires |addrs| / 2 == |r.masters| + 1 == |r.parentOf| + 1
    ensures var o := PlanFor(idOf, addrs, r);
            && o.Planned? && o.masters == [m] && o.slaves == [s] && m != s
            && m in AddrIps(addrs) - r.Members() && s !in r.Members() && Served(idOf, r) == r.masters
  {
    hide WellFormed, GoodAddrs, PlanFor, AddrIps, Served, Roles.Members;
    PlanIsExact(idOf, addrs, r);
    ServedCount(idOf, r, addrs);
    var o := PlanFor(idOf, addrs, r);
    m, s := o.masters[0], o.slaves[0];
    var both := o.masters + o.slaves;
    assert both[0] == m && both[1] == s;
    assert both[0] in IpSet(both) && both[1] in IpSet(both);
  }

  lemma PrefixPlan(idOf: string -> string) returns (m: string, s: string, t: string)
    requires GoodIds(idOf)
    ensures var addrs, r := PrefixPods(), PrefixRoles(idOf);
            var o := PlanFor(idOf, addrs, r);
            && o.Planned? && o.masters == [m] && o.slaves == [s] && m != s
            && m in {"10.0.0.1", "10.0.0.11"} && s !in r.Members() && Served(idOf, r) == r.masters
            && t in r.parentOf && r.parentOf[t] == idOf("10.0.0.110")
  {
    hide WellFormed, GoodAddrs, PlanFor, AddrIps, Roles.Members, PrefixPods, PrefixRoles;
    PrefixReady(idOf);
    m, s := PlanForTwoMore(idOf, PrefixPods(), PrefixRoles(idOf));
    var r := PrefixRoles(idOf);
    assert "10.0.0.110" in Served(idOf, r);
    assert idOf("10.0.0.110") in r.parentOf.Values;
    t :| t in r.parentOf && r.parentOf[t] == idOf("10.0.0.110");
  }

  /** A new slave attached to a master that has one. */
  lemma WrongAttach(env: Env, w: World, addrs: seq<Address>, m: string, s: string, t: string)
    requires Quiet(env, w.clock) && m in w.roles.masters && s !in w.roles.Members()
    requires t in w.roles.parentOf && w.roles.parentOf[t] == env.idOf(m)
    ensures var run := AttachSlaves(env, w, [s], [env.idOf(m)]);
            run.status == Done && !WellFormed(env.idOf, run.world.roles, addrs)
  {
    hide WellFormed, AttachSlaves, Quiet;
    var ids := [env.idOf(m)];
    assert env.idOf(m) in MasterIds(env.idOf, w.roles);
    AttachSlavesExact(env, w, [s], ids);
    AttachSlavesExtends(env, w, [s], ids);
    AttachSlavesPairs(env, w, [s], ids);
    var r := AttachSlaves(env, w, [s], ids).world.roles;
    assert [s][0] == s && ids[0] == env.idOf(m);
    SharedMaster(env.idOf, r, addrs, s, t);
  }

  /** Found by substring, the id of the one new master is that of the asked master, which has slave t. */
  lemma WrongIdTaken(env: Env, w: World, addrs: seq<Address>, asked: string, nodes: seq<NodeInfo>, m: string, s: string,
                     t: string)
    requires Ready(env, w, addrs) && asked in w.roles.masters && Quiet(env, w.clock)
    requires var o := PlanFor(env.idOf, addrs, w.roles); o.Planned? && o.masters == [m] && o.slaves == [s]
    requires s != m && s !in w.roles.Members() && t in w.roles.parentOf && w.roles.parentOf[t] == env.idOf(asked)
    requires LookupBySubstring(nodes, [m]) == [env.idOf(asked)]
    ensures var run := ScaleOnce(env, w, addrs, asked, InListing(nodes));
            run.status == Done && !WellFormed(env.idOf, run.world.roles, addrs)
  {
    hide WellFormed, GoodAddrs, Promoted, PlanFor, PlanVia, Seen, Quiet, AttachSlaves, LookupBySubstring, Extends;
    PromotedKeeps(env, w, addrs, asked);
    var b := Promoted(env, w, addrs, asked);
    OneMoreMaster(w.roles, b.world.roles, m, s);
    WrongAttach(env, b.world, addrs, asked, s, t);
  }

  /** The scale-up of this complete cluster, undisturbed, may get a listing with which it puts the new
      slave under the old master and reports success; with exact ids it completes the topology. */
  lemma WrongIdReportedDone(env: Env, clock: nat) returns (nodes: seq<NodeInfo>)
    requires GoodIds(env.idOf) && Quiet(env, clock)
    ensures var addrs, w, asked := PrefixPods(), World(PrefixRoles(env.idOf), clock), "10.0.0.110";
            && |addrs| == 8 && Complete(env.idOf, w.roles, addrs[..6])
            && ListsThen(env, w, addrs, asked, InListing(nodes))
            && var run := ScaleOnce(env, w, addrs, asked, InListing(nodes));
            && run.status == Done && !Complete(env.idOf, run.world.roles, addrs)
            && Complete(env.idOf, ScaleOnce(env, w, addrs, asked).world.roles, addrs)
  {
    hide WellFormed, GoodAddrs, Promoted, PlanVia, PlanFor, Seen, Roles.Members, Quiet, ScaleOnce, Lists, Served,
         LookupBySubstring, Extends, AddrIps, PrefixPods, GoodRoles, PrefixRoles;
    var addrs, w, asked := PrefixPods(), World(PrefixRoles(env.idOf), clock), "10.0.0.110";
    PrefixReady(env.idOf);
    MasterIsMember(w.roles, asked);
    var m, s, t := PrefixPlan(env.idOf);
    PromotedKeeps(env, w, addrs, asked);
    ScaleThroughMember(env, w, addrs, asked);
    var b := Promoted(env, w, addrs, asked);
    WellFormedGood(env.idOf, b.world.roles, addrs);
    ExtendsMembers(w.roles, b.world.roles);
    nodes := PrefixLookup(env.idOf, b.world.roles, m);
    WrongIdTaken(env, w, addrs, asked, nodes, m, s, t);
  }

  lemma MasterIsMember(r: Roles, ip: string)
    requires ip in r.masters
    ensures ip in r.Members()
  {
  }

  lemma OneMoreMaster(r: Roles, r': Roles, m: string, s: string)
    requires r'.masters == r.masters + IpSet([m]) && r'.parentOf == r.parentOf && s !in r.Members() && s != m
    ensures s !in r'.Members()
  {
  }

  // ---------- the first pod left over ----------

  lemma FirstTurn(s: seq<Address>, i: nat)
    requires StrictlySorted(Nodes(s)) && i < |s|
    ensures Round(s, i) == 0
  {
    hide Load, Lt;
    forall j | 0 <= j < i ensures s[..i][j].node != s[i].node {
      assert Lt(Nodes(s)[j], Nodes(s)[i]);
      LtNotSame(Nodes(s)[j], Nodes(s)[i]);
    }
    NoLoad(s[..i], s[i].node);
  }

  lemma SingleHostsOrdered(s: seq<Address>)
    requires StrictlySorted(Nodes(s))
    ensures Ordered(s)
  {
    hide Round, Lt;
    forall i | 0 <= i < |s| ensures Round(s, i) == 0 {
      FirstTurn(s, i);
    }
    forall i, j | 0 <= i < j < |s| ensures Before(Round(s, i), s[i].node, Round(s, j), s[j].node) {
      assert Lt(Nodes(s)[i], Nodes(s)[j]);
    }
  }

  lemma LtNotSame(a: string, b: string)
    requires Lt(a, b)
    ensures a != b
  {
  }

  /** Masters that each find the next candidate on another host take the candidates in order. */
  lemma {:induction false} PairsInOrder(ms: seq<Address>, pool: seq<Address>)
    requires |ms| <= |pool| && NonEmptyIps(pool) && forall i :: 0 <= i < |ms| ==> ms[i].node != pool[i].node
    ensures Unpaired(ms, pool) == pool[|ms|..]
  {
    if ms != [] {
      assert PickIndex(ms[0].node, pool) == 0;
      assert Remove(pool, 0) == pool[1..];
      PairsInOrder(ms[1..], pool[1..]);
    }
  }

  /** With an odd number of pods, each on a host of its own, the creation plan leaves over the pod on the
      middle host. */
  lemma MiddleHostIsLeftOver(addrs: seq<Address>, s: seq<Address>)
    requires StrictlySorted(Nodes(s)) && SamePerHost(s, addrs) && NonEmptyIps(s) && |s| % 2 == 1
    ensures addrs != [] && CreationPlan.Outside(addrs) == [s[|s| / 2]]
  {
    hide OnHost, Load, RoundRobin, Lt, Unpaired;
    var k := |s| / 2;
    SingleHostsOrdered(s);
    InterleavingIsRoundRobin(s, addrs);
    RoundRobinInterleaves(addrs);
    var rest := s[k..];
    var pool := rest[1..] + rest[..1];
    forall i | 0 <= i < k ensures s[..k][i].node != pool[i].node {
      assert pool[i] == s[k + 1 + i];
      LtNotSame(Nodes(s)[i], Nodes(s)[k + 1 + i]);
    }
    assert NonEmptyIps(pool);
    PairsInOrder(s[..k], pool);
    assert pool[k..] == [s[k]];
  }

  /** Seven pods on hosts of their own, of which the first is on the middle host. */
  function SevenPods(): seq<Address> {
    [Address("0", "d"), Address("1", "a"), Address("2", "b"), Address("3", "c"), Address("4", "e"), Address("5", "f"),
     Address("6", "g")]
  }

  lemma FirstPodLeftOver()
    ensures GoodAddrs(SevenPods()) && |SevenPods()| == 7
    ensures CreationPlan.Outside(SevenPods()) == [Address("0", "d")]
    ensures AddrIps([Address("0", "d")]) == {"0"} && "0" in AddrIps(SevenPods())
  {
    hide CreationPlan.Outside, OnHost, GoodAddrs, Lt;
    var t := SevenPods();
    var s := t[1..4] + [t[0]] + t[4..];
    SevenHosts();
    forall h ensures OnHost(s, h) == OnHost(t, h) {
      MoveBack(t[0], t[1..4], t[4..], h);
      assert [t[0]] + t[1..4] + t[4..] == t;
    }
    MiddleHostIsLeftOver(t, s);
    LetterIps(t, ['0', '1', '2', '3', '4', '5', '6']);
    assert Ips(t)[0] == "0";
    assert Ips([Address("0", "d")]) == ["0"];
  }

  lemma SevenHosts()
    ensures |SevenPods()| == 7 && NonEmptyIps(SevenPods())
    ensures var t := SevenPods();
            && StrictlySorted(Nodes(t[1..4] + [t[0]] + t[4..]))
            && forall i :: 1 <= i < 4 ==> t[i].node != t[0].node
  {
    var t := SevenPods();
    var h := Nodes(t[1..4] + [t[0]] + t[4..]);
    assert h == ["a", "b", "c", "d", "e", "f", "g"];
    var letters := ['a', 'b', 'c', 'd', 'e', 'f', 'g'];
    forall i | 0 <= i < 7 ensures |h[i]| == 1 && h[i][0] == letters[i] { }
    forall i, j | 0 <= i < j < 7 ensures Lt(h[i], h[j]) {
      LetterOrder(h[i], h[j]);
    }
    assert h[0] != h[3] && h[1] != h[3] && h[2] != h[3];
  }

  /** Moving an address past others on other hosts does not show on any host. */
  lemma MoveBack(x: Address, others: seq<Address>, rest: seq<Address>, h: string)
    requires forall i :: 0 <= i < |others| ==> others[i].node != x.node
    ensures OnHost(others + [x] + rest, h) == OnHost([x] + others + rest, h)
  {
    hide OnHost;
    OnHostConcat(others + [x], rest, h);
    OnHostConcat([x] + others, rest, h);
    OnHostConcat(others, [x], h);
    OnHostConcat([x], others, h);
    if h == x.node {
      NoLoad(others, h);
    } else {
      NoLoad([x], h);
    }
  }

  /** Those seven pods make a complete cluster, undisturbed, without the first pod; and however the commands
      answer, after any run of attempts that leaves it outside, none included, a scale-up through it never
      reports success, whatever pods are added. (A repair in between can take it in.) */
  lemma FirstPodBlocksScaleUps(env: Env, clock: nat, later: Env, at: nat, run: seq<Attempt>, more: seq<Address>,
                               how: Finding)
    requires GoodIds(env.idOf) && Quiet(env, clock) && later.idOf == env.idOf
    requires GoodAddrs(more) && AddrIps(SevenPods()) <= AddrIps(more)
    ensures var created := CreateOnce(env, World(OneCluster({}, map[]), clock), SevenPods());
            var w := PerformAll(later, World(created.world.roles, at), run);
            && created.status == Done && Complete(env.idOf, created.world.roles, SevenPods())
            && "0" !in created.world.roles.Members()
            && ("0" !in w.roles.Members() ==> ScaleOnce(later, w, more, "0", how).status == Error)
  {
    hide GoodAddrs, AddrIps, WellFormed, CreateOnce, ScaleOnce, Quiet, CreationPlan.Outside, FounderMasters,
         FounderSlaves, ScaleSplits, Served, Roles.Members, SevenPods, Takes, ScaleTakes, PerformAll;
    var w := World(OneCluster({}, map[]), clock);
    FirstPodLeftOver();
    NothingWellFormed(env.idOf);
    GrowKeeps(env.idOf, w.roles, [], SevenPods());
    assert w.roles.Members() == {} by { NothingThere(); }
    CreateOnceExact(env, w, SevenPods());
    NoSplitOnNothing(w.roles, SevenPods());
    CreateOnceKeeps(env, w, SevenPods());
    CreationMembers(env, w, SevenPods());
    var r := CreateOnce(env, w, SevenPods()).world.roles;
    GrowKeeps(env.idOf, r, SevenPods(), more);
    var v := PerformAll(later, World(r, at), run);
    if "0" !in v.roles.Members() {
      OutsiderNeverDone(later, v, more, "0", how);
    }
  }

  lemma NoSplitOnNothing(r: Roles, addrs: seq<Address>)
    requires r.Members() == {}
    ensures !CreateSplits(r, addrs)
  {
  }

  /** Whatever way ids are found and whatever clusters there are, through an outsider no scale-up of two pods
      or more reports success. */
  lemma OutsiderNeverDone(env: Env, w: World, addrs: seq<Address>, asked: string, how: Finding)
    requires GoodIds(env.idOf) && GoodAddrs(addrs)
    requires asked in AddrIps(addrs) - w.roles.Members() && |addrs| >= 2
    ensures ScaleOnce(env, w, addrs, asked, how).status == Error
  {
    hide WellFormed, GoodAddrs, AddrIps, PlanVia, AddMasters, FindIds, AttachSlaves, Seen, Roles.Members, Promotable;
    OutsiderPlan(env.idOf, addrs, w.roles, asked);
    AddMastersExtends(env, Ask(env, w).world, asked, PlanVia(env.idOf, addrs, w.roles, asked).masters);
  }

  lemma NothingThere()
    ensures OneCluster({}, map[]).Members() == {}
  {
  }

  // ---------- a second cluster ----------

  /** New pods on hosts of their own that sort before the host of all old pods take the first turns. */
  lemma NewHostsOrdered(news: seq<Address>, olds: seq<Address>, z: string)
    requires StrictlySorted(Nodes(news)) && forall i :: 0 <= i < |news| ==> Lt(news[i].node, z)
    requires AllOn(olds, z)
    ensures Ordered(news + olds)
  {
    hide Load, Lt;
    var s := news + olds;
    SingleHostsOrdered(news);
    forall i | 0 <= i < |s| ensures i < |news| ==> Round(s, i) == 0 && s[i] == news[i]
                            ensures i >= |news| ==> Round(s, i) == i - |news| && s[i].node == z
    {
      if i < |news| {
        FirstTurn(news, i);
        assert s[..i] == news[..i];
      } else {
        OldTurn(news, olds, z, i - |news|);
      }
    }
    forall i, j | 0 <= i < j < |s| ensures Before(Round(s, i), s[i].node, Round(s, j), s[j].node) {
      if j < |news| {
        assert Lt(Nodes(news)[i], Nodes(news)[j]);
      }
    }
  }

  lemma OldTurn(news: seq<Address>, olds: seq<Address>, z: string, i: nat)
    requires forall j :: 0 <= j < |news| ==> Lt(news[j].node, z)
    requires AllOn(olds, z) && i < |olds|
    ensures Round(news + olds, |news| + i) == i
  {
    hide Load, Lt;
    forall j | 0 <= j < |news| ensures news[j].node != z {
      LtNotSame(news[j].node, z);
    }
    assert (news + olds)[..|news| + i] == news + olds[..i];
    LoadConcat(news, olds[..i], z);
    NoLoad(news, z);
    AllLoad(olds[..i], z);
  }

  lemma {:induction false} AllLoad(s: seq<Address>, z: string)
    requires AllOn(s, z)
    ensures Load(s, z) == |s|
  {
    if s != [] {
      AllLoad(s[..|s| - 1], z);
    }
  }

  /** When pods are added on hosts of their own, at least as many as there were, and all their hosts sort
      before the one host of the old pods, then no planned master of a new creation is an old pod. */
  lemma NewHostsSplit(r: Roles, news: seq<Address>, olds: seq<Address>, z: string)
    requires StrictlySorted(Nodes(news)) && forall i :: 0 <= i < |news| ==> Lt(news[i].node, z)
    requires AllOn(olds, z) && |olds| <= |news| && |news| >= 1 && GoodAddrs(olds + news)
    requires r.Members() != {} && r.Members() <= AddrIps(olds)
    ensures CreateSplits(r, olds + news)
  {
    hide OnHost, Load, RoundRobin, Lt, Round, Roles.Members;
    var addrs := olds + news;
    NewHostsOrdered(news, olds, z);
    forall h ensures OnHost(news + olds, h) == OnHost(addrs, h) {
      OnHostConcat(news, olds, h);
      OnHostConcat(olds, news, h);
      if h == z {
        forall i | 0 <= i < |news| ensures news[i].node != z { LtNotSame(news[i].node, z); }
        NoLoad(news, z);
      } else {
        NoLoad(olds, h);
      }
    }
    InterleavingIsRoundRobin(news + olds, addrs);
    var ms := FounderMasters(addrs);
    assert ms == Ips(news)[..|ms|];
    SplitIps(olds, news);
    forall ip | ip in IpSet(ms) ensures ip !in r.Members() {
      assert ip in IpSet(Ips(news));
    }
    OldPodExists(r, olds);
  }

  lemma OldPodExists(r: Roles, olds: seq<Address>)
    requires r.Members() != {} && r.Members() <= AddrIps(olds)
    ensures |olds| >= 1
  {
    hide Roles.Members;
    var m :| m in r.Members();
    var i := IndexOf(olds, m);
  }

  lemma SplitIps(s: seq<Address>, t: seq<Address>)
    requires Distinct(Ips(s + t))
    ensures AddrIps(s) !! AddrIps(t)
  {
    IpsConcat(s, t);
    AppendFacts(Ips(s), Ips(t));
  }

  /** Six pods on one host form a complete cluster; six more come up on six hosts of their own, and a
      member is unhealthy when the upgrade is repaired. */
  function OldPods(): seq<Address> {
    [Address("0", "z"), Address("1", "z"), Address("2", "z"), Address("3", "z"), Address("4", "z"), Address("5", "z")]
  }

  function NewPods(): seq<Address> {
    [Address("6", "a"), Address("7", "b"), Address("8", "c"), Address("9", "d"), Address("A", "e"), Address("B", "f")]
  }

  lemma NewPodsSorted()
    ensures StrictlySorted(Nodes(NewPods()))
    ensures forall i :: 0 <= i < |NewPods()| ==> Lt(NewPods()[i].node, "z")
    ensures AllOn(OldPods(), "z")
  {
    var h := Nodes(NewPods());
    forall i | 0 <= i < 6 ensures |h[i]| == 1 && h[i][0] == ['a', 'b', 'c', 'd', 'e', 'f'][i] { }
    forall i, j | 0 <= i < j < 6 ensures Lt(h[i], h[j]) {
      LetterOrder(h[i], h[j]);
    }
    forall i | 0 <= i < 6 ensures Lt(h[i], "z") {
      LetterOrder(h[i], "z");
    }
  }

  lemma LetterOrder(a: string, b: string)
    requires |a| == |b| == 1 && a[0] < b[0]
    ensures Lt(a, b)
  {
  }

  /** IPs of one character each, all different. */
  lemma LetterIps(addrs: seq<Address>, letters: seq<char>)
    requires |addrs| == |letters| && Distinct(letters) && ':' !in letters
    requires forall i :: 0 <= i < |addrs| ==> addrs[i].ip == [letters[i]]
    ensures GoodAddrs(addrs)
  {
    forall i, j | 0 <= i < j < |addrs| ensures Ips(addrs)[i] != Ips(addrs)[j] {
      assert Ips(addrs)[i][0] == letters[i] && Ips(addrs)[j][0] == letters[j];
    }
    forall i | 0 <= i < |addrs| ensures ':' !in addrs[i].ip {
      assert letters[i] in letters;
    }
  }

  lemma TwelvePods()
    ensures GoodAddrs(OldPods() + NewPods()) && GoodAddrs(OldPods())
    ensures |OldPods()| == |NewPods()| == 6
  {
    hide GoodAddrs, Distinct;
    var old6, new6 := ['0', '1', '2', '3', '4', '5'], ['6', '7', '8', '9', 'A', 'B'];
    assert Distinct(old6 + new6) && Distinct(old6) by { TwelveLetters(); }
    LetterIps(OldPods(), old6);
    LetterIps(OldPods() + NewPods(), old6 + new6);
  }

  lemma TwelveLetters()
    ensures Distinct(['0', '1', '2', '3', '4', '5'] + ['6', '7', '8', '9', 'A', 'B'])
    ensures Distinct(['0', '1', '2', '3', '4', '5'])
  {
  }

  /** A creation beside a cluster adds ⌊n/2⌋ masters to those there are. */
  lemma SplitMasters(env: Env, w: World, addrs: seq<Address>)
    requires Ready(env, w, addrs) && CreateSplits(w.roles, addrs) && Takes(env, w.clock)
    ensures |CreateOnce(env, w, addrs).world.roles.masters| >= |w.roles.masters| + |addrs| / 2
  {
    hide WellFormed, GoodAddrs, FounderMasters, FounderSlaves, AttachFounders, Created, IpSet, Distinct, AddrIps;
    CreateSteps(env, w, addrs);
    hide CreateOnce;
    CreationTakes(env, w, addrs);
    FoundedWellFormed(env.idOf, addrs);
    CreatedMembers(env.idOf, w.roles, FounderMasters(addrs));
    var founders, r := IpSet(FounderMasters(addrs)), CreateOnce(env, w, addrs).world.roles;
    assert w.roles.masters !! founders;
    assert |w.roles.masters + founders| == |w.roles.masters| + |founders|;
    Hosts.SubsetSize(w.roles.masters + founders, r.masters);
  }

  /** Where nobody is healthy the upgrading repair is a creation. */
  lemma SickRepairCreates(env: Env, w: World, addrs: seq<Address>, conditions: nat, kind: UpdateType)
    requires Sick(env) && addrs != []
    ensures CourseOf(env, w, addrs).Creates?
    ensures FixUpgrading(env, w, addrs, conditions, kind)
         == CreateOnce(env, World(w.roles, CourseOf(env, w, addrs).at), addrs)
  {
    hide CreateOnce, RepairOnce, Upgrade, ProbeAll, CheckKind;
    SickProbe(env, World(w.roles, w.clock + 1), addrs, []);
  }

  /** Whatever roles the six old pods have, an unhealthy member and nothing else going wrong makes the
      repair of the upgrade leave two clusters, with nine masters where there should be six. */
  lemma UnhealthyUpgradeSplits(env: Env, r: Roles, clock: nat, kind: UpdateType)
    requires GoodIds(env.idOf) && Sick(env) && Complete(env.idOf, r, OldPods())
    ensures var run := FixUpgrading(env, World(r, clock), OldPods() + NewPods(), 6, kind);
            && run.world.roles.apart != map[]
            && |run.world.roles.masters| >= 9
  {
    hide WellFormed, GoodAddrs, FixUpgrading, OldPods, NewPods, FounderMasters, FounderSlaves, AddrIps,
         Roles.Members, CreateOnce, CreateSplits, StrictlySorted, Lt, AllOn;
    var addrs, w := OldPods() + NewPods(), World(r, clock);
    TwelvePods();
    NewPodsSorted();
    AddrIpsGrow(OldPods(), NewPods());
    GrowKeeps(env.idOf, r, OldPods(), addrs);
    SixMembers(env.idOf, r, OldPods());
    InClusterOnly(env.idOf, r, OldPods());
    NewHostsSplit(r, NewPods(), OldPods(), "z");
    SickRepairCreates(env, w, addrs, 6, kind);
    var v := World(r, CourseOf(env, w, addrs).at);
    SickCreates(env, w, addrs);
    CreationChangesExactly(env, v, addrs);
    SplitMasters(env, v, addrs);
  }

  lemma AddrIpsGrow(s: seq<Address>, t: seq<Address>)
    ensures AddrIps(s) <= AddrIps(s + t)
  {
    IpsConcat(s, t);
  }

  lemma SixMembers(idOf: string -> string, r: Roles, addrs: seq<Address>)
    requires Complete(idOf, r, addrs) && |addrs| == 6
    ensures |r.masters| == 3 && r.Members() != {}
  {
    hide AddrIps, MasterIds;
    var m :| m in r.masters;
    assert m in r.Members();
  }
}
