/** What the scale and repair plan does to a well-formed topology, interrupted or not. */
module Repair {
  import opened Counting
  import opened Hosts
  import opened Interleaving
  import opened Pairing
  import opened ScalePlan
  import opened ScaleProperties
  import opened Topology

  function AddrIps(addrs: seq<Address>): set<string> {
    IpSet(Ips(addrs))
  }

  /** What Kubernetes guarantees of the endpoints. */
  ghost predicate GoodAddrs(addrs: seq<Address>) {
    && Distinct(Ips(addrs))
    && forall i :: 0 <= i < |addrs| ==> addrs[i].ip != "" && ':' !in addrs[i].ip
  }

  function MasterIds(idOf: string -> string, r: Roles): set<string> {
    set m | m in r.masters :: idOf(m)
  }

  ghost predicate Injective(m: map<string, string>) {
    forall s, t :: s in m && t in m && s != t ==> m[s] != m[t]
  }

  /** A topology in order: one cluster, its roles disjoint and held by endpoints, every slave with a
      master of its own, and at most ⌊n/2⌋ masters. */
  ghost predicate WellFormed(idOf: string -> string, r: Roles, addrs: seq<Address>) {
    && r.apart == map[]
    && r.masters !! r.parentOf.Keys
    && r.Members() <= AddrIps(addrs)
    && r.parentOf.Values <= MasterIds(idOf, r)
    && Injective(r.parentOf)
    && |r.masters| <= |addrs| / 2
  }

  /** The topology the operator works towards: ⌊n/2⌋ masters, each with one slave of its own. */
  ghost predicate Complete(idOf: string -> string, r: Roles, addrs: seq<Address>) {
    && WellFormed(idOf, r, addrs)
    && |r.masters| == |r.parentOf| == |addrs| / 2
  }

  lemma OneClusterOnly(idOf: string -> string, r: Roles, addrs: seq<Address>)
    requires WellFormed(idOf, r, addrs)
    ensures r.apart == map[]
  {
  }

  // ---------- counting ----------

  lemma {:induction false} DistinctCount(s: seq<string>)
    requires Distinct(s)
    ensures |IpSet(s)| == |s|
  {
    if s != [] {
      var init, last := s[..|s| - 1], s[|s| - 1];
      DistinctCount(init);
      assert s == init + [last];
      IpSetSnoc(init, last);
    }
  }

  lemma {:induction false} FilterIps(addrs: seq<Address>, ips: set<string>)
    requires Distinct(Ips(addrs))
    ensures Distinct(Ips(Within(addrs, ips))) && Distinct(Ips(Without(addrs, ips)))
    ensures AddrIps(Within(addrs, ips)) == AddrIps(addrs) * ips
    ensures AddrIps(Without(addrs, ips)) == AddrIps(addrs) - ips
  {
    if addrs != [] {
      var init, last := addrs[..|addrs| - 1], addrs[|addrs| - 1];
      assert addrs == init + [last];
      FilterIps(init, ips);
      SnocIps(init, last);
      SnocIps(Within(init, ips), last);
      SnocIps(Without(init, ips), last);
      assert last.ip !in AddrIps(init) by {
        assert Ips(addrs)[|addrs| - 1] == last.ip;
      }
      hide AddrIps, Ips;
      assert Within(addrs, ips) == Within(init, ips) + if last.ip in ips then [last] else [];
      assert Without(addrs, ips) == Without(init, ips) + if last.ip in ips then [] else [last];
    }
  }

  lemma SnocIps(s: seq<Address>, a: Address)
    ensures AddrIps(s + [a]) == AddrIps(s) + {a.ip} && s + [] == s
    ensures Distinct(Ips(s)) && a.ip !in AddrIps(s) ==> Distinct(Ips(s + [a]))
    ensures Distinct(Ips(s + [a])) ==> Distinct(Ips(s))
  {
    assert Ips(s + [a]) == Ips(s) + [a.ip];
    forall i | 0 <= i < |s| && a.ip !in AddrIps(s) ensures Ips(s)[i] != a.ip {
      assert Ips(s)[i] in Ips(s);
    }
    if Distinct(Ips(s + [a])) {
      forall i, j | 0 <= i < j < |s| ensures Ips(s)[i] != Ips(s)[j] {
        assert Ips(s + [a])[i] != Ips(s + [a])[j];
      }
    }
  }

  lemma IpsConcat(s: seq<Address>, t: seq<Address>)
    ensures Ips(s + t) == Ips(s) + Ips(t)
  {
  }

  lemma {:induction false} IpsPermute(s: seq<Address>, t: seq<Address>)
    requires multiset(s) == multiset(t)
    ensures multiset(Ips(s)) == multiset(Ips(t))
  {
    MultisetLength(s, t);
    hide Ips, Remove;
    if s == [] {
      assert s == t;
    } else {
      assert s[0] in multiset(t);
      var j :| 0 <= j < |t| && t[j] == s[0];
      assert multiset(Remove(s, 0)) == multiset(s) - multiset{s[0]} == multiset(Remove(t, j));
      IpsPermute(Remove(s, 0), Remove(t, j));
      IpsRemove(s, 0);
      IpsRemove(t, j);
    }
  }

  lemma IpsRemove(t: seq<Address>, j: nat)
    requires j < |t|
    ensures multiset(Ips(t)) == multiset(Ips(Remove(t, j))) + multiset{t[j].ip}
  {
    IpsConcat(t[..j], t[j + 1..]);
    assert Ips(t) == Ips(t[..j]) + [t[j].ip] + Ips(t[j + 1..]);
  }

  /** The image of a set under an injective function is as large as the set. */
  lemma {:induction false} ImageSize(f: string -> string, s: set<string>)
    requires forall a, b :: f(a) == f(b) ==> a == b
    ensures |set x | x in s :: f(x)| == |s|
  {
    if s != {} {
      var x :| x in s;
      ImageSize(f, s - {x});
      assert (set y | y in s :: f(y)) == (set y | y in s - {x} :: f(y)) + {f(x)};
    }
  }

  lemma {:induction false} ValuesSize(m: map<string, string>)
    requires Injective(m)
    ensures |m.Values| == |m|
  {
    if m != map[] {
      var x :| x in m;
      var rest := m - {x};
      assert forall s :: s in rest ==> rest[s] == m[s];
      ValuesSize(rest);
      assert m.Values == rest.Values + {m[x]};
      assert m.Keys == rest.Keys + {x};
      assert |m| == |m.Keys| && |rest| == |rest.Keys|;
    }
  }

  lemma ServedImage(idOf: string -> string, r: Roles, addrs: seq<Address>)
    requires GoodIds(idOf) && WellFormed(idOf, r, addrs)
    ensures |Served(idOf, r)| == |r.parentOf|
  {
    ValuesSize(r.parentOf);
    ImageSize(idOf, Served(idOf, r));
    assert (set m | m in Served(idOf, r) :: idOf(m)) == r.parentOf.Values;
  }

  /** As many masters are served as there are slaves. */
  lemma ServedCount(idOf: string -> string, r: Roles, addrs: seq<Address>)
    requires GoodIds(idOf) && WellFormed(idOf, r, addrs)
    ensures |Served(idOf, r)| == |r.parentOf| <= |r.masters|
    ensures |r.Members()| == |r.masters| + |r.parentOf|
    ensures Served(idOf, r) == r.masters <==> |r.parentOf| == |r.masters|
  {
    ServedImage(idOf, r, addrs);
    ServedAreMasters(idOf, r);
    hide Served, WellFormed;
    Hosts.SubsetSize(Served(idOf, r), r.masters);
    MemberCount(idOf, r, addrs);
    if |r.parentOf| == |r.masters| {
      assert r.masters - Served(idOf, r) == {};
    }
  }

  lemma MemberCount(idOf: string -> string, r: Roles, addrs: seq<Address>)
    requires WellFormed(idOf, r, addrs)
    ensures |r.Members()| == |r.masters| + |r.parentOf|
  {
    hide AddrIps, MasterIds, Injective;
    assert |r.parentOf| == |r.parentOf.Keys|;
  }

  // ---------- the plan for a well-formed topology ----------

  /** Everything a plan does: it promotes and attaches distinct addresses outside the topology, it
      gives exactly one new slave to each master without one, and after it ⌊n/2⌋ masters have one. */
  ghost predicate ExactPlan(idOf: string -> string, addrs: seq<Address>, r: Roles, o: Outcome) {
    && o.Planned?
    && |o.masters| == |addrs| / 2 - |r.masters|
    && |o.slaves| == |o.parents| == |addrs| / 2 - |r.parentOf|
    && Distinct(o.masters + o.slaves)
    && IpSet(o.masters + o.slaves) <= AddrIps(addrs) - r.Members()
    && Distinct(o.parents)
    && IpSet(o.parents) == (r.masters + IpSet(o.masters)) - Served(idOf, r)
    && (Served(idOf, r) == r.masters ==> o.parents == o.masters)
  }

  lemma JoiningCount(idOf: string -> string, addrs: seq<Address>, r: Roles)
    requires GoodIds(idOf) && GoodAddrs(addrs) && WellFormed(idOf, r, addrs)
    ensures |Without(addrs, r.Members())| == |addrs| - |r.masters| - |r.parentOf|
  {
    FilterIps(addrs, r.Members());
    ServedCount(idOf, r, addrs);
    DistinctCount(Ips(addrs));
    DistinctCount(Ips(Without(addrs, r.Members())));
    Hosts.SubsetSize(r.Members(), AddrIps(addrs));
  }

  /** Planner safety: on a well-formed topology the second pass stays in range and at least one
      address is left for the interleaving loop. */
  lemma PlannerSafe(idOf: string -> string, addrs: seq<Address>, r: Roles)
    requires GoodIds(idOf) && GoodAddrs(addrs) && WellFormed(idOf, r, addrs)
    ensures PlanFor(idOf, addrs, r).Planned?
  {
    hide Within, Without, Promote, HostSet, WellFormed, GoodAddrs, RoundRobin, Served;
    JoiningCount(idOf, addrs, r);
    WellFormedCounts(idOf, addrs, r);
    PromotionExact(Without(addrs, r.Members()), HostSet(Within(addrs, r.masters)), |addrs| / 2 - |r.masters|);
  }

  lemma WellFormedCounts(idOf: string -> string, addrs: seq<Address>, r: Roles)
    requires GoodIds(idOf) && WellFormed(idOf, r, addrs)
    ensures |r.parentOf| <= |r.masters| <= |addrs| / 2
    ensures r.masters !! r.parentOf.Keys && r.Members() <= AddrIps(addrs)
  {
    ServedCount(idOf, r, addrs);
  }

  lemma EmptyPlanExact(idOf: string -> string, addrs: seq<Address>, r: Roles)
    requires GoodIds(idOf) && GoodAddrs(addrs) && WellFormed(idOf, r, addrs)
    requires Without(addrs, r.Members()) == []
    ensures ExactPlan(idOf, addrs, r, PlanFor(idOf, addrs, r))
  {
    hide Within, Without;
    JoiningCount(idOf, addrs, r);
    WellFormedCounts(idOf, addrs, r);
    ServedCount(idOf, r, addrs);
  }

  /** Addresses that partition a list with distinct IPs have distinct IPs from that list. */
  lemma PartitionIps(a: seq<Address>, b: seq<Address>, c: seq<Address>, all: seq<Address>)
    requires multiset(a) + multiset(b) + multiset(c) == multiset(all)
    requires Distinct(Ips(all))
    ensures Distinct(Ips(a) + Ips(b))
    ensures IpSet(Ips(a) + Ips(b)) <= AddrIps(all)
  {
    hide Ips;
    IpsPermute(a + b + c, all);
    IpsConcat(a, b);
    IpsConcat(a + b, c);
    DistinctPermutation(Ips(all), Ips(a + b + c));
    forall i, j | 0 <= i < j < |Ips(a + b)| ensures Ips(a + b)[i] != Ips(a + b)[j] {
      assert Ips(a + b + c)[i] != Ips(a + b + c)[j];
    }
    forall ip | ip in IpSet(Ips(a + b)) ensures ip in AddrIps(all) {
      assert ip in multiset(Ips(a + b + c));
    }
  }

  /** The masters waiting for a slave: existing ones without, then the new ones. */
  lemma WaitingMasters(exist: seq<Address>, chosen: seq<Address>, served: set<string>)
    requires Distinct(Ips(exist)) && Distinct(Ips(chosen))
    requires AddrIps(exist) !! AddrIps(chosen) && served <= AddrIps(exist)
    ensures var parents := Without(exist + chosen, served);
            && Distinct(Ips(parents))
            && AddrIps(parents) == (AddrIps(exist) + AddrIps(chosen)) - served
            && |parents| == |exist| + |chosen| - |served|
            && (served == AddrIps(exist) ==> parents == chosen)
  {
    hide Within, Without, AddrIps, Ips;
    DistinctUnion(exist, chosen);
    FilterIps(exist + chosen, served);
    var parents := Without(exist + chosen, served);
    DistinctIpCount(parents);
    DistinctIpCount(exist + chosen);
    Hosts.SubsetSize(served, AddrIps(exist + chosen));
    if served == AddrIps(exist) {
      WithoutConcat(exist, chosen, served);
      WithoutAll(exist, served);
      WithoutNone(chosen, served);
    }
  }

  lemma DistinctIpCount(s: seq<Address>)
    requires Distinct(Ips(s))
    ensures |AddrIps(s)| == |s|
  {
    DistinctCount(Ips(s));
  }

  lemma DistinctUnion(s: seq<Address>, t: seq<Address>)
    requires Distinct(Ips(s)) && Distinct(Ips(t)) && AddrIps(s) !! AddrIps(t)
    ensures Distinct(Ips(s + t)) && AddrIps(s + t) == AddrIps(s) + AddrIps(t)
  {
    IpsConcat(s, t);
    forall i, j | 0 <= i < |s| && 0 <= j < |t| ensures Ips(s)[i] != Ips(t)[j] {
      assert Ips(s)[i] in AddrIps(s) && Ips(t)[j] in AddrIps(t);
    }
    hide Ips;
    forall i, j | 0 <= i < j < |Ips(s + t)| ensures Ips(s + t)[i] != Ips(s + t)[j] {
      if j < |s| {
        assert Ips(s)[i] != Ips(s)[j];
      } else if |s| <= i {
        assert Ips(t)[i - |s|] != Ips(t)[j - |s|];
      } else {
        assert Ips(s)[i] != Ips(t)[j - |s|];
      }
    }
  }

  lemma {:induction false} WithoutConcat(s: seq<Address>, t: seq<Address>, ips: set<string>)
    ensures Without(s + t, ips) == Without(s, ips) + Without(t, ips)
  {
    if t == [] {
      assert s + t == s;
    } else {
      assert (s + t)[..|s + t| - 1] == s + t[..|t| - 1];
      WithoutConcat(s, t[..|t| - 1], ips);
    }
  }

  lemma {:induction false} WithoutAll(s: seq<Address>, ips: set<string>)
    requires AddrIps(s) <= ips
    ensures Without(s, ips) == []
  {
    if s != [] {
      assert s == s[..|s| - 1] + [s[|s| - 1]];
      SnocIps(s[..|s| - 1], s[|s| - 1]);
      WithoutAll(s[..|s| - 1], ips);
    }
  }

  lemma {:induction false} WithoutNone(s: seq<Address>, ips: set<string>)
    requires AddrIps(s) !! ips
    ensures Without(s, ips) == s
  {
    if s != [] {
      assert s == s[..|s| - 1] + [s[|s| - 1]];
      SnocIps(s[..|s| - 1], s[|s| - 1]);
      WithoutNone(s[..|s| - 1], ips);
    }
  }

  /** The parts of a plan that has something to do. */
  lemma PlanPartsExact(idOf: string -> string, addrs: seq<Address>, r: Roles)
    returns (chosen: seq<Address>, parents: seq<Address>, newSlaves: seq<Address>)
    requires GoodIds(idOf) && GoodAddrs(addrs) && WellFormed(idOf, r, addrs)
    requires Without(addrs, r.Members()) != []
    ensures PlanFor(idOf, addrs, r) == Planned(Ips(chosen), Ips(newSlaves), Ips(parents))
    ensures |chosen| == |addrs| / 2 - |r.masters|
    ensures |newSlaves| == |parents| == |addrs| / 2 - |r.parentOf|
    ensures Distinct(Ips(chosen) + Ips(newSlaves))
    ensures IpSet(Ips(chosen) + Ips(newSlaves)) <= AddrIps(addrs) - r.Members()
    ensures Distinct(Ips(parents))
    ensures AddrIps(parents) == (r.masters + AddrIps(chosen)) - Served(idOf, r)
    ensures Served(idOf, r) == r.masters ==> parents == chosen
  {
    hide Within, Without, Ips, WellFormed, Served, AddrIps, Distinct, PlanFor, GoodAddrs;
    var left, all, leftover;
    chosen, left, all, newSlaves, leftover := PlanCounts(idOf, addrs, r);
    var exist := Within(addrs, r.masters);
    GoodAddrsDistinct(addrs);
    FilterIps(addrs, r.Members());
    FilterIps(addrs, r.masters);
    PartitionIps(chosen, newSlaves, leftover, Without(addrs, r.Members()));
    ChosenIps(chosen, newSlaves);
    WellFormedCounts(idOf, addrs, r);
    ServedCount(idOf, r, addrs);
    ServedAreMasters(idOf, r);
    assert AddrIps(exist) == r.masters;
    DistinctIpCount(exist);
    WaitingMasters(exist, chosen, Served(idOf, r));
    assert all[..|newSlaves|] == all;
    parents := all;
  }

  lemma GoodAddrsDistinct(addrs: seq<Address>)
    requires GoodAddrs(addrs)
    ensures Distinct(Ips(addrs))
  {
  }

  lemma PlanCounts(idOf: string -> string, addrs: seq<Address>, r: Roles)
    returns (chosen: seq<Address>, left: seq<Address>, all: seq<Address>, newSlaves: seq<Address>,
             leftover: seq<Address>)
    requires GoodIds(idOf) && GoodAddrs(addrs) && WellFormed(idOf, r, addrs)
    requires Without(addrs, r.Members()) != []
    ensures all == Without(Within(addrs, r.masters) + chosen, Served(idOf, r))
    ensures |newSlaves| == Min(|all|, |left|)
    ensures PlanFor(idOf, addrs, r) == Planned(Ips(chosen), Ips(newSlaves), Ips(all[..|newSlaves|]))
    ensures |chosen| == |addrs| / 2 - |r.masters|
    ensures |left| == |addrs| - |addrs| / 2 - |r.parentOf|
    ensures multiset(chosen) + multiset(newSlaves) + multiset(leftover) == multiset(Without(addrs, r.Members()))
  {
    hide Within, Without, Promote, HostSet, RoundRobin, Plan, Ips, WellFormed, Served, AddrIps, Distinct, GoodAddrs,
         Paired, Unpaired;
    PlannerSafe(idOf, addrs, r);
    var p;
    p, all, newSlaves, leftover := ScaleConserves(addrs, r.masters, |r.masters|, r.parentOf.Keys, Served(idOf, r));
    chosen, left := p.chosen, p.left;
    PromotionExact(Without(addrs, r.Members()), HostSet(Within(addrs, r.masters)), |addrs| / 2 - |r.masters|);
    JoiningCount(idOf, addrs, r);
    WellFormedCounts(idOf, addrs, r);
  }

  /** The plan is exact on every well-formed topology. */
  lemma PlanIsExact(idOf: string -> string, addrs: seq<Address>, r: Roles)
    requires GoodIds(idOf) && GoodAddrs(addrs) && WellFormed(idOf, r, addrs)
    ensures ExactPlan(idOf, addrs, r, PlanFor(idOf, addrs, r))
  {
    hide Within, Without, WellFormed, Served, PlanFor, GoodAddrs;
    if Without(addrs, r.Members()) == [] {
      EmptyPlanExact(idOf, addrs, r);
    } else {
      var chosen, parents, newSlaves := PlanPartsExact(idOf, addrs, r);
    }
  }

  lemma PlanLengths(idOf: string -> string, addrs: seq<Address>, r: Roles)
    requires GoodIds(idOf) && GoodAddrs(addrs) && WellFormed(idOf, r, addrs)
    ensures var o := PlanFor(idOf, addrs, r);
            && o.Planned? && |o.masters| == |addrs| / 2 - |r.masters|
            && |o.parents| == |o.slaves| == |addrs| / 2 - |r.parentOf|
    ensures |r.parentOf| <= |r.masters| <= |addrs| / 2
  {
    hide PlanFor, WellFormed, GoodAddrs;
    PlanIsExact(idOf, addrs, r);
    WellFormedCounts(idOf, addrs, r);
  }

  lemma ServedAreMasters(idOf: string -> string, r: Roles)
    ensures Served(idOf, r) <= r.masters
  {
  }

  lemma ChosenIps(a: seq<Address>, b: seq<Address>)
    requires Distinct(Ips(a) + Ips(b))
    ensures Distinct(Ips(a)) && AddrIps(a) <= IpSet(Ips(a) + Ips(b))
  {
    hide Ips;
    forall i, j | 0 <= i < j < |Ips(a)| ensures Ips(a)[i] != Ips(a)[j] {
      assert (Ips(a) + Ips(b))[i] != (Ips(a) + Ips(b))[j];
    }
  }

  /** Re-planning a complete topology does nothing, and n mod 2 addresses are outside it. */
  lemma CompleteIsStable(idOf: string -> string, addrs: seq<Address>, r: Roles)
    requires GoodIds(idOf) && GoodAddrs(addrs) && Complete(idOf, r, addrs)
    ensures PlanFor(idOf, addrs, r) == Planned([], [], [])
    ensures |AddrIps(addrs) - r.Members()| == |addrs| % 2
  {
    PlanIsExact(idOf, addrs, r);
    ServedCount(idOf, r, addrs);
    DistinctIpCount(addrs);
    Hosts.SubsetSize(r.Members(), AddrIps(addrs));
  }

  /** In a complete topology every master has exactly one slave. */
  lemma CompleteMeansOneSlaveEach(idOf: string -> string, addrs: seq<Address>, r: Roles, m: string)
    requires GoodIds(idOf) && Complete(idOf, r, addrs) && m in r.masters
    ensures exists s :: s in r.parentOf && r.parentOf[s] == idOf(m)
    ensures forall s, t :: s in r.parentOf && t in r.parentOf && r.parentOf[s] == r.parentOf[t] ==> s == t
  {
    ServedCount(idOf, r, addrs);
    assert m in Served(idOf, r);
    var id := idOf(m);
    assert id in r.parentOf.Values;
  }

  lemma {:induction false} IpCount(s: seq<string>)
    ensures |IpSet(s)| <= |s|
  {
    if s == [] {
      EmptyIpSet();
    } else {
      IpCount(s[..|s| - 1]);
      IpSetSnoc(s[..|s| - 1], s[|s| - 1]);
      assert s == s[..|s| - 1] + [s[|s| - 1]];
    }
  }

  lemma InClusterOnly(idOf: string -> string, r: Roles, addrs: seq<Address>)
    requires WellFormed(idOf, r, addrs)
    ensures r.Members() <= AddrIps(addrs)
  {
  }

  /** With an even number of pods every pod of a complete topology is a member. */
  lemma EvenCompleteHasAll(idOf: string -> string, r: Roles, addrs: seq<Address>)
    requires GoodIds(idOf) && Complete(idOf, r, addrs) && |addrs| % 2 == 0
    ensures r.Members() == AddrIps(addrs)
  {
    hide Roles.Members;
    ServedCount(idOf, r, addrs);
    InClusterOnly(idOf, r, addrs);
    IpCount(Ips(addrs));
    Hosts.SubsetSize(r.Members(), AddrIps(addrs));
    assert AddrIps(addrs) - r.Members() == {};
  }
}
