/** What the scale and repair plan guarantees, and exactly when the planner fails. */
module ScaleProperties {
  import opened Counting
  import opened Wrappers
  import opened Hosts
  import opened Interleaving
  import opened Spread
  import opened Pairing
  import opened ScalePlan

  // ---------- first pass: fresh hosts ----------

  /** The hosts of the candidates that carry no master. */
  function FreshHosts(cands: seq<Address>, hosts: set<string>): set<string> {
    HostSet(cands) - hosts
  }

  function FreshCount(cands: seq<Address>, hosts: set<string>, want: int): nat {
    var f := |FreshHosts(cands, hosts)|;
    if 0 <= want < f then want else f
  }

  lemma ConsHosts(a: Address, s: seq<Address>)
    ensures HostSet([a] + s) == {a.node} + HostSet(s)
    ensures multiset([a] + s) == multiset{a} + multiset(s)
  {
    HostSetConcat([a], s);
    AloneOnHost(a);
  }

  /** One candidate is promoted on each fresh host, up to the number wanted, and if fewer are
      promoted, every candidate left is on a host with a master. */
  ghost predicate PromotesFresh(cands: seq<Address>, hosts: set<string>, want: int, r: Split) {
    && |r.chosen| == FreshCount(cands, hosts, want)
    && HostSet(r.chosen) <= FreshHosts(cands, hosts)
    && |HostSet(r.chosen)| == |r.chosen|
    && (|r.chosen| != want ==> HostSet(r.left) <= hosts + HostSet(r.chosen))
    && multiset(r.chosen) + multiset(r.left) == multiset(cands)
  }

  lemma FreshSkip(a: Address, rest: seq<Address>, hosts: set<string>, want: int, r: Split)
    requires a.node in hosts && PromotesFresh(rest, hosts, want, r)
    ensures PromotesFresh([a] + rest, hosts, want, Split(r.chosen, [a] + r.left))
  {
    hide HostSet;
    ConsHosts(a, rest);
    ConsHosts(a, r.left);
    assert FreshHosts([a] + rest, hosts) == FreshHosts(rest, hosts);
  }

  lemma FreshTake(a: Address, rest: seq<Address>, hosts: set<string>, want: int, r: Split)
    requires a.node !in hosts && want != 0 && PromotesFresh(rest, hosts + {a.node}, want - 1, r)
    ensures PromotesFresh([a] + rest, hosts, want, Split([a] + r.chosen, r.left))
  {
    hide HostSet;
    ConsHosts(a, rest);
    ConsHosts(a, r.chosen);
    assert FreshHosts([a] + rest, hosts) == {a.node} + FreshHosts(rest, hosts + {a.node});
  }

  /** The first pass is exact on every input. */
  lemma {:induction false} FreshPass(cands: seq<Address>, hosts: set<string>, want: int)
    ensures PromotesFresh(cands, hosts, want, PromoteFresh(cands, hosts, want))
  {
    if cands == [] || want == 0 {
      NoHosts();
    } else {
      hide PromotesFresh;
      var a, rest := cands[0], cands[1..];
      assert cands == [a] + rest;
      if a.node in hosts {
        FreshPass(rest, hosts, want);
        FreshSkip(a, rest, hosts, want, PromoteFresh(rest, hosts, want));
      } else {
        FreshPass(rest, hosts + {a.node}, want - 1);
        FreshTake(a, rest, hosts, want, PromoteFresh(rest, hosts + {a.node}, want - 1));
      }
    }
  }

  lemma NoHosts()
    ensures HostSet([]) == {}
  {
  }

  // ---------- second pass: every other candidate ----------

  /** The second pass stays in range exactly when 2·want - 1 candidates remain from i on; it takes
      candidates i, i+2, i+4, ... */
  ghost predicate PromotesAlternate(cands: seq<Address>, i: nat, want: int, r: Option<Split>) {
    && (r.Some? <==> want <= 0 || i + 2 * want - 1 <= |cands|)
    && (r.Some? ==>
          && |r.value.chosen| == (if want <= 0 then 0 else want)
          && multiset(r.value.chosen) + multiset(r.value.left) == multiset(cands)
          && forall j :: 0 <= j < |r.value.chosen| ==> i + 2 * j < |cands| && r.value.chosen[j] == cands[i + 2 * j])
  }

  lemma AlternateTake(cands: seq<Address>, i: nat, want: int, r: Split)
    requires i < |cands| && want > 0
    requires PromotesAlternate(Remove(cands, i), i + 1, want - 1, Some(r))
    ensures PromotesAlternate(cands, i, want, Some(Split([cands[i]] + r.chosen, r.left)))
  {
    var chosen := [cands[i]] + r.chosen;
    forall j | 0 <= j < |chosen| ensures i + 2 * j < |cands| && chosen[j] == cands[i + 2 * j] {
      if j > 0 {
        assert r.chosen[j - 1] == Remove(cands, i)[i + 1 + 2 * (j - 1)];
      }
    }
  }

  /** The second pass is exact on every input. */
  lemma {:induction false} AlternatePass(cands: seq<Address>, i: nat, want: int)
    ensures PromotesAlternate(cands, i, want, PromoteAlternate(cands, i, want))
    decreases if want < 0 then 0 else want
  {
    if want > 0 && i < |cands| {
      hide Remove;
      AlternatePass(Remove(cands, i), i + 1, want - 1);
      var r := PromoteAlternate(Remove(cands, i), i + 1, want - 1);
      if r.Some? {
        AlternateTake(cands, i, want, r.value);
      }
    }
  }

  // ---------- both passes ----------

  /** Promotion fails exactly when the fresh hosts are too few and the others too; otherwise it
      promotes what is wanted (or, for a negative count, one on each fresh host). */
  lemma PromotionExact(cands: seq<Address>, hosts: set<string>, want: int)
    ensures var f := |FreshHosts(cands, hosts)|;
            var p := Promote(cands, hosts, want);
            && f <= |cands|
            && (p.None? <==> want > f && 2 * (want - f) - 1 > |cands| - f)
            && (p.Some? ==>
                  && |p.value.chosen| == (if want < 0 then f else want)
                  && |p.value.left| == |cands| - |p.value.chosen|
                  && multiset(p.value.chosen) + multiset(p.value.left) == multiset(cands))
  {
    hide PromoteFresh, PromoteAlternate, HostSet, FreshHosts;
    var r := PromoteFresh(cands, hosts, want);
    FreshPassCounts(cands, hosts, want);
    AlternatePass(r.left, 0, want - |r.chosen|);
    var p := Promote(cands, hosts, want);
    if p.Some? {
      MultisetLength(p.value.chosen + p.value.left, cands);
    }
  }

  lemma FreshPassCounts(cands: seq<Address>, hosts: set<string>, want: int)
    ensures var r := PromoteFresh(cands, hosts, want);
            && |FreshHosts(cands, hosts)| <= |cands|
            && |r.chosen| == FreshCount(cands, hosts, want)
            && |r.left| == |cands| - |r.chosen|
            && multiset(r.chosen) + multiset(r.left) == multiset(cands)
  {
    hide PromoteFresh, HostSet;
    HostSetSize(cands);
    SubsetSize(FreshHosts(cands, hosts), HostSet(cands));
    FreshPass(cands, hosts, want);
    var r := PromoteFresh(cands, hosts, want);
    MultisetLength(r.chosen + r.left, cands);
  }

  lemma MultisetLength<T>(s: seq<T>, t: seq<T>)
    requires multiset(s) == multiset(t)
    ensures |s| == |t|
  {
    assert |multiset(s)| == |multiset(t)|;
  }

  /** Exactly when the planner indexes out of range, and exactly when it never returns, in terms of
      the number of joining addresses, the fresh hosts among them, and ⌊n/2⌋ minus the masters. */
  lemma OutcomeExact(addrs: seq<Address>, masterIps: seq<string>, slaveIps: seq<string>, connector: map<string, string>)
    ensures var cands := Without(addrs, IpSet(masterIps) + IpSet(slaveIps));
            var f := |FreshHosts(cands, HostSet(Within(addrs, IpSet(masterIps))))|;
            var want := |addrs| / 2 - |masterIps|;
            var o := Compose(addrs, masterIps, slaveIps, connector);
            && (o.IndexPanic? <==> cands != [] && want > f && 2 * (want - f) - 1 > |cands| - f)
            && (o.NeverReturns? <==>
                  && cands != [] && !o.IndexPanic?
                  && |cands| == (if want < 0 then f else want))
  {
    hide Within, Without, HostSet, Promote, Paired, RoundRobin, IpSet;
    PromotionExact(Without(addrs, IpSet(masterIps) + IpSet(slaveIps)),
                   HostSet(Within(addrs, IpSet(masterIps))), |addrs| / 2 - |masterIps|);
  }

  /** The second pass promotes someone only when every candidate the first pass left is on a host
      that already has a master. */
  lemma FallbackOnlyWhenCovered(cands: seq<Address>, hosts: set<string>, want: int)
    requires Promote(cands, hosts, want).Some?
    requires |PromoteFresh(cands, hosts, want).chosen| < |Promote(cands, hosts, want).value.chosen|
    ensures var r := PromoteFresh(cands, hosts, want);
            HostSet(r.left) <= hosts + HostSet(r.chosen)
  {
    hide PromoteFresh, PromoteAlternate, HostSet;
    FreshPass(cands, hosts, want);
    AlternatePass(PromoteFresh(cands, hosts, want).left, 0, want - |PromoteFresh(cands, hosts, want).chosen|);
  }

  /** Optimal coverage: no other choice of as many new masters puts a master on more hosts. */
  lemma CoverageOptimal(cands: seq<Address>, hosts: set<string>, want: nat, other: seq<Address>)
    requires Promote(cands, hosts, want).Some?
    requires Choice(other, cands) && |other| == want
    ensures |hosts + HostSet(Promote(cands, hosts, want).value.chosen)|
         == |hosts| + Min(want, |FreshHosts(cands, hosts)|)
    ensures |hosts + HostSet(other)| <= |hosts + HostSet(Promote(cands, hosts, want).value.chosen)|
  {
    hide PromoteFresh, PromoteAlternate, HostSet;
    FreshPass(cands, hosts, want);
    PromotionExact(cands, hosts, want);
    var r, p := PromoteFresh(cands, hosts, want), Promote(cands, hosts, want).value;
    ChosenHosts(cands, hosts, want);
    assert |hosts + HostSet(p.chosen)| == |hosts| + |HostSet(r.chosen)| by {
      assert hosts + HostSet(p.chosen) == hosts + HostSet(r.chosen);
      assert hosts !! HostSet(r.chosen);
    }
    ChoiceHosts(other, cands);
    HostSetSize(other);
    var extra := HostSet(other) - hosts;
    assert hosts + HostSet(other) == hosts + extra;
    SubsetSize(extra, FreshHosts(cands, hosts));
    SubsetSize(extra, HostSet(other));
  }

  /** The second pass adds no host. */
  lemma ChosenHosts(cands: seq<Address>, hosts: set<string>, want: int)
    requires Promote(cands, hosts, want).Some?
    ensures hosts + HostSet(Promote(cands, hosts, want).value.chosen)
         == hosts + HostSet(PromoteFresh(cands, hosts, want).chosen)
  {
    hide PromoteFresh, PromoteAlternate, HostSet;
    var r := PromoteFresh(cands, hosts, want);
    var q := PromoteAlternate(r.left, 0, want - |r.chosen|).value;
    FreshPass(cands, hosts, want);
    AlternatePass(r.left, 0, want - |r.chosen|);
    HostSetConcat(r.chosen, q.chosen);
    if want == |r.chosen| {
      NoHosts();
      assert q.chosen == [];
    } else {
      MultisetSubset(q.chosen, q.left, r.left);
      ChoiceHosts(q.chosen, r.left);
    }
  }

  lemma MultisetSubset(s: seq<Address>, t: seq<Address>, all: seq<Address>)
    requires multiset(s) + multiset(t) == multiset(all)
    ensures multiset(s) <= multiset(all)
  {
  }

  // ---------- masters, slaves and leftovers ----------

  /** The parts a plan is made of, for the lemmas that look inside it. */
  ghost predicate PlanParts(addrs: seq<Address>, masters: set<string>, count: nat, slaves: set<string>,
                            served: set<string>,
                            p: Split, parents: seq<Address>, newSlaves: seq<Address>, leftover: seq<Address>)
  {
    var cands, exist := Without(addrs, masters + slaves), Within(addrs, masters);
    && Promote(cands, HostSet(exist), |addrs| / 2 - count) == Some(p)
    && parents == Without(exist + p.chosen, served)
    && newSlaves == Paired(parents, RoundRobin(p.left))
    && leftover == Unpaired(parents, RoundRobin(p.left))
  }

  /** New masters, new slaves and leftovers partition the joining addresses; as many parents are
      served as the remaining addresses allow, in master order. */
  lemma ScaleConserves(addrs: seq<Address>, masters: set<string>, count: nat, slaves: set<string>, served: set<string>)
    returns (p: Split, parents: seq<Address>, newSlaves: seq<Address>, leftover: seq<Address>)
    requires Without(addrs, masters + slaves) != []
    requires Plan(addrs, masters, count, slaves, served).Planned?
    ensures PlanParts(addrs, masters, count, slaves, served, p, parents, newSlaves, leftover)
    ensures |newSlaves| == Min(|parents|, |p.left|)
    ensures Plan(addrs, masters, count, slaves, served)
         == Planned(Ips(p.chosen), Ips(newSlaves), Ips(parents[..|newSlaves|]))
    ensures multiset(p.chosen) + multiset(newSlaves) + multiset(leftover)
         == multiset(Without(addrs, masters + slaves))
  {
    hide Within, Without, HostSet, Promote, Paired, Unpaired, RoundRobin;
    var cands, exist := Without(addrs, masters + slaves), Within(addrs, masters);
    PromotionExact(cands, HostSet(exist), |addrs| / 2 - count);
    p := Promote(cands, HostSet(exist), |addrs| / 2 - count).value;
    parents := Without(exist + p.chosen, served);
    RoundRobinInterleaves(p.left);
    PairingConserves(parents, RoundRobin(p.left));
    newSlaves, leftover := Paired(parents, RoundRobin(p.left)), Unpaired(parents, RoundRobin(p.left));
  }

  /** Co-location collapse for the scale plan: all its co-located pairs, later slaves and leftovers
      are on one host. */
  lemma ScaleCollapse(addrs: seq<Address>, masters: set<string>, count: nat, slaves: set<string>, served: set<string>,
                      p: Split, parents: seq<Address>, newSlaves: seq<Address>, leftover: seq<Address>, i: nat)
    requires NonEmptyIps(addrs)
    requires PlanParts(addrs, masters, count, slaves, served, p, parents, newSlaves, leftover)
    requires Colocated(parents, newSlaves, i)
    ensures AllOn(newSlaves[i..], parents[i].node) && AllOn(leftover, parents[i].node)
    ensures forall j :: Colocated(parents, newSlaves, j) ==> parents[j].node == parents[i].node
  {
    hide Within, HostSet, Promote, Paired, Unpaired, RoundRobin;
    var cands := Without(addrs, masters + slaves);
    WithoutIsChoice(addrs, masters + slaves);
    PromotionExact(cands, HostSet(Within(addrs, masters)), |addrs| / 2 - count);
    RoundRobinInterleaves(p.left);
    var pool := RoundRobin(p.left);
    forall k | 0 <= k < |pool| ensures pool[k].ip != "" {
      assert pool[k] in multiset(addrs);
    }
    ColocationCollapse(parents, pool, i);
    forall j | Colocated(parents, newSlaves, j) ensures parents[j].node == parents[i].node {
      if i <= j {
        ColocatedPairsShareHost(parents, pool, i, j);
      } else {
        ColocatedPairsShareHost(parents, pool, j, i);
      }
    }
  }

  lemma {:induction false} WithoutIsChoice(addrs: seq<Address>, ips: set<string>)
    ensures multiset(Without(addrs, ips)) <= multiset(addrs)
  {
    if addrs != [] {
      WithoutIsChoice(addrs[..|addrs| - 1], ips);
      assert addrs == addrs[..|addrs| - 1] + [addrs[|addrs| - 1]];
    }
  }

}
