/** What the creation plan guarantees. */
module CreationProperties {
  import opened Counting
  import opened Strings
  import opened Hosts
  import opened Interleaving
  import opened Spread
  import opened Pairing
  import opened CreationPlan

  lemma RotatePermutes(s: seq<Address>, m: nat)
    requires m < |s|
    ensures multiset(s[..m]) + multiset(s[m..][1..] + s[m..][..1]) == multiset(s)
  {
    var rest := s[m..];
    assert s == s[..m] + rest && rest == rest[..1] + rest[1..];
  }

  lemma MultisetLoad(s: seq<Address>, t: seq<Address>, h: string)
    requires multiset(s) == multiset(t)
    ensures Load(s, h) == Load(t, h)
  {
    ChoiceLoad(s, t, h);
    ChoiceLoad(t, s, h);
  }

  /** Masters and candidates share out the addresses. */
  lemma CandidatesPermute(addrs: seq<Address>)
    requires addrs != []
    ensures multiset(Masters(addrs)) + multiset(Candidates(addrs)) == multiset(addrs)
    ensures forall h :: Load(Masters(addrs), h) + Load(Candidates(addrs), h) == Load(addrs, h)
    ensures NonEmptyIps(addrs) ==> NonEmptyIps(Candidates(addrs))
  {
    hide RoundRobin, Load;
    RoundRobinInterleaves(addrs);
    RotatePermutes(RoundRobin(addrs), |addrs| / 2);
    forall h ensures Load(Masters(addrs), h) + Load(Candidates(addrs), h) == Load(addrs, h) {
      LoadConcat(Masters(addrs), Candidates(addrs), h);
      MultisetLoad(Masters(addrs) + Candidates(addrs), addrs, h);
    }
    if NonEmptyIps(addrs) {
      forall i | 0 <= i < |Candidates(addrs)| ensures Candidates(addrs)[i].ip != "" {
        assert Candidates(addrs)[i] in multiset(addrs);
      }
    }
  }

  /** The plan hands out every address once: ⌊n/2⌋ masters, as many slaves, and n mod 2 left over. */
  lemma CreationConserves(addrs: seq<Address>)
    requires addrs != []
    ensures |Masters(addrs)| == |Slaves(addrs)| == |addrs| / 2
    ensures |Outside(addrs)| == |addrs| % 2
    ensures multiset(Masters(addrs)) + multiset(Slaves(addrs)) + multiset(Outside(addrs)) == multiset(addrs)
  {
    hide Masters, Candidates, Paired, Unpaired;
    CandidatesPermute(addrs);
    PairingConserves(Masters(addrs), Candidates(addrs));
  }

  /** No other ⌊n/2⌋ addresses have a smaller maximum number of masters on one host. */
  lemma MastersMinimizeMaxLoad(addrs: seq<Address>, other: seq<Address>, cap: nat)
    requires Choice(other, addrs) && |other| == |addrs| / 2 && FitsWithin(other, cap)
    ensures FitsWithin(Masters(addrs), cap)
  {
    hide RoundRobin;
    RoundRobinInterleaves(addrs);
    PrefixMinimizesMaxLoad(RoundRobin(addrs), addrs, |addrs| / 2, other, cap);
  }

  /** The masters cover min(⌊n/2⌋, number of hosts) hosts, the most any ⌊n/2⌋ addresses can. */
  lemma MastersCoverHosts(addrs: seq<Address>)
    ensures |HostSet(Masters(addrs))| == Min(|addrs| / 2, |HostSet(addrs)|)
    ensures forall other :: Choice(other, addrs) && |other| == |addrs| / 2
              ==> |HostSet(other)| <= |HostSet(Masters(addrs))|
  {
    hide RoundRobin, HostSet;
    RoundRobinInterleaves(addrs);
    PrefixCoverage(RoundRobin(addrs), addrs, |addrs| / 2);
  }

  /** The plan depends only on each host's own list of addresses. */
  lemma PlanDetermined(a: seq<Address>, b: seq<Address>)
    requires a != [] && SamePerHost(a, b)
    ensures b != [] && Masters(a) == Masters(b) && Slaves(a) == Slaves(b) && Outside(a) == Outside(b)
  {
    hide RoundRobin, Paired, Unpaired;
    SamePerHostLoads(a, b);
    RoundRobinDetermined(a, b);
  }

  /** If pair i shares a host, so do all co-located pairs and the leftover: one host at most is
      affected. */
  lemma CreationCollapse(addrs: seq<Address>, i: nat)
    requires addrs != [] && NonEmptyIps(addrs)
    requires Colocated(Masters(addrs), Slaves(addrs), i)
    ensures AllOn(Slaves(addrs)[i..], Masters(addrs)[i].node)
    ensures AllOn(Outside(addrs), Masters(addrs)[i].node)
    ensures forall j :: Colocated(Masters(addrs), Slaves(addrs), j) ==> Masters(addrs)[j].node == Masters(addrs)[i].node
  {
    hide RoundRobin, Paired, Unpaired;
    CandidatesPermute(addrs);
    ColocationCollapse(Masters(addrs), Candidates(addrs), i);
    forall j | Colocated(Masters(addrs), Slaves(addrs), j)
      ensures Masters(addrs)[j].node == Masters(addrs)[i].node
    {
      if i <= j {
        ColocatedPairsShareHost(Masters(addrs), Candidates(addrs), i, j);
      } else {
        ColocatedPairsShareHost(Masters(addrs), Candidates(addrs), j, i);
      }
    }
  }

  ghost predicate Separated(addrs: seq<Address>)
    requires addrs != []
  {
    forall i :: !Colocated(Masters(addrs), Slaves(addrs), i)
  }

  /** A plan without co-location exists only if no host holds more than ⌈n/2⌉ addresses. */
  lemma SeparationNeedsBalance(addrs: seq<Address>, h: string)
    requires addrs != [] && Separated(addrs)
    ensures Load(addrs, h) <= (|addrs| + 1) / 2
  {
    hide RoundRobin, Paired, Unpaired, Load;
    CandidatesPermute(addrs);
    CreationConserves(addrs);
    SeparationBound(Masters(addrs), Slaves(addrs), h);
    LoadBound(Outside(addrs), h);
    PairedLoads(Masters(addrs), Candidates(addrs), h);
  }

  lemma {:induction false} LoadBound(s: seq<Address>, h: string)
    ensures Load(s, h) <= |s|
  {
    if s != [] {
      LoadBound(s[..|s| - 1], h);
    }
  }

  lemma PairedLoads(masters: seq<Address>, pool: seq<Address>, h: string)
    ensures Load(Paired(masters, pool), h) + Load(Unpaired(masters, pool), h) == Load(pool, h)
  {
    hide Load, Paired, Unpaired;
    PairingConserves(masters, pool);
    var all := Paired(masters, pool) + Unpaired(masters, pool);
    LoadConcat(Paired(masters, pool), Unpaired(masters, pool), h);
    MultisetLoad(all, pool, h);
  }

  /** With two hosts the plan avoids co-location exactly when neither
      host holds more than ⌈n/2⌉ addresses. */
  lemma {:induction false} TwoHostsSeparateExactly(addrs: seq<Address>, g: string, h: string)
    requires NonEmptyIps(addrs) && g != h && HostSet(addrs) == {g, h}
    ensures addrs != []
    ensures Separated(addrs) <==> Load(addrs, g) <= (|addrs| + 1) / 2 && Load(addrs, h) <= (|addrs| + 1) / 2
  {
    hide RoundRobin, Paired, Unpaired, Load, HostSet;
    TwoHostLoads(addrs, g, h);
    if Separated(addrs) {
      SeparationNeedsBalance(addrs, g);
      SeparationNeedsBalance(addrs, h);
    }
    if Load(addrs, g) <= (|addrs| + 1) / 2 && Load(addrs, h) <= (|addrs| + 1) / 2 {
      CandidatesPermute(addrs);
      var ms, cs := Masters(addrs), Candidates(addrs);
      OnTwoHosts(ms, addrs, g, h);
      OnTwoHosts(cs, addrs, g, h);
      TwoHostLoadsOf(ms, g, h);
      TwoHostPairing(ms, cs, g, h);
    }
  }

  lemma OnTwoHosts(s: seq<Address>, addrs: seq<Address>, g: string, h: string)
    requires multiset(s) <= multiset(addrs) && HostSet(addrs) == {g, h}
    ensures forall i :: 0 <= i < |s| ==> s[i].node == g || s[i].node == h
  {
    ChoiceHosts(s, addrs);
    forall i | 0 <= i < |s| ensures s[i].node == g || s[i].node == h {
      assert Nodes(s)[i] in HostSet(s);
    }
  }

  lemma {:induction false} TwoHostLoadsOf(s: seq<Address>, g: string, h: string)
    requires g != h && forall i :: 0 <= i < |s| ==> s[i].node == g || s[i].node == h
    ensures Load(s, g) + Load(s, h) == |s|
  {
    if s != [] {
      TwoHostLoadsOf(s[..|s| - 1], g, h);
    }
  }

  lemma TwoHostLoads(addrs: seq<Address>, g: string, h: string)
    requires g != h && HostSet(addrs) == {g, h}
    ensures addrs != [] && Load(addrs, g) + Load(addrs, h) == |addrs|
  {
    OnTwoHosts(addrs, addrs, g, h);
    TwoHostLoadsOf(addrs, g, h);
    LoadPositive(addrs, g);
  }

  /** An assignment of the same slaves to the masters that shares no host. */
  ghost predicate Separates(addrs: seq<Address>, slaves: seq<Address>)
    requires addrs != []
  {
    multiset(slaves) == multiset(Slaves(addrs)) && forall i :: !Colocated(Masters(addrs), slaves, i)
  }

  /** With three hosts balance is not enough: hosts a, b and c with 1, 3 and 2 addresses. The
      chosen masters and slaves can be paired without sharing a host, but the greedy plan puts a
      slave next to its master. */
  lemma BalancedThreeHostsMayColocate()
    ensures var addrs := ThreeHosts();
            && NonEmptyIps(addrs)
            && (forall h :: Load(addrs, h) <= (|addrs| + 1) / 2)
            && Colocated(Masters(addrs), Slaves(addrs), 1)
            && exists slaves :: Separates(addrs, slaves)
  {
    hide Load, Masters, Slaves, ThreeHosts, NonEmptyIps, AllOn;
    var s := ThreeHosts();
    ThreeHostsNodes();
    ThreeHostsPlan(s);
    ThreeHostsBalanced(s);
    var others := [s[5], s[4], s[3]];
    forall i ensures !Colocated(Masters(s), others, i) { }
    assert Separates(s, others);
  }

  /** Pairs that share no host bound the load of every host by their number. */
  lemma ThreeHostsBalanced(s: seq<Address>)
    requires s == ThreeHosts()
    ensures forall h :: Load(s, h) <= 3
  {
    hide Load, ThreeHosts;
    ThreeHostsNodes();
    var ms, others := [s[0], s[1], s[2]], [s[5], s[4], s[3]];
    forall i ensures !Colocated(ms, others, i) { }
    assert s == ms + [s[3], s[4], s[5]];
    assert multiset(ms + others) == multiset(s);
    forall h ensures Load(s, h) <= 3 {
      SeparationBound(ms, others, h);
      MultisetLoad(ms + others, s, h);
      LoadConcat(ms, others, h);
    }
  }

  lemma ThreeHostsPlan(s: seq<Address>)
    requires s == ThreeHosts()
    ensures |s| == 6 && Masters(s) == [s[0], s[1], s[2]] && Slaves(s) == [s[4], s[5], s[3]]
  {
    assert RoundRobin(s) == s by {
      ThreeHostsOrdered();
      InterleavingIsRoundRobin(s, s);
    }
    hide RoundRobin, Paired, ThreeHosts;
    ThreeHostsNodes();
    assert s[..3] == [s[0], s[1], s[2]] && s[3..][1..] + s[3..][..1] == [s[4], s[5], s[3]];
    PairThree(s[0], s[1], s[2], s[4], s[5], s[3]);
  }

  function ThreeHosts(): seq<Address> {
    [Address("1", "a"), Address("2", "b"), Address("3", "c"), Address("4", "b"), Address("5", "c"), Address("6", "b")]
  }

  lemma ThreeHostsNodes()
    ensures var s := ThreeHosts();
            && |s| == 6 && NonEmptyIps(s)
            && s[1].node == s[3].node == s[5].node && s[2].node == s[4].node
            && s[0].node != s[1].node && s[0].node != s[2].node && s[1].node != s[2].node
  {
    var s := ThreeHosts();
    assert s[0].node == "a" && s[1].node == "b" && s[2].node == "c";
  }

  /** The second master finds only its own host left. */
  lemma PairThree(a: Address, b: Address, c: Address, x: Address, y: Address, z: Address)
    requires a.node != x.node && b.node == y.node == z.node && c.node != z.node
    requires NonEmptyIps([x, y, z])
    ensures Paired([a, b, c], [x, y, z]) == [x, y, z]
  {
    hide Paired, PickIndex, Remove;
    assert [x, y, z][0].ip != "" && [x, y, z][2].ip != "";
    PairedCons(a, [b, c], x, [y, z]);
    PairedCons(b, [c], y, [z]);
    PairedCons(c, [], z, []);
    PairingConserves([], []);
    assert [c] + [] == [c] && [z] + [] == [z] && Paired([], []) == [];
    assert [b] + [c] == [b, c] && [a] + [b, c] == [a, b, c];
    assert [y] + [z] == [y, z] && [x] + [y, z] == [x, y, z];
  }

  /** A master takes the first candidate if that one is on another host or all share its own. */
  lemma PairedCons(m: Address, ms: seq<Address>, c: Address, cs: seq<Address>)
    requires (m.node != c.node && c.ip != "") || AllOn([c] + cs, m.node)
    ensures Paired([m] + ms, [c] + cs) == [c] + Paired(ms, cs)
  {
    assert Remove([c] + cs, 0) == cs;
    assert ([m] + ms)[1..] == ms;
    var j := FirstOther(m.node, [c] + cs, 0);
    assert ([c] + cs)[0] == c;
  }

  lemma ThreeHostsOrdered()
    ensures Ordered(ThreeHosts())
  {
    hide Load, Le;
    var s := ThreeHosts();
    NoLoad(s[..1], "b");
    NoLoad(s[..2], "c");
    NoLoad(s[..0], "a");
    forall k | 1 <= k < 6
      ensures Load(s[..k + 1], "b") == Load(s[..k], "b") + if s[k].node == "b" then 1 else 0
      ensures Load(s[..k + 1], "c") == Load(s[..k], "c") + if s[k].node == "c" then 1 else 0
    {
      assert s[..k + 1] == s[..k] + [s[k]];
      LoadSnoc(s[..k], s[k], "b");
      LoadSnoc(s[..k], s[k], "c");
    }
    assert Round(s, 0) == 0 && Round(s, 1) == 0 && Round(s, 2) == 0;
    assert Round(s, 3) == 1 && Round(s, 4) == 1 && Round(s, 5) == 2;
    HostOrder();
  }

  lemma HostOrder()
    ensures Lt("a", "b") && Lt("a", "c") && Lt("b", "c")
  {
  }
}
