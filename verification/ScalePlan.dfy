/** The scale and repair planner: given the roles the live cluster already has, which of the
    remaining pods become masters, and which become slaves of which masters. */
module ScalePlan {
  import opened Wrappers
  import opened Hosts
  import opened Interleaving
  import opened RoundRobinLoop
  import opened Pairing
  import CreationPlan

  /** The planner's result. The Go code indexes out of range in the second promotion loop, or spins
      in the interleaving loop, on inputs it does not reject; both are results here. */
  datatype Outcome =
    | Planned(masters: seq<string>, slaves: seq<string>, parents: seq<string>)
    | IndexPanic
    | NeverReturns

  datatype Split = Split(chosen: seq<Address>, left: seq<Address>)

  // ---------- the plan as functions ----------

  function IpSet(ips: seq<string>): set<string> {
    set ip | ip in ips
  }

  /** The addresses whose IP is in the set, in order. */
  function Within(addrs: seq<Address>, ips: set<string>): seq<Address> {
    if addrs == [] then []
    else Within(addrs[..|addrs| - 1], ips)
         + if addrs[|addrs| - 1].ip in ips then [addrs[|addrs| - 1]] else []
  }

  /** The addresses whose IP is not in the set, in order. */
  function Without(addrs: seq<Address>, ips: set<string>): seq<Address> {
    if addrs == [] then []
    else Without(addrs[..|addrs| - 1], ips)
         + if addrs[|addrs| - 1].ip in ips then [] else [addrs[|addrs| - 1]]
  }

  /** First pass: promote candidates on hosts that carry no master, until `want` are promoted. A
      negative `want` never stops it. */
  function PromoteFresh(cands: seq<Address>, hosts: set<string>, want: int): Split {
    if cands == [] || want == 0 then Split([], cands)
    else if cands[0].node in hosts then
      var r := PromoteFresh(cands[1..], hosts, want);
      Split(r.chosen, [cands[0]] + r.left)
    else
      var r := PromoteFresh(cands[1..], hosts + {cands[0].node}, want - 1);
      Split([cands[0]] + r.chosen, r.left)
  }

  /** Second pass: promote the candidate at index i, delete it, advance i; None when i runs out of
      range. */
  function PromoteAlternate(cands: seq<Address>, i: nat, want: int): Option<Split>
    decreases if want < 0 then 0 else want
  {
    if want <= 0 then Some(Split([], cands))
    else if i >= |cands| then None
    else
      match PromoteAlternate(Remove(cands, i), i + 1, want - 1)
      case None => None
      case Some(r) => Some(Split([cands[i]] + r.chosen, r.left))
  }

  /** Both passes. */
  function Promote(cands: seq<Address>, hosts: set<string>, want: int): Option<Split> {
    var first := PromoteFresh(cands, hosts, want);
    match PromoteAlternate(first.left, 0, want - |first.chosen|)
    case None => None
    case Some(r) => Some(Split(first.chosen + r.chosen, r.left))
  }

  /** The plan from the live roles: the master IPs, how many master entries were listed, the slave
      IPs, and the masters that already have a slave. */
  function Plan(addrs: seq<Address>, masters: set<string>, count: nat, slaves: set<string>,
                served: set<string>): Outcome
  {
    var cands := Without(addrs, masters + slaves);
    if cands == [] then Planned([], [], [])
    else
      var exist := Within(addrs, masters);
      match Promote(cands, HostSet(exist), |addrs| / 2 - count)
      case None => IndexPanic
      case Some(p) =>
        if p.left == [] then NeverReturns
        else
          var parents := Without(exist + p.chosen, served);
          var newSlaves := Paired(parents, RoundRobin(p.left));
          PairingConserves(parents, RoundRobin(p.left));
          Planned(Ips(p.chosen), Ips(newSlaves), Ips(parents[..|newSlaves|]))
  }

  function Compose(addrs: seq<Address>, masterIps: seq<string>, slaveIps: seq<string>,
                   connector: map<string, string>): Outcome
  {
    Plan(addrs, IpSet(masterIps), |masterIps|, IpSet(slaveIps), connector.Keys)
  }

  // ---------- the planner's loops ----------

  /** `composeMasterSlaveIP`. */
  method ComposeMasterSlaveIP(newAddresses: seq<Address>, existedMasterInstanceIPs: seq<string>,
                              existedSlaveInstanceIPs: seq<string>, masterSlaveConnector: map<string, string>)
    returns (o: Outcome)
    ensures o == Compose(newAddresses, existedMasterInstanceIPs, existedSlaveInstanceIPs, masterSlaveConnector)
  {
    hide Within, Without, PromoteFresh, PromoteAlternate, Paired, RoundRobin, HostSet;
    var existMasterAddr, willAddClusterAddr :=
      Classify(newAddresses, existedMasterInstanceIPs, existedSlaveInstanceIPs);
    if |willAddClusterAddr| == 0 {
      return Planned([], [], []);
    }
    var willAssignMasterCount := |newAddresses| / 2 - |existedMasterInstanceIPs|;
    var chosen;
    chosen, willAddClusterAddr, existMasterAddr :=
      PromoteFreshHosts(willAddClusterAddr, existMasterAddr, willAssignMasterCount);
    var inRange, more;
    inRange, more, willAddClusterAddr :=
      PromoteFallback(willAddClusterAddr, willAssignMasterCount - |chosen|);
    if !inRange {
      return IndexPanic;
    }
    existMasterAddr := existMasterAddr + more;
    var noSlaveMasterAddr := WithoutSlave(existMasterAddr, masterSlaveConnector);
    if |willAddClusterAddr| == 0 {
      // no host keys: the draining loop would never clear its flag
      return NeverReturns;
    }
    var interleaved := Interleave(willAddClusterAddr);
    var slaves, parents := AssignSlaves(noSlaveMasterAddr, interleaved);
    ghost var exist := Within(newAddresses, IpSet(existedMasterInstanceIPs));
    assert exist + chosen + more == exist + (chosen + more);
    o := Planned(Ips(chosen + more), slaves, parents);
  }

  method Classify(addrs: seq<Address>, masterIps: seq<string>, slaveIps: seq<string>)
    returns (existMasterAddr: seq<Address>, willAddClusterAddr: seq<Address>)
    ensures existMasterAddr == Within(addrs, IpSet(masterIps))
    ensures willAddClusterAddr == Without(addrs, IpSet(masterIps) + IpSet(slaveIps))
  {
    existMasterAddr, willAddClusterAddr := [], [];
    for i := 0 to |addrs|
      invariant existMasterAddr == Within(addrs[..i], IpSet(masterIps))
      invariant willAddClusterAddr == Without(addrs[..i], IpSet(masterIps) + IpSet(slaveIps))
    {
      var addr := addrs[i];
      assert addrs[..i + 1][..i] == addrs[..i];
      if addr.ip in masterIps {
        existMasterAddr := existMasterAddr + [addr];
      } else if addr.ip in slaveIps {
      } else {
        willAddClusterAddr := willAddClusterAddr + [addr];
      }
    }
    assert addrs[..|addrs|] == addrs;
  }

  method PromoteFreshHosts(cands: seq<Address>, exist: seq<Address>, want: int)
    returns (chosen: seq<Address>, left: seq<Address>, masters: seq<Address>)
    ensures Split(chosen, left) == PromoteFresh(cands, HostSet(exist), want)
    ensures masters == exist + chosen
  {
    hide HostSet, PromoteFresh;
    chosen, left, masters := [], cands, exist;
    var i := 0;
    assert left[..0] == [] && left[0..] == left;
    while i < |left| && |chosen| != want
      invariant 0 <= i <= |left|
      invariant masters == exist + chosen
      invariant PromoteFresh(cands, HostSet(exist), want)
             == Extend(chosen, left[..i], PromoteFresh(left[i..], HostSet(masters), want - |chosen|))
      decreases |left| - i
    {
      var isSameNode := false;
      for j := 0 to |masters|
        invariant !isSameNode ==> left[i].node !in Nodes(masters)[..j]
        invariant isSameNode ==> left[i].node in Nodes(masters)
      {
        if masters[j].node == left[i].node {
          isSameNode := true;
          assert Nodes(masters)[j] == left[i].node;
          break;
        }
      }
      assert isSameNode <==> left[i].node in HostSet(masters) by {
        InHostSet(masters, left[i].node);
      }
      assert left[i..][1..] == left[i + 1..];
      FreshStep(chosen, left, i, HostSet(masters), want - |chosen|);
      if isSameNode {
        i := i + 1;
      } else {
        HostSetConcat(masters, [left[i]]);
        assert HostSet([left[i]]) == {left[i].node} by { AloneOnHost(left[i]); }
        ghost var was := left;
        chosen := chosen + [left[i]];
        masters := masters + [left[i]];
        left := left[..i] + left[i + 1..];
        assert left[i..] == was[i + 1..] && left[..i] == was[..i];
      }
    }
    assert left[..i] + left[i..] == left;
    assert left[i..] == [] || want - |chosen| == 0;
    FreshDone(left[i..], HostSet(masters), want - |chosen|);
  }

  lemma FreshDone(cands: seq<Address>, hosts: set<string>, want: int)
    requires cands == [] || want == 0
    ensures PromoteFresh(cands, hosts, want) == Split([], cands)
  {
  }

  lemma AloneOnHost(a: Address)
    ensures HostSet([a]) == {a.node}
  {
    assert Nodes([a]) == [a.node];
  }

  /** What the rest of a pass chooses and leaves comes after what it has chosen and left so far. */
  function Extend(taken: seq<Address>, kept: seq<Address>, r: Split): Split {
    Split(taken + r.chosen, kept + r.left)
  }

  lemma FreshStep(taken: seq<Address>, left: seq<Address>, i: nat, hosts: set<string>, want: int)
    requires i < |left| && want != 0
    ensures left[i].node in hosts ==>
      Extend(taken, left[..i], PromoteFresh(left[i..], hosts, want))
      == Extend(taken, left[..i + 1], PromoteFresh(left[i + 1..], hosts, want))
    ensures left[i].node !in hosts ==>
      Extend(taken, left[..i], PromoteFresh(left[i..], hosts, want))
      == Extend(taken + [left[i]], left[..i], PromoteFresh(left[i + 1..], hosts + {left[i].node}, want - 1))
  {
    assert left[i..][1..] == left[i + 1..] && left[i..][0] == left[i];
    assert left[..i + 1] == left[..i] + [left[i]];
    var r := PromoteFresh(left[i + 1..], hosts, want);
    assert left[..i] + ([left[i]] + r.left) == left[..i + 1] + r.left;
    var r' := PromoteFresh(left[i + 1..], hosts + {left[i].node}, want - 1);
    assert taken + ([left[i]] + r'.chosen) == taken + [left[i]] + r'.chosen;
  }

  lemma InHostSet(s: seq<Address>, h: string)
    ensures h in HostSet(s) <==> h in Nodes(s)
  {
  }

  method PromoteFallback(cands: seq<Address>, count: int)
    returns (inRange: bool, chosen: seq<Address>, left: seq<Address>)
    ensures PromoteAlternate(cands, 0, count) == if inRange then Some(Split(chosen, left)) else None
  {
    hide PromoteAlternate;
    chosen, left := [], cands;
    var i := 0;
    ExtendNothing(PromoteAlternate(cands, 0, count));
    while |chosen| < count
      invariant |chosen| <= count || chosen == []
      invariant PromoteAlternate(cands, 0, count) == ExtendAll(chosen, PromoteAlternate(left, i, count - |chosen|))
      decreases count - |chosen|
    {
      AlternateEnds(left, i, count - |chosen|);
      if i >= |left| {
        return false, [], [];
      }
      AlternateStep(chosen, left, i, count - |chosen|);
      chosen := chosen + [left[i]];
      left := Remove(left, i);
      i := i + 1;
    }
    AlternateEnds(left, i, count - |chosen|);
    assert chosen + [] == chosen;
    inRange := true;
  }

  lemma AlternateEnds(left: seq<Address>, i: nat, want: int)
    ensures want <= 0 ==> PromoteAlternate(left, i, want) == Some(Split([], left))
    ensures want > 0 && i >= |left| ==> PromoteAlternate(left, i, want) == None
  {
  }

  function ExtendAll(taken: seq<Address>, r: Option<Split>): Option<Split> {
    if r.None? then None else Some(Split(taken + r.value.chosen, r.value.left))
  }

  lemma ExtendNothing(r: Option<Split>)
    ensures ExtendAll([], r) == r
  {
    assert r.Some? ==> [] + r.value.chosen == r.value.chosen;
  }

  lemma AlternateStep(taken: seq<Address>, left: seq<Address>, i: nat, want: int)
    requires i < |left| && want > 0
    ensures ExtendAll(taken, PromoteAlternate(left, i, want))
         == ExtendAll(taken + [left[i]], PromoteAlternate(Remove(left, i), i + 1, want - 1))
  {
    var r := PromoteAlternate(Remove(left, i), i + 1, want - 1);
    assert r.Some? ==> taken + ([left[i]] + r.value.chosen) == taken + [left[i]] + r.value.chosen;
  }

  method WithoutSlave(masters: seq<Address>, connector: map<string, string>) returns (r: seq<Address>)
    ensures r == Without(masters, connector.Keys)
  {
    r := [];
    for i := 0 to |masters|
      invariant r == Without(masters[..i], connector.Keys)
    {
      assert masters[..i + 1][..i] == masters[..i];
      if masters[i].ip !in connector {
        r := r + [masters[i]];
      }
    }
    assert masters[..|masters|] == masters;
  }

  lemma IpsSnoc(s: seq<Address>, a: Address)
    ensures Ips(s + [a]) == Ips(s) + [a.ip]
  {
  }

  method AssignSlaves(masters: seq<Address>, candidates: seq<Address>)
    returns (slaveIPs: seq<string>, parentIPs: seq<string>)
    ensures slaveIPs == Ips(Paired(masters, candidates))
    ensures |Paired(masters, candidates)| <= |masters|
    ensures parentIPs == Ips(masters[..|Paired(masters, candidates)|])
  {
    hide Paired, PickIndex, Ips;
    PairingConserves(masters, candidates);
    var interleaved, nodesCount := candidates, |candidates|;
    var slaves: seq<Address> := [];
    slaveIPs, parentIPs := [], [];
    var k := 0;
    while k < |masters|
      invariant 0 <= k <= |masters|
      invariant |interleaved| == nodesCount && |slaves| == k
      invariant slaves + Paired(masters[k..], interleaved) == Paired(masters, candidates)
      invariant slaveIPs == Ips(slaves) && parentIPs == Ips(masters[..k])
    {
      if nodesCount == 0 {
        break;
      }
      var removeIndex := CreationPlan.FindOther(masters[k].node, interleaved);
      CreationPlan.PairedStep(masters, k, interleaved);
      IpsSnoc(slaves, interleaved[removeIndex]);
      IpsSnoc(masters[..k], masters[k]);
      assert masters[..k + 1] == masters[..k] + [masters[k]];
      slaves := slaves + [interleaved[removeIndex]];
      slaveIPs := slaveIPs + [interleaved[removeIndex].ip];
      parentIPs := parentIPs + [masters[k].ip];
      interleaved := Remove(interleaved, removeIndex);
      nodesCount := nodesCount - 1;
      k := k + 1;
    }
    PairingConserves(masters[k..], interleaved);
  }
}
