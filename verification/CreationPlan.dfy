/** The creation planner: which pods of a new cluster become masters, and which slaves. */
module CreationPlan {
  import opened Wrappers
  import opened Hosts
  import opened Interleaving
  import opened RoundRobinLoop
  import P = Pairing
  import opened GoSlices

  // ---------- the plan as a function of the addresses ----------

  function Masters(addrs: seq<Address>): (r: seq<Address>)
    ensures |r| == |addrs| / 2
  {
    RoundRobinInterleaves(addrs);
    RoundRobin(addrs)[..|addrs| / 2]
  }

  /** The remaining addresses, rotated by one. */
  function Candidates(addrs: seq<Address>): (r: seq<Address>)
    requires addrs != []
    ensures |r| == |addrs| - |addrs| / 2
  {
    RoundRobinInterleaves(addrs);
    var rest := RoundRobin(addrs)[|addrs| / 2..];
    rest[1..] + rest[..1]
  }

  function Slaves(addrs: seq<Address>): seq<Address>
    requires addrs != []
  {
    P.Paired(Masters(addrs), Candidates(addrs))
  }

  function Outside(addrs: seq<Address>): seq<Address>
    requires addrs != []
  {
    P.Unpaired(Masters(addrs), Candidates(addrs))
  }

  // ---------- the planner, on one shared backing array ----------

  /** `assignMasterSlaveIP`. `warned` are the pairs its deferred closure logs as sharing a host;
      the closure reads the masters window after all deletions in the array it shares. */
  method AssignMasterSlaveIP(addresses: seq<Address>)
    returns (r: Result<(seq<string>, seq<string>)>, warned: seq<nat>)
    ensures addresses == [] ==> r.Failure? && warned == []
    ensures addresses != [] ==> r == Success((Ips(Masters(addresses)), Ips(Slaves(addresses))))
    ensures addresses != [] ==>
      forall i :: i in warned <==> P.Colocated(Masters(addresses), Slaves(addresses), i)
  {
    if |addresses| == 0 {
      return Failure("create redisCluster endpoints addresses is empty"), [];
    }
    hide RoundRobin, P.Paired, P.PickIndex;
    var all := Interleave(addresses);
    RoundRobinInterleaves(addresses);
    var mastersCount := |addresses| / 2;
    var interleaved := Build(all);
    var masters := interleaved.To(mastersCount);
    var masterInstanceIPs := Ips(masters.View());
    var nodesCount := |addresses| - masters.len;
    interleaved := interleaved.From(mastersCount);
    interleaved := Rotate(interleaved, masters);
    assert interleaved.View() == Candidates(addresses);
    var slaves := AssignSlaves(masters, interleaved, nodesCount);
    r := Success((masterInstanceIPs, Ips(slaves)));
    warned := DeferredWarnings(masters, slaves);
  }

  /** The assignment loop: every master gets its slave, the early return never fires, and the
      masters window of the shared array is left alone. */
  method AssignSlaves(masters: Slice, candidates: Slice, count: nat) returns (slaves: seq<Address>)
    requires masters.Valid() && candidates.Valid()
    requires masters.len <= candidates.len == count
    requires InFront(masters, candidates)
    modifies candidates.arr
    ensures slaves == old(P.Paired(masters.View(), candidates.View())) && |slaves| == masters.len
    ensures masters.View() == old(masters.View())
  {
    hide P.Paired, P.PickIndex, InFront, Slice.View;
    ghost var ms, cs := masters.View(), candidates.View();
    var interleaved, nodesCount := candidates, count;
    slaves := [];
    P.PairingConserves(ms, cs);
    var k := 0;
    while k < masters.len
      invariant 0 <= k <= masters.len
      invariant interleaved.Valid() && interleaved.arr == candidates.arr && InFront(masters, interleaved)
      invariant interleaved.len == nodesCount == count - k && k == |slaves|
      invariant masters.View() == ms
      invariant slaves + P.Paired(ms[k..], interleaved.View()) == P.Paired(ms, cs)
    {
      var master := masters.View()[k];
      if nodesCount == 0 {
        break;
      }
      ghost var pool := interleaved.View();
      var removeIndex := FindOther(master.node, interleaved.View());
      slaves := slaves + [interleaved.View()[removeIndex]];
      PairedStep(ms, k, pool);
      interleaved := Delete(interleaved, removeIndex, masters);
      nodesCount := nodesCount - 1;
      k := k + 1;
    }
    assert ms[k..] == [];
    assert P.Paired(ms[k..], interleaved.View()) == [] by {
      P.PairingConserves(ms[k..], interleaved.View());
    }
  }

  lemma PairedStep(ms: seq<Address>, k: nat, pool: seq<Address>)
    requires k < |ms| && pool != []
    ensures var p := P.PickIndex(ms[k].node, pool);
            P.Paired(ms[k..], pool) == [pool[p]] + P.Paired(ms[k + 1..], pool[..p] + pool[p + 1..])
  {
    assert ms[k..][1..] == ms[k + 1..];
  }

  /** The deferred logging loop, which indexes the slaves by master. */
  method DeferredWarnings(masters: Slice, slaves: seq<Address>) returns (warned: seq<nat>)
    requires masters.Valid() && masters.len == |slaves|
    ensures forall i :: i in warned <==> P.Colocated(masters.View(), slaves, i)
  {
    warned := [];
    var i := 0;
    while i < masters.len
      invariant 0 <= i <= masters.len
      invariant forall j :: j in warned <==> j < i && P.Colocated(masters.View(), slaves, j)
    {
      if masters.View()[i].node == slaves[i].node {
        warned := warned + [i];
      }
      i := i + 1;
    }
  }

  /** The search loop both planners share. */
  method FindOther(node: string, pool: seq<Address>) returns (removeIndex: nat)
    requires pool != []
    ensures removeIndex == P.PickIndex(node, pool)
  {
    var instanceIP := "";
    removeIndex := 0;
    var i := 0;
    while i < |pool|
      invariant 0 <= i <= |pool|
      invariant instanceIP == "" && removeIndex == 0
      invariant P.FirstOther(node, pool, 0) == P.FirstOther(node, pool, i)
    {
      if node != pool[i].node {
        instanceIP := pool[i].ip;
        removeIndex := i;
        break;
      }
      i := i + 1;
    }
    if instanceIP == "" {
      removeIndex := 0;
    }
  }
}
