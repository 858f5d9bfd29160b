/** Greedy pairing: each master in turn takes the first remaining candidate on another host, or
    the first candidate when there is none. Both planners end with this loop. */
module Pairing {
  import opened Counting
  import opened Hosts

  /** The first index from i on whose address is not on the given host, or |pool|. */
  function FirstOther(node: string, pool: seq<Address>, i: nat): (j: nat)
    requires i <= |pool|
    ensures i <= j <= |pool|
    ensures forall k :: i <= k < j ==> pool[k].node == node
    ensures j < |pool| ==> pool[j].node != node
    decreases |pool| - i
  {
    if i < |pool| && pool[i].node == node then FirstOther(node, pool, i + 1) else i
  }

  /** The candidate a master takes. An empty IP reads as "not found", as in the source. */
  function PickIndex(node: string, pool: seq<Address>): (p: nat)
    requires pool != []
    ensures p < |pool|
  {
    var j := FirstOther(node, pool, 0);
    if j < |pool| && pool[j].ip != "" then j else 0
  }

  function Remove(s: seq<Address>, i: nat): (r: seq<Address>)
    requires i < |s|
    ensures |r| == |s| - 1
    ensures multiset(r) + multiset{s[i]} == multiset(s)
  {
    assert s == s[..i] + [s[i]] + s[i + 1..];
    s[..i] + s[i + 1..]
  }

  /** The slaves the masters take, in order; the loop ends early when no candidate is left. */
  function Paired(masters: seq<Address>, pool: seq<Address>): seq<Address> {
    if masters == [] || pool == [] then []
    else
      var p := PickIndex(masters[0].node, pool);
      [pool[p]] + Paired(masters[1..], Remove(pool, p))
  }

  /** The candidates nobody took. */
  function Unpaired(masters: seq<Address>, pool: seq<Address>): seq<Address> {
    if masters == [] || pool == [] then pool
    else Unpaired(masters[1..], Remove(pool, PickIndex(masters[0].node, pool)))
  }

  /** Every candidate ends up either as one slave or as one leftover. */
  lemma {:induction false} PairingConserves(masters: seq<Address>, pool: seq<Address>)
    ensures |Paired(masters, pool)| == Min(|masters|, |pool|)
    ensures |Unpaired(masters, pool)| == |pool| - Min(|masters|, |pool|)
    ensures multiset(Paired(masters, pool)) + multiset(Unpaired(masters, pool)) == multiset(pool)
  {
    if masters != [] && pool != [] {
      var p := PickIndex(masters[0].node, pool);
      PairingConserves(masters[1..], Remove(pool, p));
    }
  }

  ghost predicate NonEmptyIps(s: seq<Address>) {
    forall i :: 0 <= i < |s| ==> s[i].ip != ""
  }

  ghost predicate AllOn(s: seq<Address>, h: string) {
    forall i :: 0 <= i < |s| ==> s[i].node == h
  }

  ghost predicate Colocated(masters: seq<Address>, slaves: seq<Address>, i: int) {
    0 <= i < |masters| && i < |slaves| && masters[i].node == slaves[i].node
  }

  lemma RemoveKeeps(pool: seq<Address>, p: nat)
    requires p < |pool| && NonEmptyIps(pool)
    ensures NonEmptyIps(Remove(pool, p))
    ensures forall h :: AllOn(pool, h) ==> AllOn(Remove(pool, p), h)
  {
    assert forall i :: 0 <= i < |pool| - 1 ==> Remove(pool, p)[i] == pool[if i < p then i else i + 1];
  }

  lemma {:induction false} AllOnPaired(masters: seq<Address>, pool: seq<Address>, h: string)
    requires AllOn(pool, h) && NonEmptyIps(pool)
    ensures AllOn(Paired(masters, pool), h) && AllOn(Unpaired(masters, pool), h)
  {
    if masters != [] && pool != [] {
      var p := PickIndex(masters[0].node, pool);
      RemoveKeeps(pool, p);
      AllOnPaired(masters[1..], Remove(pool, p), h);
    }
  }

  /** Co-location collapse: once a slave lands on its master's host, every candidate still
      waiting, whether it becomes a slave or a leftover, is on that host too. */
  lemma {:induction false} ColocationCollapse(masters: seq<Address>, pool: seq<Address>, i: nat)
    requires NonEmptyIps(pool)
    requires Colocated(masters, Paired(masters, pool), i)
    ensures AllOn(Paired(masters, pool)[i..], masters[i].node)
    ensures AllOn(Unpaired(masters, pool), masters[i].node)
  {
    var p := PickIndex(masters[0].node, pool);
    var rest := Remove(pool, p);
    var tail := Paired(masters[1..], rest);
    RemoveKeeps(pool, p);
    assert Paired(masters, pool) == [pool[p]] + tail;
    if i == 0 {
      assert AllOn(pool, masters[0].node);
      AllOnPaired(masters[1..], rest, masters[0].node);
    } else {
      assert Colocated(masters[1..], tail, i - 1);
      ColocationCollapse(masters[1..], rest, i - 1);
      assert Paired(masters, pool)[i..] == tail[i - 1..];
    }
  }

  /** So all co-located pairs of one plan lie on a single host. */
  lemma {:induction false} ColocatedPairsShareHost(masters: seq<Address>, pool: seq<Address>, i: nat, j: nat)
    requires NonEmptyIps(pool) && i <= j
    requires Colocated(masters, Paired(masters, pool), i) && Colocated(masters, Paired(masters, pool), j)
    ensures masters[i].node == masters[j].node
  {
    ColocationCollapse(masters, pool, i);
    assert Paired(masters, pool)[i..][j - i] == Paired(masters, pool)[j];
  }

  /** However pairs are chosen, separating them leaves each host at most one address per pair. */
  lemma {:induction false} SeparationBound(masters: seq<Address>, slaves: seq<Address>, h: string)
    requires |masters| == |slaves|
    requires forall i :: !Colocated(masters, slaves, i)
    ensures Load(masters, h) + Load(slaves, h) <= |masters|
  {
    hide Load;
    var k := |masters|;
    if k == 0 {
      NoLoad(masters, h);
      NoLoad(slaves, h);
    } else {
      var ms, ss := masters[..k - 1], slaves[..k - 1];
      assert masters == ms + [masters[k - 1]] && slaves == ss + [slaves[k - 1]];
      assert !Colocated(masters, slaves, k - 1);
      forall i ensures !Colocated(ms, ss, i) {
        assert !Colocated(masters, slaves, i);
      }
      SeparationBound(ms, ss, h);
      LoadSnoc(ms, masters[k - 1], h);
      LoadSnoc(ss, slaves[k - 1], h);
    }
  }

  lemma RemoveLoad(pool: seq<Address>, p: nat, h: string)
    requires p < |pool|
    ensures Load(Remove(pool, p), h) == Load(pool, h) - if pool[p].node == h then 1 else 0
  {
    hide Load;
    LoadConcat(pool[..p], pool[p + 1..], h);
    LoadConcat(pool[..p] + [pool[p]], pool[p + 1..], h);
    LoadSnoc(pool[..p], pool[p], h);
    assert pool == pool[..p] + [pool[p]] + pool[p + 1..];
  }

  /** With two hosts the greedy pairing separates every pair when each host's masters find enough
      candidates on the other host. */
  lemma {:induction false} TwoHostPairing(masters: seq<Address>, pool: seq<Address>, g: string, h: string)
    requires g != h && NonEmptyIps(pool)
    requires forall i :: 0 <= i < |masters| ==> masters[i].node == g || masters[i].node == h
    requires forall i :: 0 <= i < |pool| ==> pool[i].node == g || pool[i].node == h
    requires Load(masters, g) <= Load(pool, h) && Load(masters, h) <= Load(pool, g)
    ensures forall i :: !Colocated(masters, Paired(masters, pool), i)
  {
    hide Load;
    if masters != [] && pool != [] {
      var m := masters[0];
      var other := if m.node == g then h else g;
      var p := PickIndex(m.node, pool);
      var rest := Remove(pool, p);
      assert masters == [m] + masters[1..];
      LoadConcat([m], masters[1..], g);
      LoadConcat([m], masters[1..], h);
      LoadSnoc([], m, g);
      LoadSnoc([], m, h);
      assert [] + [m] == [m];
      NoLoad([], g);
      NoLoad([], h);
      if FirstOther(m.node, pool, 0) == |pool| {
        NoLoad(pool, other);
      }
      RemoveLoad(pool, p, g);
      RemoveLoad(pool, p, h);
      RemoveKeeps(pool, p);
      assert forall i :: 0 <= i < |rest| ==> rest[i] == pool[if i < p then i else i + 1];
      TwoHostPairing(masters[1..], rest, g, h);
      forall i ensures !Colocated(masters, Paired(masters, pool), i) {
        assert !Colocated(masters[1..], Paired(masters[1..], rest), i - 1);
      }
    }
  }
}
