/** The loops that group addresses by host and drain the host queues, proved to compute the
    closed form `RoundRobin`. */
module RoundRobinLoop {
  import opened Counting
  import opened Strings
  import opened Hosts
  import opened Interleaving

  function Queue(nodeIPs: map<string, seq<Address>>, h: string): seq<Address> {
    if h in nodeIPs then nodeIPs[h] else []
  }

  method GroupByNode(addresses: seq<Address>) returns (nodeIPs: map<string, seq<Address>>)
    ensures nodeIPs.Keys == HostSet(addresses)
    ensures forall h :: Queue(nodeIPs, h) == OnHost(addresses, h)
  {
    hide OnHost, HostSet;
    nodeIPs := map[];
    forall h ensures OnHost(addresses[..0], h) == [] { NoLoad(addresses[..0], h); }
    for i := 0 to |addresses|
      invariant forall h :: h in nodeIPs ==> nodeIPs[h] != []
      invariant forall h :: Queue(nodeIPs, h) == OnHost(addresses[..i], h)
    {
      var addr := addresses[i];
      ghost var was := nodeIPs;
      nodeIPs := nodeIPs[addr.node := Queue(nodeIPs, addr.node) + [addr]];
      assert addresses[..i + 1] == addresses[..i] + [addr];
      forall h ensures Queue(nodeIPs, h) == OnHost(addresses[..i + 1], h) {
        OnHostSnoc(addresses[..i], addr, h);
        assert Queue(was, h) == OnHost(addresses[..i], h);
      }
    }
    assert addresses[..|addresses|] == addresses;
    forall h ensures h in nodeIPs <==> h in HostSet(addresses) {
      OnHostLoad(addresses, h);
      LoadPositive(addresses, h);
      assert Queue(nodeIPs, h) == OnHost(addresses, h);
    }
  }

  predicate Sorted(s: seq<string>) {
    forall i, j :: 0 <= i < j < |s| ==> Le(s[i], s[j])
  }

  /** `sort.Strings`, as an insertion sort. */
  function SortStrings(s: seq<string>): (r: seq<string>)
    ensures multiset(r) == multiset(s) && |r| == |s|
  {
    if s == [] then [] else
    assert s == s[..|s| - 1] + [s[|s| - 1]];
    InsertString(SortStrings(s[..|s| - 1]), s[|s| - 1])
  }

  function InsertString(s: seq<string>, x: string): (r: seq<string>)
    ensures multiset(r) == multiset(s) + multiset{x} && |r| == |s| + 1
  {
    if s == [] || !Le(s[|s| - 1], x) then
      if s == [] then [x] else
      assert s == s[..|s| - 1] + [s[|s| - 1]];
      InsertString(s[..|s| - 1], x) + [s[|s| - 1]]
    else s + [x]
  }

  lemma {:induction false} InsertStringSorted(s: seq<string>, x: string)
    requires Sorted(s)
    ensures Sorted(InsertString(s, x))
  {
    hide Le;
    if s != [] {
      var init, last := s[..|s| - 1], s[|s| - 1];
      if Le(last, x) {
        forall i | 0 <= i < |s| ensures Le(s[i], x) {
          if i < |s| - 1 { LeTransitive(s[i], last, x); }
        }
      } else {
        InsertStringSorted(init, x);
        LeTotal(last, x);
        var r := InsertString(init, x);
        forall i | 0 <= i < |r| ensures Le(r[i], last) {
          assert r[i] in multiset(init) + multiset{x};
        }
      }
    }
  }

  lemma {:induction false} SortStringsSorted(s: seq<string>)
    ensures Sorted(SortStrings(s))
  {
    if s != [] {
      SortStringsSorted(s[..|s| - 1]);
      InsertStringSorted(SortStrings(s[..|s| - 1]), s[|s| - 1]);
    }
  }

  /** The keys of the map in increasing order, whatever order they are enumerated in. */
  method SortedKeys(nodeIPs: map<string, seq<Address>>) returns (sortedKeys: seq<string>)
    ensures StrictlySorted(sortedKeys)
    ensures forall k :: k in sortedKeys <==> k in nodeIPs
  {
    sortedKeys := [];
    var todo := nodeIPs.Keys;
    while todo != {}
      invariant forall k :: k in nodeIPs <==> k in sortedKeys || k in todo
      invariant forall i :: 0 <= i < |sortedKeys| ==> sortedKeys[i] !in todo
      invariant Distinct(sortedKeys)
      decreases todo
    {
      var k :| k in todo;
      sortedKeys := sortedKeys + [k];
      todo := todo - {k};
    }
    ghost var keys := sortedKeys;
    sortedKeys := SortStrings(sortedKeys);
    SortStringsSorted(keys);
    DistinctPermutation(keys, sortedKeys);
    forall k ensures k in sortedKeys <==> k in nodeIPs {
      assert k in sortedKeys <==> k in multiset(keys);
    }
  }

  /** The state of the draining loops: `done` hosts have had their turn in this round. */
  ghost predicate Draining(addresses: seq<Address>, taken: seq<Address>,
                           nodeIPs: map<string, seq<Address>>, round: nat, done: seq<string>) {
    && Ordered(taken)
    && (forall h :: OnHost(taken, h) + Queue(nodeIPs, h) == OnHost(addresses, h))
    && (forall h :: Load(taken, h) == Min(if h in done then round + 1 else round, Load(addresses, h)))
    && (forall i :: 0 <= i < |taken| ==>
          Round(taken, i) < round || (Round(taken, i) == round && taken[i].node in done))
  }

  /** Appending an address whose turn comes after all others. */
  lemma AppendOrdered(s: seq<Address>, a: Address)
    requires Ordered(s)
    requires forall i :: 0 <= i < |s| ==> Before(Round(s, i), s[i].node, Load(s, a.node), a.node)
    ensures Ordered(s + [a])
    ensures Round(s + [a], |s|) == Load(s, a.node)
    ensures forall i :: 0 <= i < |s| ==> Round(s + [a], i) == Round(s, i)
  {
    hide Load, Before;
    assert (s + [a])[..|s|] == s;
    forall i | 0 <= i < |s| ensures Round(s + [a], i) == Round(s, i) {
      assert (s + [a])[..i] == s[..i];
    }
  }

  lemma QueueLength(addresses: seq<Address>, taken: seq<Address>, nodeIPs: map<string, seq<Address>>, h: string)
    requires OnHost(taken, h) + Queue(nodeIPs, h) == OnHost(addresses, h)
    ensures |Queue(nodeIPs, h)| == Load(addresses, h) - Load(taken, h)
  {
    hide OnHost, Load;
    OnHostLoad(taken, h);
    OnHostLoad(addresses, h);
  }

  lemma {:induction false} OnHostNodes(s: seq<Address>, h: string)
    ensures forall a :: a in OnHost(s, h) ==> a.node == h
  {
    if s != [] {
      OnHostNodes(s[..|s| - 1], h);
    }
  }

  /** The address of the next key comes after all turns so far. */
  lemma TakeTurn(addresses: seq<Address>, taken: seq<Address>, nodeIPs: map<string, seq<Address>>,
                 round: nat, keys: seq<string>, j: nat, a: Address)
    requires StrictlySorted(keys) && j < |keys| && a.node == keys[j] && Load(taken, a.node) == round
    requires Draining(addresses, taken, nodeIPs, round, keys[..j])
    ensures Ordered(taken + [a])
    ensures forall i :: 0 <= i < |taken + [a]| ==>
      var t := taken + [a];
      Round(t, i) < round || (Round(t, i) == round && t[i].node in keys[..j + 1])
  {
    hide OnHost, Load, Le, Ordered, Round;
    assert keys[..j + 1] == keys[..j] + [a.node];
    AppendOrdered(taken, a);
  }

  /** Taking the head of a queue moves it from the queue to what is taken, and no other host changes. */
  lemma TakeFromQueue(addresses: seq<Address>, taken: seq<Address>, nodeIPs: map<string, seq<Address>>, key: string,
                      h: string)
    requires key in nodeIPs && nodeIPs[key] != [] && nodeIPs[key][0].node == key
    requires OnHost(taken, h) + Queue(nodeIPs, h) == OnHost(addresses, h)
    ensures var a := nodeIPs[key][0];
            && OnHost(taken + [a], h) + Queue(nodeIPs[key := nodeIPs[key][1..]], h) == OnHost(addresses, h)
            && Load(taken + [a], h) == Load(taken, h) + if h == key then 1 else 0
  {
    hide OnHost, Load;
    var a := nodeIPs[key][0];
    OnHostSnoc(taken, a, h);
    LoadSnoc(taken, a, h);
    assert nodeIPs[key] == [a] + nodeIPs[key][1..];
  }

  lemma NextKeyIsNew(keys: seq<string>, j: nat)
    requires StrictlySorted(keys) && j < |keys|
    ensures keys[j] !in keys[..j] && keys[..j + 1] == keys[..j] + [keys[j]]
  {
  }

  /** Taking the head of the queue of the next key. */
  lemma TakeHead(addresses: seq<Address>, taken: seq<Address>, nodeIPs: map<string, seq<Address>>,
                 round: nat, keys: seq<string>, j: nat)
    requires StrictlySorted(keys) && j < |keys| && keys[j] in nodeIPs && nodeIPs[keys[j]] != []
    requires Draining(addresses, taken, nodeIPs, round, keys[..j])
    ensures Draining(addresses, taken + [nodeIPs[keys[j]][0]],
                     nodeIPs[keys[j] := nodeIPs[keys[j]][1..]], round, keys[..j + 1])
    ensures |taken| < |addresses|
  {
    hide OnHost, Load, Le, Ordered, Round, StrictlySorted;
    var key := keys[j];
    var a := nodeIPs[key][0];
    OnHostNodes(addresses, key);
    assert a in OnHost(taken, key) + Queue(nodeIPs, key);
    NextKeyIsNew(keys, j);
    QueueLength(addresses, taken, nodeIPs, key);
    assert Load(taken, key) == round < Load(addresses, key);
    LoadsBoundLength(taken, addresses);
    TakeTurn(addresses, taken, nodeIPs, round, keys, j, a);
    forall h {
      TakeFromQueue(addresses, taken, nodeIPs, key, h);
    }
  }

  /** A drained queue passes its turn. */
  lemma SkipEmpty(addresses: seq<Address>, taken: seq<Address>, nodeIPs: map<string, seq<Address>>,
                  round: nat, keys: seq<string>, j: nat)
    requires j < |keys| && Queue(nodeIPs, keys[j]) == []
    requires Draining(addresses, taken, nodeIPs, round, keys[..j])
    ensures Draining(addresses, taken, nodeIPs, round, keys[..j + 1])
  {
    hide OnHost, Load, Ordered, Round;
    QueueLength(addresses, taken, nodeIPs, keys[j]);
    assert keys[..j + 1] == keys[..j] + [keys[j]];
  }

  /** After every key has had its turn the next round begins. */
  lemma NextRound(addresses: seq<Address>, taken: seq<Address>, nodeIPs: map<string, seq<Address>>,
                  round: nat, keys: seq<string>)
    requires forall k :: k in keys <==> k in HostSet(addresses)
    requires Draining(addresses, taken, nodeIPs, round, keys)
    ensures Draining(addresses, taken, nodeIPs, round + 1, [])
  {
    hide OnHost, Load, Ordered, Round, HostSet;
    forall h ensures Load(taken, h) == Min(round + 1, Load(addresses, h)) {
      LoadPositive(addresses, h);
    }
  }

  /** Everything is taken exactly when every queue is empty. */
  lemma AllTaken(addresses: seq<Address>, taken: seq<Address>, nodeIPs: map<string, seq<Address>>,
                 round: nat, done: seq<string>)
    requires Draining(addresses, taken, nodeIPs, round, done)
    ensures |taken| <= |addresses|
    ensures |taken| == |addresses| <==> forall h :: Queue(nodeIPs, h) == []
  {
    hide OnHost, Load, Ordered, Round;
    LoadsBoundLength(taken, addresses);
    if |taken| == |addresses| {
      forall h ensures Queue(nodeIPs, h) == [] {
        QueueLength(addresses, taken, nodeIPs, h);
      }
    }
    if forall h :: Queue(nodeIPs, h) == [] {
      forall h ensures Load(addresses, h) <= Load(taken, h) {
        QueueLength(addresses, taken, nodeIPs, h);
      }
      LoadsBoundLength(addresses, taken);
    }
  }

  /** The flag-controlled nested loop: it stops, and what it built is the closed form. */
  method Interleave(addresses: seq<Address>) returns (interleaved: seq<Address>)
    requires addresses != []
    ensures interleaved == RoundRobin(addresses)
  {
    hide OnHost, Load, Ordered, Round, HostSet, StrictlySorted, Draining;
    var nodeIPs := GroupByNode(addresses);
    var sortedKeys := SortedKeys(nodeIPs);
    var nodesCount := |addresses|;
    interleaved := [];
    var isLoop := true;
    ghost var round := 0;
    StartDraining(addresses, nodeIPs);
    NonEmptyKeys(addresses, sortedKeys);
    while isLoop
      invariant Draining(addresses, interleaved, nodeIPs, round, [])
      invariant nodeIPs.Keys == HostSet(addresses)
      invariant |interleaved| <= nodesCount
      invariant !isLoop ==> |interleaved| == nodesCount
      decreases nodesCount - |interleaved|, isLoop
    {
      ghost var before := |interleaved|;
      for j := 0 to |sortedKeys|
        invariant Draining(addresses, interleaved, nodeIPs, round, sortedKeys[..j])
        invariant nodeIPs.Keys == HostSet(addresses)
        invariant before <= |interleaved| <= nodesCount
        invariant before == |interleaved| ==> forall i :: 0 <= i < j ==> Queue(nodeIPs, sortedKeys[i]) == []
        invariant before == nodesCount && 0 < j ==> !isLoop
        invariant !isLoop ==> |interleaved| == nodesCount
      {
        var key := sortedKeys[j];
        assert key in sortedKeys;
        AllTaken(addresses, interleaved, nodeIPs, round, sortedKeys[..j]);
        if |nodeIPs[key]| == 0 {
          SkipEmpty(addresses, interleaved, nodeIPs, round, sortedKeys, j);
          if |interleaved| == nodesCount {
            isLoop := false;
          }
        } else {
          TakeHead(addresses, interleaved, nodeIPs, round, sortedKeys, j);
          assert Queue(nodeIPs, key) != [];
          interleaved := interleaved + [nodeIPs[key][0]];
          nodeIPs := nodeIPs[key := nodeIPs[key][1..]];
        }
      }
      assert sortedKeys[..|sortedKeys|] == sortedKeys;
      if before == |interleaved| {
        forall h ensures Queue(nodeIPs, h) == [] {
          assert h in nodeIPs ==> h in sortedKeys;
        }
      }
      AllTaken(addresses, interleaved, nodeIPs, round, sortedKeys);
      NextRound(addresses, interleaved, nodeIPs, round, sortedKeys);
      round := round + 1;
    }
    Drained(addresses, interleaved, nodeIPs, round);
    InterleavingIsRoundRobin(interleaved, addresses);
  }

  lemma StartDraining(addresses: seq<Address>, nodeIPs: map<string, seq<Address>>)
    requires forall h :: Queue(nodeIPs, h) == OnHost(addresses, h)
    ensures Draining(addresses, [], nodeIPs, 0, [])
  {
    hide Ordered;
    EmptyOrdered();
  }

  lemma NonEmptyKeys(addresses: seq<Address>, keys: seq<string>)
    requires addresses != [] && forall k :: k in keys <==> k in HostSet(addresses)
    ensures keys != []
  {
    assert Nodes(addresses)[0] in HostSet(addresses);
  }

  lemma Drained(addresses: seq<Address>, taken: seq<Address>, nodeIPs: map<string, seq<Address>>, round: nat)
    requires Draining(addresses, taken, nodeIPs, round, []) && |taken| == |addresses|
    ensures IsInterleaving(taken, addresses)
  {
    hide OnHost, Load, Ordered, Round;
    AllTaken(addresses, taken, nodeIPs, round, []);
    forall h ensures OnHost(taken, h) == OnHost(addresses, h) {
      assert OnHost(taken, h) + Queue(nodeIPs, h) == OnHost(addresses, h);
    }
  }
}
