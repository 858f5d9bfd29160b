/** How evenly a prefix of the interleaving, such as the masters, is spread over the hosts. */
module Spread {
  import opened Counting
  import opened Strings
  import opened Hosts
  import opened Interleaving

  /** Every host carries at most `cap` of these addresses. */
  ghost predicate FitsWithin(s: seq<Address>, cap: nat) {
    forall h :: Load(s, h) <= cap
  }

  /** A choice of addresses out of a pool. */
  ghost predicate Choice(s: seq<Address>, pool: seq<Address>) {
    multiset(s) <= multiset(pool)
  }

  /** The last turn host h took within the first k. */
  lemma {:induction false} LastTurn(s: seq<Address>, k: nat, h: string) returns (j: nat)
    requires k <= |s| && Load(s[..k], h) > 0
    ensures j < k && s[j].node == h && Round(s, j) == Load(s[..k], h) - 1
  {
    assert s[..0] == [];
    if k > 0 {
      assert s[..k] == s[..k - 1] + [s[k - 1]];
      LoadSnoc(s[..k - 1], s[k - 1], h);
      if s[k - 1].node == h {
        j := k - 1;
      } else {
        j := LastTurn(s, k - 1, h);
      }
    }
  }

  /** In every prefix no host is two ahead of a host that still has addresses waiting. */
  lemma PrefixBalanced(s: seq<Address>, k: nat, g: string, h: string)
    requires Ordered(s) && k <= |s|
    requires Load(s[..k], g) < Load(s, g)
    ensures Load(s[..k], h) <= Load(s[..k], g) + 1
  {
    hide Load, Lt, Le;
    if Load(s[..k], h) > 0 {
      var j := LastTurn(s, k, h);
      var n := NextTurn(s, k, g);
      assert Before(Round(s, j), s[j].node, Round(s, n), s[n].node);
    }
  }

  lemma PrefixOfInterleaving(s: seq<Address>, addrs: seq<Address>, k: nat, h: string)
    requires SamePerHost(s, addrs) && k <= |s|
    ensures Load(s[..k], h) <= Load(s, h) == Load(addrs, h)
  {
    hide Load, SamePerHost;
    SamePerHostLoads(s, addrs);
    LoadPrefix(s, 0, k, h);
  }

  /** Minimax: no other choice of as many addresses has a smaller maximum load, for every prefix of
      the interleaving. */
  lemma PrefixMinimizesMaxLoad(s: seq<Address>, addrs: seq<Address>, k: nat, other: seq<Address>, cap: nat)
    requires IsInterleaving(s, addrs) && k <= |s|
    requires Choice(other, addrs) && |other| == k && FitsWithin(other, cap)
    ensures FitsWithin(s[..k], cap)
  {
    hide Load, Ordered, SamePerHost;
    forall h ensures Load(s[..k], h) <= cap {
      if Load(s[..k], h) > cap {
        forall g ensures Load(other, g) <= Load(s[..k], g) {
          ChoiceLoad(other, addrs, g);
          PrefixOfInterleaving(s, addrs, k, g);
          if Load(s[..k], g) < Load(s, g) {
            PrefixBalanced(s, k, g, h);
          }
        }
        LoadsBoundLength(other, s[..k]);
      }
    }
  }

  /** Addresses that each sit on a host of their own are as many as their hosts. */
  lemma {:induction false} SingleLoads(s: seq<Address>)
    requires forall h :: Load(s, h) <= 1
    ensures |HostSet(s)| == |s|
  {
    if s != [] {
      var init, a := s[..|s| - 1], s[|s| - 1];
      assert s == init + [a];
      forall h ensures Load(init, h) <= 1 && (h == a.node ==> Load(init, h) == 0) {
        LoadSnoc(init, a, h);
      }
      SingleLoads(init);
      LoadPositive(init, a.node);
      assert Nodes(s) == Nodes(init) + [a.node];
      assert HostSet(s) == HostSet(init) + {a.node};
    }
  }

  /** The first k addresses cover min(k, number of hosts) hosts, which is the most k can cover. */
  lemma PrefixCoverage(s: seq<Address>, addrs: seq<Address>, k: nat)
    requires IsInterleaving(s, addrs) && k <= |s|
    ensures |HostSet(s[..k])| == Min(k, |HostSet(addrs)|)
    ensures forall other :: Choice(other, addrs) && |other| == k ==> |HostSet(other)| <= |HostSet(s[..k])|
  {
    hide Load, Ordered, SamePerHost, HostSet;
    forall h ensures h in HostSet(s[..k]) ==> h in HostSet(addrs) {
      PrefixOfInterleaving(s, addrs, k, h);
      LoadPositive(s[..k], h);
      LoadPositive(addrs, h);
    }
    SubsetSize(HostSet(s[..k]), HostSet(addrs));
    HostSetSize(s[..k]);
    if g :| g in HostSet(addrs) && g !in HostSet(s[..k]) {
      PrefixOfInterleaving(s, addrs, k, g);
      LoadPositive(s[..k], g);
      LoadPositive(addrs, g);
      forall h ensures Load(s[..k], h) <= 1 {
        PrefixBalanced(s, k, g, h);
      }
      SingleLoads(s[..k]);
    } else {
      assert HostSet(s[..k]) == HostSet(addrs);
    }
    forall other | Choice(other, addrs) && |other| == k
      ensures |HostSet(other)| <= |HostSet(s[..k])|
    {
      ChoiceHosts(other, addrs);
      HostSetSize(other);
      SubsetSize(HostSet(other), HostSet(addrs));
    }
  }

  lemma ChoiceHosts(s: seq<Address>, pool: seq<Address>)
    requires Choice(s, pool)
    ensures HostSet(s) <= HostSet(pool)
  {
    hide Load, HostSet;
    forall h | h in HostSet(s) ensures h in HostSet(pool) {
      ChoiceLoad(s, pool, h);
      LoadPositive(s, h);
      LoadPositive(pool, h);
    }
  }
}
