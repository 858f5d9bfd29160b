/** The round-robin interleaving of addresses over hosts, which both planners run before they
    hand out roles: take one address from each host, in key order, until every host is drained. */
module Interleaving {
  import opened Strings
  import opened Hosts

  /** How many earlier addresses of s share the host of address i. */
  function Round(s: seq<Address>, i: nat): nat
    requires i < |s|
  {
    Load(s[..i], s[i].node)
  }

  /** The order of turns: by round, then by host key. */
  predicate Before(r: nat, h: string, r': nat, h': string) {
    r < r' || (r == r' && Lt(h, h'))
  }

  ghost predicate Ordered(s: seq<Address>) {
    forall i, j :: 0 <= i < j < |s| ==> Before(Round(s, i), s[i].node, Round(s, j), s[j].node)
  }

  ghost predicate SamePerHost(s: seq<Address>, t: seq<Address>) {
    forall h :: OnHost(s, h) == OnHost(t, h)
  }

  /** s lists exactly the addresses of t, each host's in the order of t, by (round, host key). */
  ghost predicate IsInterleaving(s: seq<Address>, t: seq<Address>) {
    SamePerHost(s, t) && Ordered(s)
  }

  // ---------- the closed form: insert each address at the place of its (round, key) ----------

  /** The number of leading addresses of s whose turn is before turn (r, h). */
  function Place(s: seq<Address>, r: nat, h: string, i: nat): (p: nat)
    requires i <= |s|
    ensures i <= p <= |s|
    decreases |s| - i
  {
    if i < |s| && Before(Round(s, i), s[i].node, r, h) then Place(s, r, h, i + 1) else i
  }

  /** The first p turns of s, and no more, are before turn (r, h). */
  ghost predicate Splits(s: seq<Address>, r: nat, h: string, p: nat) {
    && p <= |s|
    && (forall k :: 0 <= k < p ==> Before(Round(s, k), s[k].node, r, h))
    && (p < |s| ==> !Before(Round(s, p), s[p].node, r, h))
  }

  lemma {:induction false} PlaceSplits(s: seq<Address>, r: nat, h: string, i: nat)
    requires i <= |s|
    requires forall k :: 0 <= k < i ==> Before(Round(s, k), s[k].node, r, h)
    ensures Splits(s, r, h, Place(s, r, h, i))
    decreases |s| - i
  {
    hide Load, Lt, Le, Before, Round;
    if i < |s| && Before(Round(s, i), s[i].node, r, h) {
      PlaceSplits(s, r, h, i + 1);
    }
  }

  /** The addresses ordered by (round, host key), a stable insertion sort. */
  function RoundRobin(addrs: seq<Address>): seq<Address> {
    if addrs == [] then []
    else
      var s, a := RoundRobin(addrs[..|addrs| - 1]), addrs[|addrs| - 1];
      Insert(s, a, Place(s, Load(s, a.node), a.node, 0))
  }

  function Insert(s: seq<Address>, a: Address, p: nat): (t: seq<Address>)
    requires p <= |s|
    ensures |t| == |s| + 1 && t[p] == a
    ensures forall k :: 0 <= k < p ==> t[k] == s[k]
    ensures forall k :: p <= k < |s| ==> t[k + 1] == s[k]
  {
    s[..p] + [a] + s[p..]
  }

  lemma InsertPermutes(s: seq<Address>, a: Address, p: nat)
    requires p <= |s|
    ensures multiset(Insert(s, a, p)) == multiset(s) + multiset{a}
  {
    assert s == s[..p] + s[p..];
  }

  /** An address inserted after all others of its host comes last in its host's list. */
  lemma InsertOnHost(s: seq<Address>, a: Address, p: nat, h: string)
    requires p <= |s| && forall j :: p <= j < |s| ==> s[j].node != a.node
    ensures OnHost(Insert(s, a, p), h) == OnHost(s, h) + if h == a.node then [a] else []
  {
    hide OnHost, Load;
    OnHostConcat(s[..p] + [a], s[p..], h);
    OnHostSnoc(s[..p], a, h);
    OnHostConcat(s[..p], s[p..], h);
    assert s == s[..p] + s[p..];
    if h == a.node {
      NoLoad(s[p..], h);
    }
  }

  lemma BeforeTotal(r: nat, h: string, r': nat, h': string)
    ensures Before(r, h, r', h') || Before(r', h', r, h) || (r == r' && h == h')
  {
    LtTrichotomy(h, h');
  }

  lemma BeforeTransitive(r: nat, h: string, r': nat, h': string, r'': nat, h'': string)
    requires Before(r, h, r', h') && Before(r', h', r'', h'')
    ensures Before(r, h, r'', h'')
  {
    if Lt(h, h') && Lt(h', h'') {
      LtTransitive(h, h', h'');
    }
  }

  /** No address from the insertion point on shares the host of the inserted one. */
  lemma InsertBeyondHost(s: seq<Address>, a: Address, p: nat, j: nat)
    requires Ordered(s) && Splits(s, Load(s, a.node), a.node, p)
    requires p <= j < |s|
    ensures s[j].node != a.node
  {
    hide Load, OnHost, Lt, Le;
    var r := Load(s, a.node);
    if s[j].node == a.node {
      LoadPrefix(s, j + 1, |s|, a.node);
      assert s[..|s|] == s;
      assert s[..j + 1] == s[..j] + [s[j]];
      LoadSnoc(s[..j], s[j], a.node);
      BeforeTotal(Round(s, p), s[p].node, r, a.node);
    }
  }

  lemma InsertRound(s: seq<Address>, a: Address, p: nat)
    requires p <= |s| && forall j :: p <= j < |s| ==> s[j].node != a.node
    ensures Round(Insert(s, a, p), p) == Load(s, a.node)
  {
    hide Load, OnHost;
    assert Insert(s, a, p)[..p] == s[..p];
    assert s == s[..p] + s[p..];
    LoadConcat(s[..p], s[p..], a.node);
    NoLoad(s[p..], a.node);
  }

  lemma ShiftedRound(s: seq<Address>, a: Address, p: nat, k: nat)
    requires p <= k < |s| && s[k].node != a.node
    ensures Round(Insert(s, a, p), k + 1) == Round(s, k)
  {
    hide Load, OnHost;
    var h := s[k].node;
    assert Insert(s, a, p)[..k + 1] == (s[..p] + [a]) + s[p..k];
    LoadConcat(s[..p] + [a], s[p..k], h);
    LoadSnoc(s[..p], a, h);
    assert s[..k] == s[..p] + s[p..k];
    LoadConcat(s[..p], s[p..k], h);
  }

  lemma EarlierRound(s: seq<Address>, a: Address, p: nat, k: nat)
    requires k < p <= |s|
    ensures Round(Insert(s, a, p), k) == Round(s, k)
  {
    hide Load;
    assert Insert(s, a, p)[..k] == s[..k];
  }

  /** Inserting the next address of its host at its place keeps the order. */
  lemma InsertOrdered(s: seq<Address>, a: Address, p: nat)
    requires Ordered(s) && Splits(s, Load(s, a.node), a.node, p)
    requires forall j :: p <= j < |s| ==> s[j].node != a.node
    ensures Ordered(Insert(s, a, p))
  {
    hide Load, OnHost, Before, Round, Insert;
    var r, t := Load(s, a.node), Insert(s, a, p);
    InsertRound(s, a, p);
    forall k | 0 <= k < |s|
      ensures k < p ==> Round(t, k) == Round(s, k)
      ensures p <= k ==> Round(t, k + 1) == Round(s, k) && Before(r, a.node, Round(s, k), s[k].node)
    {
      if k < p {
        EarlierRound(s, a, p, k);
      } else {
        ShiftedRound(s, a, p, k);
        BeforeTotal(r, a.node, Round(s, p), s[p].node);
        if p < k {
          BeforeTransitive(r, a.node, Round(s, p), s[p].node, Round(s, k), s[k].node);
        }
      }
    }
    forall i, j | 0 <= i < j < |t| ensures Before(Round(t, i), t[i].node, Round(t, j), t[j].node) {
      if i < p {
        assert Before(Round(s, i), s[i].node, r, a.node);
        assert j < p ==> Before(Round(s, i), s[i].node, Round(s, j), s[j].node);
        assert p < j ==> Before(Round(s, i), s[i].node, Round(s, j - 1), s[j - 1].node);
      } else if p < i {
        assert Before(Round(s, i - 1), s[i - 1].node, Round(s, j - 1), s[j - 1].node);
      } else {
        assert Before(r, a.node, Round(s, j - 1), s[j - 1].node);
      }
    }
  }

  /** Inserting one more address at its place extends an interleaving. */
  lemma InsertInterleaves(s: seq<Address>, init: seq<Address>, a: Address, p: nat)
    requires IsInterleaving(s, init) && Splits(s, Load(s, a.node), a.node, p)
    ensures IsInterleaving(Insert(s, a, p), init + [a])
  {
    hide Load, OnHost, Ordered, Insert, Round, Before;
    forall j | p <= j < |s| ensures s[j].node != a.node {
      InsertBeyondHost(s, a, p, j);
    }
    InsertOrdered(s, a, p);
    forall h ensures OnHost(Insert(s, a, p), h) == OnHost(init + [a], h) {
      InsertOnHost(s, a, p, h);
      OnHostSnoc(init, a, h);
      assert OnHost(s, h) == OnHost(init, h);
    }
  }

  /** The closed form is an interleaving of its input. */
  lemma {:induction false} RoundRobinInterleaves(addrs: seq<Address>)
    ensures IsInterleaving(RoundRobin(addrs), addrs)
    ensures multiset(RoundRobin(addrs)) == multiset(addrs)
    ensures |RoundRobin(addrs)| == |addrs|
  {
    hide Load, OnHost, Ordered, Place, Round, Insert, Splits, Before;
    if addrs == [] {
      EmptyOrdered();
    } else {
      var init, a := addrs[..|addrs| - 1], addrs[|addrs| - 1];
      RoundRobinInterleaves(init);
      var s := RoundRobin(init);
      var p := Place(s, Load(s, a.node), a.node, 0);
      PlaceSplits(s, Load(s, a.node), a.node, 0);
      InsertInterleaves(s, init, a, p);
      InsertPermutes(s, a, p);
      assert addrs == init + [a];
    }
  }

  lemma EmptyOrdered()
    ensures Ordered([])
  {
  }

  // ---------- an interleaving is determined by each host's list of addresses ----------

  lemma SamePerHostLoads(s: seq<Address>, t: seq<Address>)
    requires SamePerHost(s, t)
    ensures forall h :: Load(s, h) == Load(t, h)
    ensures |s| == |t|
  {
    forall h ensures Load(s, h) == Load(t, h) {
      OnHostLoad(s, h);
      OnHostLoad(t, h);
    }
    LoadsBoundLength(s, t);
    LoadsBoundLength(t, s);
  }

  /** A host with addresses left after position i takes its next turn there or later. */
  lemma {:induction false} NextTurn(s: seq<Address>, i: nat, h: string) returns (j: nat)
    requires i <= |s| && Load(s[..i], h) < Load(s, h)
    ensures i <= j < |s| && s[j].node == h && Round(s, j) == Load(s[..i], h)
    decreases |s| - i
  {
    assert s[..|s|] == s;
    if s[i].node == h {
      j := i;
    } else {
      assert s[..i + 1] == s[..i] + [s[i]];
      LoadSnoc(s[..i], s[i], h);
      j := NextTurn(s, i + 1, h);
    }
  }

  lemma TurnElement(s: seq<Address>, i: nat)
    requires i < |s|
    ensures Round(s, i) < |OnHost(s, s[i].node)|
    ensures OnHost(s, s[i].node)[Round(s, i)] == s[i]
  {
    var h := s[i].node;
    assert s == s[..i + 1] + s[i + 1..] && s[..i + 1] == s[..i] + [s[i]];
    OnHostConcat(s[..i + 1], s[i + 1..], h);
    OnHostSnoc(s[..i], s[i], h);
    OnHostLoad(s[..i], h);
  }

  /** Two interleavings of the same host lists take the same turn after the same prefix. */
  lemma SameTurn(s: seq<Address>, t: seq<Address>, i: nat)
    requires Ordered(s) && Ordered(t) && SamePerHost(s, t) && |s| == |t|
    requires i < |s| && s[..i] == t[..i]
    ensures s[i] == t[i]
  {
    var g, h := s[i].node, t[i].node;
    TurnElement(s, i);
    TurnElement(t, i);
    if g != h {
      OnHostLoad(s, h);
      OnHostLoad(t, g);
      assert OnHost(t, h) == OnHost(s, h) && OnHost(s, g) == OnHost(t, g);
      var j := NextTurn(s, i, h);
      var k := NextTurn(t, i, g);
      assert Before(Round(s, i), g, Round(s, j), h);
      assert Before(Round(t, i), h, Round(t, k), g);
      if Lt(g, h) {
        LtAsymmetric(g, h);
      }
    } else {
      assert OnHost(s, g) == OnHost(t, g);
    }
  }

  lemma {:induction false} InterleavingUnique(s: seq<Address>, t: seq<Address>, i: nat)
    requires Ordered(s) && Ordered(t) && SamePerHost(s, t)
    requires i <= |s| && i <= |t| && s[..i] == t[..i]
    ensures s == t
    decreases |s| - i
  {
    SamePerHostLoads(s, t);
    if i < |s| {
      SameTurn(s, t, i);
      assert s[..i + 1] == s[..i] + [s[i]] && t[..i + 1] == t[..i] + [t[i]];
      InterleavingUnique(s, t, i + 1);
    } else {
      assert s == s[..i] && t == t[..i];
    }
  }

  /** Any interleaving of addrs is the closed form. */
  lemma InterleavingIsRoundRobin(s: seq<Address>, addrs: seq<Address>)
    requires IsInterleaving(s, addrs)
    ensures s == RoundRobin(addrs)
  {
    RoundRobinInterleaves(addrs);
    var t := RoundRobin(addrs);
    forall h ensures OnHost(s, h) == OnHost(t, h) {
      assert OnHost(s, h) == OnHost(addrs, h) == OnHost(t, h);
    }
    InterleavingUnique(s, t, 0);
  }

  /** Reordering the input without changing any host's own order changes nothing. */
  lemma {:induction false} RoundRobinDetermined(a: seq<Address>, b: seq<Address>)
    requires SamePerHost(a, b)
    ensures RoundRobin(a) == RoundRobin(b)
  {
    RoundRobinInterleaves(a);
    var s := RoundRobin(a);
    forall h ensures OnHost(s, h) == OnHost(b, h) {
      assert OnHost(s, h) == OnHost(a, h) == OnHost(b, h);
    }
    InterleavingIsRoundRobin(s, b);
  }
}
