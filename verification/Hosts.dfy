/** Endpoint addresses and how they are spread over hosts. */
module Hosts {

  /** A pod address: its IP and the Kubernetes node (host) that runs it. */
  datatype Address = Address(ip: string, node: string)

  function Nodes(s: seq<Address>): (r: seq<string>)
    ensures |r| == |s|
    ensures forall i :: 0 <= i < |s| ==> r[i] == s[i].node
  {
    seq(|s|, i requires 0 <= i < |s| => s[i].node)
  }

  function Ips(s: seq<Address>): (r: seq<string>)
    ensures |r| == |s|
    ensures forall i :: 0 <= i < |s| ==> r[i] == s[i].ip
  {
    seq(|s|, i requires 0 <= i < |s| => s[i].ip)
  }

  /** The number of addresses of s on host h. */
  function Load(s: seq<Address>, h: string): nat {
    if s == [] then 0
    else Load(s[..|s| - 1], h) + if s[|s| - 1].node == h then 1 else 0
  }

  /** The addresses of s on host h, in order. */
  function OnHost(s: seq<Address>, h: string): seq<Address> {
    if s == [] then []
    else OnHost(s[..|s| - 1], h) + if s[|s| - 1].node == h then [s[|s| - 1]] else []
  }

  function HostSet(s: seq<Address>): set<string> {
    set h | h in Nodes(s)
  }

  lemma {:induction false} LoadSnoc(s: seq<Address>, a: Address, h: string)
    ensures Load(s + [a], h) == Load(s, h) + if a.node == h then 1 else 0
  {
    assert (s + [a])[..|s|] == s;
  }

  lemma {:induction false} LoadConcat(s: seq<Address>, t: seq<Address>, h: string)
    ensures Load(s + t, h) == Load(s, h) + Load(t, h)
  {
    if t == [] {
      assert s + t == s;
    } else {
      var t', a := t[..|t| - 1], t[|t| - 1];
      assert s + t == (s + t') + [a];
      LoadConcat(s, t', h);
      LoadSnoc(s + t', a, h);
    }
  }

  lemma {:induction false} OnHostSnoc(s: seq<Address>, a: Address, h: string)
    ensures OnHost(s + [a], h) == OnHost(s, h) + if a.node == h then [a] else []
  {
    assert (s + [a])[..|s|] == s;
  }

  lemma {:induction false} OnHostConcat(s: seq<Address>, t: seq<Address>, h: string)
    ensures OnHost(s + t, h) == OnHost(s, h) + OnHost(t, h)
  {
    if t == [] {
      assert s + t == s;
    } else {
      var t', a := t[..|t| - 1], t[|t| - 1];
      assert s + t == (s + t') + [a];
      OnHostConcat(s, t', h);
      OnHostSnoc(s + t', a, h);
    }
  }

  lemma {:induction false} OnHostLoad(s: seq<Address>, h: string)
    ensures |OnHost(s, h)| == Load(s, h)
  {
    if s != [] {
      OnHostLoad(s[..|s| - 1], h);
    }
  }

  lemma LoadPrefix(s: seq<Address>, i: nat, j: nat, h: string)
    requires i <= j <= |s|
    ensures Load(s[..i], h) <= Load(s[..j], h) <= Load(s, h)
  {
    assert s[..j] == s[..i] + s[i..j];
    LoadConcat(s[..i], s[i..j], h);
    assert s == s[..j] + s[j..];
    LoadConcat(s[..j], s[j..], h);
  }

  /** The load of a host is its multiplicity among the host names. */
  lemma {:induction false} LoadIsMultiplicity(s: seq<Address>, h: string)
    ensures Load(s, h) == multiset(Nodes(s))[h]
  {
    if s == [] {
      assert Nodes(s) == [];
    } else {
      LoadIsMultiplicity(s[..|s| - 1], h);
      assert Nodes(s) == Nodes(s[..|s| - 1]) + [s[|s| - 1].node];
    }
  }

  lemma LoadPositive(s: seq<Address>, h: string)
    ensures Load(s, h) > 0 <==> h in HostSet(s)
  {
    LoadIsMultiplicity(s, h);
  }

  lemma NoLoad(s: seq<Address>, h: string)
    requires forall i :: 0 <= i < |s| ==> s[i].node != h
    ensures Load(s, h) == 0 && OnHost(s, h) == []
  {
    LoadPositive(s, h);
    OnHostLoad(s, h);
  }

  /** Dominated loads bound the number of addresses. */
  lemma LoadsBoundLength(s: seq<Address>, t: seq<Address>)
    requires forall h :: Load(s, h) <= Load(t, h)
    ensures |s| <= |t|
    ensures (exists h :: Load(s, h) < Load(t, h)) ==> |s| < |t|
  {
    var a, b := multiset(Nodes(s)), multiset(Nodes(t));
    forall h ensures a[h] == Load(s, h) <= Load(t, h) == b[h] {
      LoadIsMultiplicity(s, h);
      LoadIsMultiplicity(t, h);
    }
    assert a <= b;
    assert |b - a| == |b| - |a|;
    if h :| Load(s, h) < Load(t, h) {
      assert (b - a)[h] > 0;
      assert h in b - a;
    }
  }

  /** Choosing addresses from t cannot load a host more than t does. */
  lemma {:induction false} ChoiceLoad(s: seq<Address>, t: seq<Address>, h: string)
    requires multiset(s) <= multiset(t)
    ensures Load(s, h) <= Load(t, h)
  {
    if s != [] {
      var s', a := s[..|s| - 1], s[|s| - 1];
      assert s == s' + [a];
      assert a in multiset(s);
      assert a in t;
      var j :| 0 <= j < |t| && t[j] == a;
      var t' := t[..j] + t[j + 1..];
      assert t == t[..j] + [a] + t[j + 1..];
      assert multiset(t) == multiset(t') + multiset{a};
      assert multiset(s) == multiset(s') + multiset{a};
      forall x ensures multiset(s')[x] <= multiset(t')[x] {
        assert multiset(s)[x] <= multiset(t)[x];
      }
      ChoiceLoad(s', t', h);
      LoadSnoc(s', a, h);
      LoadConcat(t[..j], t[j + 1..], h);
      LoadConcat(t[..j] + [a], t[j + 1..], h);
      LoadSnoc(t[..j], a, h);
    }
  }

  lemma HostSetConcat(s: seq<Address>, t: seq<Address>)
    ensures HostSet(s + t) == HostSet(s) + HostSet(t)
  {
    assert Nodes(s + t) == Nodes(s) + Nodes(t);
  }

  lemma {:induction false} HostSetSize(s: seq<Address>)
    ensures |HostSet(s)| <= |s|
  {
    if s != [] {
      var s', a := s[..|s| - 1], s[|s| - 1];
      assert s == s' + [a];
      HostSetSize(s');
      assert Nodes(s) == Nodes(s') + [a.node];
      assert HostSet(s) == HostSet(s') + {a.node};
    }
  }

  lemma SubsetSize<T>(a: set<T>, b: set<T>)
    requires a <= b
    ensures |a| <= |b|
    ensures |b - a| == |b| - |a|
  {
    assert b == a + (b - a);
  }
}
