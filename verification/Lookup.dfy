/** Finding the node ids of IPs in a `cluster nodes` listing: by exact address in the repair and
    creation paths, by substring in the scale-up path. */
module Lookup {
  import opened Counting
  import opened Wrappers
  import opened Strings
  import opened ScalePlan
  import opened Topology

  /** The id on the first line from i on with exactly this address. */
  function FindExact(nodes: seq<NodeInfo>, ipPort: string, i: nat): Option<string>
    requires i <= |nodes|
    decreases |nodes| - i
  {
    if i == |nodes| then None
    else if nodes[i].ipPort == ipPort then Some(nodes[i].nodeId)
    else FindExact(nodes, ipPort, i + 1)
  }

  /** The id on the first line from i on whose address contains this IP. */
  function FindContaining(nodes: seq<NodeInfo>, ip: string, i: nat): Option<string>
    requires i <= |nodes|
    decreases |nodes| - i
  {
    if i == |nodes| then None
    else if Contains(nodes[i].ipPort, ip) then Some(nodes[i].nodeId)
    else FindContaining(nodes, ip, i + 1)
  }

  function Found(o: Option<string>): seq<string> {
    match o
    case None => []
    case Some(id) => [id]
  }

  function LookupExact(nodes: seq<NodeInfo>, ips: seq<string>): seq<string> {
    if ips == [] then []
    else LookupExact(nodes, ips[..|ips| - 1]) + Found(FindExact(nodes, ips[|ips| - 1] + PORT, 0))
  }

  function LookupBySubstring(nodes: seq<NodeInfo>, ips: seq<string>): seq<string> {
    if ips == [] then []
    else LookupBySubstring(nodes, ips[..|ips| - 1]) + Found(FindContaining(nodes, ips[|ips| - 1], 0))
  }

  /** The node ids of those IPs that are members, in order. */
  function IdsOf(idOf: string -> string, r: Roles, ips: seq<string>): seq<string> {
    if ips == [] then []
    else (if ips[0] in r.Members() then [idOf(ips[0])] else []) + IdsOf(idOf, r, ips[1..])
  }

  /** How a scale-up finds node ids: ideally, or by substring in some listing. */
  datatype Finding = Exactly | InListing(nodes: seq<NodeInfo>)

  function FindIds(how: Finding, idOf: string -> string, r: Roles, ips: seq<string>): seq<string> {
    match how
    case Exactly => IdsOf(idOf, r, ips)
    case InListing(nodes) => LookupBySubstring(nodes, ips)
  }

  /** The lookup loops of the creation and repair paths. */
  method FindNodeIds(nodeInfos: seq<NodeInfo>, ips: seq<string>) returns (ids: seq<string>)
    ensures ids == LookupExact(nodeInfos, ips)
  {
    ids := [];
    for i := 0 to |ips|
      invariant ids == LookupExact(nodeInfos, ips[..i])
    {
      assert ips[..i + 1][..i] == ips[..i];
      var j := 0;
      while j < |nodeInfos| && ips[i] + PORT != nodeInfos[j].ipPort
        invariant 0 <= j <= |nodeInfos|
        invariant FindExact(nodeInfos, ips[i] + PORT, 0) == FindExact(nodeInfos, ips[i] + PORT, j)
      {
        j := j + 1;
      }
      if j < |nodeInfos| {
        ids := ids + [nodeInfos[j].nodeId];
      }
    }
    assert ips[..|ips|] == ips;
  }

  /** The lookup loops of the scale-up path. */
  method FindNodeIdsBySubstring(nodeInfos: seq<NodeInfo>, ips: seq<string>) returns (ids: seq<string>)
    ensures ids == LookupBySubstring(nodeInfos, ips)
  {
    ids := [];
    for i := 0 to |ips|
      invariant ids == LookupBySubstring(nodeInfos, ips[..i])
    {
      assert ips[..i + 1][..i] == ips[..i];
      var j := 0;
      while j < |nodeInfos| && !Contains(nodeInfos[j].ipPort, ips[i])
        invariant 0 <= j <= |nodeInfos|
        invariant FindContaining(nodeInfos, ips[i], 0) == FindContaining(nodeInfos, ips[i], j)
      {
        j := j + 1;
      }
      if j < |nodeInfos| {
        ids := ids + [nodeInfos[j].nodeId];
      }
    }
    assert ips[..|ips|] == ips;
  }

  lemma {:induction false} FindExactIs(nodes: seq<NodeInfo>, ipPort: string, i: nat, k: nat)
    requires i <= k <= |nodes|
    requires forall j :: i <= j < k ==> nodes[j].ipPort != ipPort
    requires k < |nodes| ==> nodes[k].ipPort == ipPort
    ensures FindExact(nodes, ipPort, i) == if k < |nodes| then Some(nodes[k].nodeId) else None
    decreases k - i
  {
    if i < k {
      FindExactIs(nodes, ipPort, i + 1, k);
    }
  }

  lemma {:induction false} IdsOfSnoc(idOf: string -> string, r: Roles, ips: seq<string>, ip: string)
    ensures IdsOf(idOf, r, ips + [ip]) == IdsOf(idOf, r, ips) + if ip in r.Members() then [idOf(ip)] else []
    decreases |ips|
  {
    if ips == [] {
      assert ips + [ip] == [ip] && [ip][1..] == [];
    } else {
      assert (ips + [ip])[0] == ips[0] && (ips + [ip])[1..] == ips[1..] + [ip];
      IdsOfSnoc(idOf, r, ips[1..], ip);
    }
  }

  lemma LineAddress(idOf: string -> string, nodes: seq<NodeInfo>, r: Roles, i: nat)
    requires Lists(idOf, nodes, r) && i < |nodes|
    ensures nodes[i].ipPort == Ip(nodes[i]) + PORT && nodes[i].nodeId == idOf(Ip(nodes[i]))
    ensures Ip(nodes[i]) in r.Members()
  {
    hide Ip;
  }

  lemma MemberLine(idOf: string -> string, nodes: seq<NodeInfo>, r: Roles, ip: string) returns (i: nat)
    requires Lists(idOf, nodes, r) && ip in r.Members()
    ensures i < |nodes| && Ip(nodes[i]) == ip
    ensures forall j :: 0 <= j < |nodes| && j != i ==> Ip(nodes[j]) != ip
  {
    hide Ip;
    i :| 0 <= i < |nodes| && Ip(nodes[i]) == ip;
  }

  lemma SamePort(a: string, b: string)
    ensures a + PORT == b + PORT <==> a == b
  {
    if a + PORT == b + PORT {
      assert a == (a + PORT)[..|a + PORT| - |PORT|];
      assert b == (b + PORT)[..|b + PORT| - |PORT|];
    }
  }

  /** The exact lookup finds each member's id, and nothing for an IP outside the cluster. */
  lemma {:induction false} LookupExactIsIds(idOf: string -> string, nodes: seq<NodeInfo>, r: Roles, ips: seq<string>)
    requires Lists(idOf, nodes, r)
    ensures LookupExact(nodes, ips) == IdsOf(idOf, r, ips)
  {
    hide Lists, Ip, Roles.Members, FindExact;
    if ips != [] {
      var init, ip := ips[..|ips| - 1], ips[|ips| - 1];
      LookupExactIsIds(idOf, nodes, r, init);
      assert ips == init + [ip];
      IdsOfSnoc(idOf, r, init, ip);
      var k := |nodes|;
      if ip in r.Members() {
        k := MemberLine(idOf, nodes, r, ip);
        LineAddress(idOf, nodes, r, k);
      }
      forall j | 0 <= j < k ensures nodes[j].ipPort != ip + PORT {
        LineAddress(idOf, nodes, r, j);
        SamePort(Ip(nodes[j]), ip);
      }
      FindExactIs(nodes, ip + PORT, 0, k);
    }
  }

  lemma {:induction false} FindContainingIs(nodes: seq<NodeInfo>, ip: string, i: nat, k: nat)
    requires i <= k < |nodes|
    requires forall j :: i <= j < k ==> !Contains(nodes[j].ipPort, ip)
    requires Contains(nodes[k].ipPort, ip)
    ensures FindContaining(nodes, ip, i) == Some(nodes[k].nodeId)
    decreases k - i
  {
    hide Contains;
    if i < k {
      FindContainingIs(nodes, ip, i + 1, k);
    }
  }

  /** The substring lookup finds member k's id exactly when no earlier line's address contains its
      IP. */
  lemma SubstringLookupExact(idOf: string -> string, nodes: seq<NodeInfo>, r: Roles, k: nat)
    requires GoodIds(idOf) && Lists(idOf, nodes, r) && k < |nodes|
    ensures FindContaining(nodes, Ip(nodes[k]), 0) == Some(nodes[k].nodeId)
       <==> forall j :: 0 <= j < k ==> !Contains(nodes[j].ipPort, Ip(nodes[k]))
  {
    hide Contains, Ip, Roles.Members;
    var ip := Ip(nodes[k]);
    LineAddress(idOf, nodes, r, k);
    ContainsSelf(ip);
    var j := FirstContaining(nodes, ip, k);
    FindContainingIs(nodes, ip, 0, j);
    LineAddress(idOf, nodes, r, j);
  }

  lemma ContainsSelf(ip: string)
    ensures Contains(ip + PORT, ip)
  {
    assert ip <= ip + PORT;
  }

  lemma FirstContaining(nodes: seq<NodeInfo>, ip: string, k: nat) returns (j: nat)
    requires k < |nodes| && Contains(nodes[k].ipPort, ip)
    ensures j <= k && Contains(nodes[j].ipPort, ip)
    ensures forall i :: 0 <= i < j ==> !Contains(nodes[i].ipPort, ip)
  {
    hide Contains;
    j := 0;
    while !Contains(nodes[j].ipPort, ip)
      invariant j <= k
      invariant forall i :: 0 <= i < j ==> !Contains(nodes[i].ipPort, ip)
      decreases k - j
    {
      j := j + 1;
    }
  }

  /** Of these names, none but the IP itself has an address that contains one of these IPs. */
  ghost predicate ClearAmong(names: set<string>, ips: seq<string>) {
    forall m, a :: m in ips && a in names && a != m ==> !Contains(a + PORT, m)
  }

  /** Then the substring lookup is as good as the exact one, whatever order the listing comes in. */
  lemma {:induction false} SubstringLookupIsIds(idOf: string -> string, nodes: seq<NodeInfo>, r: Roles,
                                                ips: seq<string>)
    requires GoodIds(idOf) && Lists(idOf, nodes, r) && ClearAmong(r.Members(), ips)
    ensures LookupBySubstring(nodes, ips) == IdsOf(idOf, r, ips)
  {
    hide Lists, Ip, Roles.Members, FindContaining, Contains;
    if ips != [] {
      var init, ip := ips[..|ips| - 1], ips[|ips| - 1];
      assert ips == init + [ip];
      assert forall m :: m in init ==> m in ips;
      SubstringLookupIsIds(idOf, nodes, r, init);
      IdsOfSnoc(idOf, r, init, ip);
      forall j | 0 <= j < |nodes| && Ip(nodes[j]) != ip ensures !Contains(nodes[j].ipPort, ip) {
        LineAddress(idOf, nodes, r, j);
        assert ip in ips;
      }
      if ip in r.Members() {
        var k := MemberLine(idOf, nodes, r, ip);
        LineAddress(idOf, nodes, r, k);
        SubstringLookupExact(idOf, nodes, r, k);
      } else {
        forall j | 0 <= j < |nodes| ensures Ip(nodes[j]) != ip {
          LineAddress(idOf, nodes, r, j);
        }
        FindsNothing(nodes, ip, 0);
      }
    }
  }

  /** Of members, it finds one id each: what the first line containing the IP has. */
  lemma {:induction false} SubstringFindsEach(idOf: string -> string, nodes: seq<NodeInfo>, r: Roles,
                                              ips: seq<string>, i: nat)
    requires Lists(idOf, nodes, r) && IpSet(ips) <= r.Members() && i < |ips|
    ensures |LookupBySubstring(nodes, ips)| == |ips|
    ensures FindContaining(nodes, ips[i], 0) == Some(LookupBySubstring(nodes, ips)[i])
  {
    hide Lists, Ip, Roles.Members, FindContaining, Contains, IpSet;
    var init, ip := ips[..|ips| - 1], ips[|ips| - 1];
    assert ips == init + [ip];
    IpSetSnoc(init, ip);
    MemberFound(idOf, nodes, r, ip);
    if i < |init| {
      SubstringFindsEach(idOf, nodes, r, init, i);
    } else if init != [] {
      SubstringFindsEach(idOf, nodes, r, init, 0);
    }
  }

  lemma MemberFound(idOf: string -> string, nodes: seq<NodeInfo>, r: Roles, ip: string)
    requires Lists(idOf, nodes, r) && ip in r.Members()
    ensures FindContaining(nodes, ip, 0).Some?
  {
    hide Lists, Ip, Roles.Members, FindContaining, Contains;
    var k := MemberLine(idOf, nodes, r, ip);
    LineAddress(idOf, nodes, r, k);
    ContainsSelf(ip);
    var j := FirstContaining(nodes, ip, k);
    FindContainingIs(nodes, ip, 0, j);
  }

  lemma {:induction false} FindsNothing(nodes: seq<NodeInfo>, ip: string, i: nat)
    requires i <= |nodes| && forall j :: i <= j < |nodes| ==> !Contains(nodes[j].ipPort, ip)
    ensures FindContaining(nodes, ip, i) == None
    decreases |nodes| - i
  {
    hide Contains;
    if i < |nodes| {
      FindsNothing(nodes, ip, i + 1);
    }
  }

  // ---------- exactly when the substring lookup is right ----------

  /** A listing of the members in a given order. */
  function Listing(idOf: string -> string, r: Roles, order: seq<string>): seq<NodeInfo>
    requires forall i :: 0 <= i < |order| ==> order[i] in r.Members()
  {
    seq(|order|, i requires 0 <= i < |order| => Line(idOf, r, order[i]))
  }

  lemma ListingLists(idOf: string -> string, r: Roles, order: seq<string>)
    requires GoodRoles(r) && Distinct(order) && IpSet(order) == r.Members()
    requires forall i :: 0 <= i < |order| ==> order[i] in r.Members()
    ensures Lists(idOf, Listing(idOf, r, order), r)
  {
    hide Ip, Line, Roles.Members;
    var nodes := Listing(idOf, r, order);
    forall i | 0 <= i < |order| ensures Ip(nodes[i]) == order[i] {
      LineIp(idOf, r, order[i]);
    }
    forall ip | ip in r.Members() ensures ip in ListedIps(nodes) {
      assert ip in IpSet(order);
      var i :| 0 <= i < |order| && order[i] == ip;
      assert Ip(nodes[i]) == ip;
    }
  }

  lemma LineIp(idOf: string -> string, r: Roles, ip: string)
    requires GoodRoles(r) && ip in r.Members()
    ensures Ip(Line(idOf, r, ip)) == ip
  {
    BeforeColonOfIpPort(ip, PORT);
  }

  /** The elements of a set in some order. */
  lemma {:induction false} Enumerate(s: set<string>) returns (order: seq<string>)
    ensures Distinct(order) && IpSet(order) == s
    decreases s
  {
    order := [];
    if s == {} {
      EmptyIpSet();
    } else {
      var x :| x in s;
      var rest := Enumerate(s - {x});
      order := rest + [x];
      IpSetSnoc(rest, x);
      assert x !in rest by { InIpSet(rest, x); }
    }
  }

  /** Any member can come first in a listing. */
  lemma ListedFirst(idOf: string -> string, r: Roles, first: string) returns (nodes: seq<NodeInfo>)
    requires GoodRoles(r) && first in r.Members()
    ensures Lists(idOf, nodes, r) && nodes != [] && nodes[0] == Line(idOf, r, first)
  {
    hide Line, Lists, Distinct;
    var rest := Enumerate(r.Members() - {first});
    var order := [first] + rest;
    FirstDistinct(first, rest);
    forall i | 0 <= i < |order| ensures order[i] in r.Members() {
      assert order[i] in order;
      InIpSet(order, order[i]);
    }
    ListingLists(idOf, r, order);
    nodes := Listing(idOf, r, order);
  }

  lemma FirstDistinct(x: string, s: seq<string>)
    requires Distinct(s) && x !in IpSet(s)
    ensures Distinct([x] + s) && IpSet([x] + s) == {x} + IpSet(s)
  {
    forall i | 0 <= i < |s| ensures s[i] != x {
      assert s[i] in IpSet(s);
    }
  }

  /** Looking a member up by substring is right in every listing if and only if no other member's address
      contains its IP. */
  lemma SubstringRightExactly(idOf: string -> string, r: Roles, b: string)
    requires GoodIds(idOf) && GoodRoles(r) && b in r.Members()
    ensures (forall nodes :: Lists(idOf, nodes, r) ==> FindContaining(nodes, b, 0) == Some(idOf(b)))
       <==> (forall a :: a in r.Members() && a != b ==> !Contains(a + PORT, b))
  {
    hide Lists, Ip, Contains, Roles.Members, FindContaining, Line, GoodRoles;
    if a :| a in r.Members() && a != b && Contains(a + PORT, b) {
      var nodes := ListedFirst(idOf, r, a);
      LineOf(idOf, r, a);
      FindContainingIs(nodes, b, 0, 0);
      assert idOf(a) != idOf(b);
    } else {
      forall nodes: seq<NodeInfo> | Lists(idOf, nodes, r) ensures FindContaining(nodes, b, 0) == Some(idOf(b)) {
        var k := MemberLine(idOf, nodes, r, b);
        LineAddress(idOf, nodes, r, k);
        forall j | 0 <= j < k ensures !Contains(nodes[j].ipPort, b) {
          LineAddress(idOf, nodes, r, j);
        }
        SubstringLookupExact(idOf, nodes, r, k);
      }
    }
  }

  lemma LineOf(idOf: string -> string, r: Roles, ip: string)
    requires ip in r.Members()
    ensures Line(idOf, r, ip).ipPort == ip + PORT && Line(idOf, r, ip).nodeId == idOf(ip)
  {
  }

  /** So a new master can be taken for another one: of two listed masters 10.0.0.11 and 10.0.0.1, the
      scale-up path finds the first when it looks for the second. */
  lemma SubstringLookupMistakesPrefix(idOf: string -> string)
    requires GoodIds(idOf)
    ensures var r := OneCluster({"10.0.0.11", "10.0.0.1"}, map[]);
            var nodes := [Line(idOf, r, "10.0.0.11"), Line(idOf, r, "10.0.0.1")];
            && LookupExact(nodes, ["10.0.0.1"]) == [idOf("10.0.0.1")]
            && LookupBySubstring(nodes, ["10.0.0.1"]) == [idOf("10.0.0.11")]
            && idOf("10.0.0.11") != idOf("10.0.0.1")
  {
    var r := OneCluster({"10.0.0.11", "10.0.0.1"}, map[]);
    var nodes := [Line(idOf, r, "10.0.0.11"), Line(idOf, r, "10.0.0.1")];
    assert "10.0.0.1" <= "10.0.0.11" + PORT;
    assert |"10.0.0.11"| != |"10.0.0.1"|;
    SamePort("10.0.0.11", "10.0.0.1");
    FindExactIs(nodes, "10.0.0.1" + PORT, 0, 1);
    FindContainingIs(nodes, "10.0.0.1", 0, 0);
    assert ["10.0.0.1"][..0] == [];
  }
}
