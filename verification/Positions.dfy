/** The scale plan in terms of positions: who is selected, promoted and paired, and in which order. */
module Positions {
  import opened Counting
  import opened Wrappers
  import opened Strings
  import opened Hosts
  import opened Interleaving
  import opened Pairing
  import opened ScalePlan
  import opened ScaleProperties
  import opened Topology
  import opened Repair

  ghost predicate Increasing(pos: seq<nat>) {
    forall i, j :: 0 <= i < j < |pos| ==> pos[i] < pos[j]
  }

  /** part holds the elements of all at these positions, in this order. */
  ghost predicate At(part: seq<Address>, all: seq<Address>, pos: seq<nat>) {
    && |pos| == |part|
    && forall i :: 0 <= i < |pos| ==> pos[i] < |all| && part[i] == all[pos[i]]
  }

  // ---------- selecting by role ----------

  lemma AtSnoc(part: seq<Address>, all: seq<Address>, pos: seq<nat>, last: Address)
    requires At(part, all, pos) && Increasing(pos)
    ensures At(part, all + [last], pos)
    ensures At(part + [last], all + [last], pos + [|all|]) && Increasing(pos + [|all|])
  {
  }

  /** The existing masters are the addresses with a master's IP, in the order of the endpoints. */
  lemma {:induction false} WithinPositions(addrs: seq<Address>, ips: set<string>) returns (pos: seq<nat>)
    ensures At(Within(addrs, ips), addrs, pos) && Increasing(pos)
    ensures forall p: nat :: p in pos <==> p < |addrs| && addrs[p].ip in ips
  {
    pos := [];
    if addrs != [] {
      var init, last := addrs[..|addrs| - 1], addrs[|addrs| - 1];
      pos := WithinPositions(init, ips);
      AtSnoc(Within(init, ips), init, pos, last);
      assert addrs == init + [last];
      if last.ip in ips {
        pos := pos + [|init|];
      } else {
        assert Within(addrs, ips) == Within(init, ips);
      }
    }
  }

  /** The joining addresses are the others, in the order of the endpoints. */
  lemma {:induction false} WithoutPositions(addrs: seq<Address>, ips: set<string>) returns (pos: seq<nat>)
    ensures At(Without(addrs, ips), addrs, pos) && Increasing(pos)
    ensures forall p: nat :: p in pos <==> p < |addrs| && addrs[p].ip !in ips
  {
    pos := [];
    if addrs != [] {
      var init, last := addrs[..|addrs| - 1], addrs[|addrs| - 1];
      pos := WithoutPositions(init, ips);
      AtSnoc(Without(init, ips), init, pos, last);
      assert addrs == init + [last];
      if last.ip in ips {
        assert Without(addrs, ips) == Without(init, ips);
      } else {
        pos := pos + [|init|];
      }
    }
  }

  // ---------- promoting ----------

  /** Candidate p is the first one on its host, which carries no master. */
  ghost predicate First(cands: seq<Address>, hosts: set<string>, p: nat) {
    p < |cands| && cands[p].node !in hosts && forall q :: 0 <= q < p ==> cands[q].node != cands[p].node
  }

  /** The number of such candidates before position p. */
  ghost function FirstsBefore(cands: seq<Address>, hosts: set<string>, p: nat): nat {
    if p == 0 then 0
    else FirstsBefore(cands, hosts, p - 1) + if First(cands, hosts, p - 1) then 1 else 0
  }

  function Shift(pos: seq<nat>): (r: seq<nat>)
    ensures |r| == |pos| && forall i :: 0 <= i < |pos| ==> r[i] == pos[i] + 1
  {
    seq(|pos|, i requires 0 <= i < |pos| => pos[i] + 1)
  }

  lemma ShiftAt(part: seq<Address>, a: Address, rest: seq<Address>, pos: seq<nat>)
    requires At(part, rest, pos) && Increasing(pos)
    ensures At(part, [a] + rest, Shift(pos)) && Increasing(Shift(pos))
    ensures At([a] + part, [a] + rest, [0] + Shift(pos)) && Increasing([0] + Shift(pos))
    ensures forall p: nat :: p in Shift(pos) <==> p > 0 && p - 1 in pos
  {
    forall p: nat ensures p in Shift(pos) <==> p > 0 && p - 1 in pos {
      if p > 0 && p - 1 in pos {
        var i :| 0 <= i < |pos| && pos[i] == p - 1;
        assert Shift(pos)[i] == p;
      }
    }
  }

  lemma {:induction false} FirstsShift(a: Address, rest: seq<Address>, hosts: set<string>, p: nat)
    requires p <= |rest|
    ensures a.node in hosts ==> FirstsBefore([a] + rest, hosts, p + 1) == FirstsBefore(rest, hosts, p)
    ensures a.node !in hosts ==>
      FirstsBefore([a] + rest, hosts, p + 1) == 1 + FirstsBefore(rest, hosts + {a.node}, p)
    ensures p < |rest| && a.node in hosts ==> (First([a] + rest, hosts, p + 1) <==> First(rest, hosts, p))
    ensures p < |rest| && a.node !in hosts ==>
      (First([a] + rest, hosts, p + 1) <==> First(rest, hosts + {a.node}, p))
  {
    var all := [a] + rest;
    assert forall q :: 0 <= q < |rest| ==> all[q + 1] == rest[q];
    if p > 0 {
      FirstsShift(a, rest, hosts, p - 1);
    } else {
      assert First(all, hosts, 0) <==> a.node !in hosts;
    }
    if p < |rest| {
      FirstShift(a, rest, hosts, p);
    }
  }

  lemma FirstShift(a: Address, rest: seq<Address>, hosts: set<string>, p: nat)
    requires p < |rest|
    ensures a.node in hosts ==> (First([a] + rest, hosts, p + 1) <==> First(rest, hosts, p))
    ensures a.node !in hosts ==> (First([a] + rest, hosts, p + 1) <==> First(rest, hosts + {a.node}, p))
  {
    var all := [a] + rest;
    assert forall q :: 0 <= q < |rest| ==> all[q + 1] == rest[q];
    assert (forall q :: 0 <= q < p + 1 ==> all[q].node != all[p + 1].node)
      <==> a.node != rest[p].node && forall q :: 0 <= q < p ==> rest[q].node != rest[p].node by {
      assert all[0] == a;
      forall q | 0 <= q < p ensures rest[q] == all[q + 1] { }
    }
  }

  /** The first pass promotes the first candidate on each host without a master, as many as wanted, and both
      whom it promotes and whom it leaves keep the order of the candidates. */
  ghost predicate FreshAt(cands: seq<Address>, hosts: set<string>, want: int, r: Split, chosen: seq<nat>,
                          left: seq<nat>)
  {
    && At(r.chosen, cands, chosen) && Increasing(chosen)
    && At(r.left, cands, left) && Increasing(left)
    && (forall p: nat :: p in chosen <==>
          First(cands, hosts, p) && (want < 0 || FirstsBefore(cands, hosts, p) < want))
    && (forall p: nat :: p in left <==> p < |cands| && p !in chosen)
  }

  lemma {:induction false} FreshPositions(cands: seq<Address>, hosts: set<string>, want: int)
    returns (chosen: seq<nat>, left: seq<nat>)
    ensures FreshAt(cands, hosts, want, PromoteFresh(cands, hosts, want), chosen, left)
  {
    if cands == [] || want == 0 {
      chosen, left := [], seq(|cands|, i => i);
    } else {
      var a, rest := cands[0], cands[1..];
      assert cands == [a] + rest;
      if a.node in hosts {
        chosen, left := FreshPositions(rest, hosts, want);
        FreshPassed(a, rest, hosts, want, PromoteFresh(rest, hosts, want), chosen, left);
        chosen, left := Shift(chosen), [0] + Shift(left);
      } else {
        chosen, left := FreshPositions(rest, hosts + {a.node}, want - 1);
        FreshTaken(a, rest, hosts, want, PromoteFresh(rest, hosts + {a.node}, want - 1), chosen, left);
        chosen, left := [0] + Shift(chosen), Shift(left);
      }
    }
  }

  lemma FreshPassed(a: Address, rest: seq<Address>, hosts: set<string>, want: int, r: Split, chosen: seq<nat>,
                    left: seq<nat>)
    requires a.node in hosts && FreshAt(rest, hosts, want, r, chosen, left)
    ensures FreshAt([a] + rest, hosts, want, Split(r.chosen, [a] + r.left), Shift(chosen), [0] + Shift(left))
  {
    hide At, Increasing, First, FirstsBefore;
    ShiftAt(r.chosen, a, rest, chosen);
    ShiftAt(r.left, a, rest, left);
    FirstOnly(a, rest, hosts);
    forall p: nat ensures p in Shift(chosen) <==>
      First([a] + rest, hosts, p) && (want < 0 || FirstsBefore([a] + rest, hosts, p) < want)
    {
      if 0 < p <= |rest| {
        FirstsShift(a, rest, hosts, p - 1);
      }
      FirstInRange([a] + rest, hosts, p);
    }
  }

  lemma FreshTaken(a: Address, rest: seq<Address>, hosts: set<string>, want: int, r: Split, chosen: seq<nat>,
                   left: seq<nat>)
    requires a.node !in hosts && want != 0 && FreshAt(rest, hosts + {a.node}, want - 1, r, chosen, left)
    ensures FreshAt([a] + rest, hosts, want, Split([a] + r.chosen, r.left), [0] + Shift(chosen), Shift(left))
  {
    hide At, Increasing, First, FirstsBefore;
    ShiftAt(r.chosen, a, rest, chosen);
    ShiftAt(r.left, a, rest, left);
    FirstOnly(a, rest, hosts);
    forall p: nat ensures p in [0] + Shift(chosen) <==>
      First([a] + rest, hosts, p) && (want < 0 || FirstsBefore([a] + rest, hosts, p) < want)
    {
      if 0 < p <= |rest| {
        FirstsShift(a, rest, hosts, p - 1);
      }
      FirstInRange([a] + rest, hosts, p);
    }
  }

  lemma FirstOnly(a: Address, rest: seq<Address>, hosts: set<string>)
    ensures First([a] + rest, hosts, 0) <==> a.node !in hosts
    ensures FirstsBefore([a] + rest, hosts, 0) == 0
  {
  }

  lemma FirstInRange(cands: seq<Address>, hosts: set<string>, p: nat)
    ensures First(cands, hosts, p) ==> p < |cands|
  {
  }

  /** The second pass takes every other candidate from i on and leaves the others in order. */
  ghost predicate AlternateAt(cands: seq<Address>, i: nat, want: nat, r: Split) {
    && (want > 0 ==> i + 2 * want - 1 <= |cands|)
    && |r.chosen| == want && |r.left| == |cands| - want
    && (forall j :: 0 <= j < want ==> r.chosen[j] == cands[i + 2 * j])
    && (forall j :: 0 <= j < |r.left| && j < i ==> r.left[j] == cands[j])
    && (forall j :: i <= j < i + want && j < |r.left| ==> r.left[j] == cands[2 * j - i + 1])
    && (forall j :: i + want <= j < |r.left| ==> r.left[j] == cands[j + want])
  }

  lemma AlternateTaken(cands: seq<Address>, i: nat, want: nat, r: Split)
    requires i < |cands| && want > 0 && AlternateAt(Remove(cands, i), i + 1, want - 1, r)
    ensures AlternateAt(cands, i, want, Split([cands[i]] + r.chosen, r.left))
  {
    var rest, chosen := Remove(cands, i), [cands[i]] + r.chosen;
    assert forall j :: 0 <= j < |rest| ==> rest[j] == cands[if j < i then j else j + 1];
    hide Remove;
    forall j | 0 <= j < want ensures chosen[j] == cands[i + 2 * j] {
      if j > 0 {
        assert chosen[j] == r.chosen[j - 1] == rest[i + 1 + 2 * (j - 1)];
      }
    }
  }

  lemma AlternateUnfolds(cands: seq<Address>, i: nat, want: nat)
    requires want > 0 && PromoteAlternate(cands, i, want).Some?
    ensures i < |cands|
    ensures var r := PromoteAlternate(Remove(cands, i), i + 1, want - 1);
            r.Some? && PromoteAlternate(cands, i, want).value == Split([cands[i]] + r.value.chosen, r.value.left)
  {
    hide Remove;
  }

  lemma {:induction false} AlternatePositions(cands: seq<Address>, i: nat, want: nat)
    requires PromoteAlternate(cands, i, want).Some?
    ensures AlternateAt(cands, i, want, PromoteAlternate(cands, i, want).value)
    decreases want
  {
    if want == 0 {
    } else {
      hide AlternateAt, PromoteAlternate, Remove;
      AlternateUnfolds(cands, i, want);
      AlternatePositions(Remove(cands, i), i + 1, want - 1);
      AlternateTaken(cands, i, want, PromoteAlternate(Remove(cands, i), i + 1, want - 1).value);
    }
  }

  /** Both passes, in order: first the first candidates on fresh hosts, then every other candidate left. */
  lemma PromotePositions(cands: seq<Address>, hosts: set<string>, want: int)
    returns (early: seq<nat>, left: seq<nat>, rest: seq<Address>)
    requires Promote(cands, hosts, want).Some?
    ensures var p, f := Promote(cands, hosts, want).value, |early|;
            && f <= |p.chosen|
            && FreshAt(cands, hosts, want, Split(p.chosen[..f], rest), early, left)
            && AlternateAt(rest, 0, if want <= f then 0 else want - f, Split(p.chosen[f..], p.left))
  {
    hide PromoteFresh, FreshAt, AlternateAt;
    var first := PromoteFresh(cands, hosts, want);
    early, left := FreshPositions(cands, hosts, want);
    rest := first.left;
    assert |early| == |first.chosen| by { FreshLength(cands, hosts, want, first, early, left); }
    if want > |early| {
      AlternatePositions(rest, 0, want - |early|);
    } else {
      AlternateNothing(rest);
    }
    var p := Promote(cands, hosts, want).value;
    assert p.chosen == p.chosen[..|early|] + p.chosen[|early|..];
  }

  lemma FreshLength(cands: seq<Address>, hosts: set<string>, want: int, r: Split, chosen: seq<nat>, left: seq<nat>)
    requires FreshAt(cands, hosts, want, r, chosen, left)
    ensures |chosen| == |r.chosen|
  {
  }

  lemma AlternateNothing(rest: seq<Address>)
    ensures AlternateAt(rest, 0, 0, Split([], rest))
  {
  }

  // ---------- pairing ----------

  /** One of the first i masters took candidate q. */
  ghost predicate Taken(pos: seq<nat>, i: nat, q: nat) {
    exists j :: 0 <= j < i && j < |pos| && pos[j] == q
  }

  /** Candidate p is the first that no earlier master took on another host than this one. */
  ghost predicate FirstUntaken(node: string, pool: seq<Address>, pos: seq<nat>, i: nat, p: nat) {
    && p < |pool| && pool[p].node != node && !Taken(pos, i, p)
    && forall q: nat :: q < p && !Taken(pos, i, q) ==> pool[q].node == node
  }

  /** It has an IP, without which it reads as not found. */
  ghost predicate Found(node: string, pool: seq<Address>, pos: seq<nat>, i: nat, p: nat) {
    FirstUntaken(node, pool, pos, i, p) && pool[p].ip != ""
  }

  /** Master i takes the first candidate still there on another host; when there is none, or its IP is
      empty, the first candidate still there. */
  ghost predicate Takes(node: string, pool: seq<Address>, pos: seq<nat>, i: nat)
    requires i < |pos|
  {
    && pos[i] < |pool| && !Taken(pos, i, pos[i])
    && if exists p :: Found(node, pool, pos, i, p) then Found(node, pool, pos, i, pos[i])
       else forall q: nat :: q < pos[i] ==> Taken(pos, i, q)
  }

  /** The position in the pool of position q in what is left after removing p, and back. */
  function Up(q: nat, p: nat): nat {
    if q < p then q else q + 1
  }

  function Down(q: nat, p: nat): nat {
    if q <= p then q else q - 1
  }

  function Around(pos: seq<nat>, p: nat): (r: seq<nat>)
    ensures |r| == |pos| && forall i :: 0 <= i < |pos| ==> r[i] == Up(pos[i], p)
  {
    seq(|pos|, i requires 0 <= i < |pos| => Up(pos[i], p))
  }

  lemma TakenAround(pos: seq<nat>, p: nat, i: nat, q: nat)
    requires i <= |pos|
    ensures Taken([p] + Around(pos, p), i + 1, q) <==> q == p || Taken(pos, i, Down(q, p))
  {
    var all := [p] + Around(pos, p);
    assert all[0] == p && forall j :: 0 <= j < |pos| ==> all[j + 1] == Up(pos[j], p);
    if q != p && Taken(pos, i, Down(q, p)) {
      var j :| 0 <= j < i && j < |pos| && pos[j] == Down(q, p);
      assert all[j + 1] == q;
    }
  }

  lemma RemovedAt(pool: seq<Address>, p: nat, q: nat)
    requires p < |pool| && q != p
    ensures Down(q, p) < |Remove(pool, p)| <==> q < |pool|
    ensures q < |pool| ==> Remove(pool, p)[Down(q, p)] == pool[q]
  {
  }

  lemma FirstUntakenAround(node: string, pool: seq<Address>, pos: seq<nat>, p: nat, i: nat, q: nat)
    requires p < |pool| && i <= |pos|
    ensures FirstUntaken(node, pool, [p] + Around(pos, p), i + 1, q) <==>
      q != p && FirstUntaken(node, Remove(pool, p), pos, i, Down(q, p))
  {
    hide Taken;
    var all, rest := [p] + Around(pos, p), Remove(pool, p);
    TakenAround(pos, p, i, q);
    if q != p && q < |pool| {
      RemovedAt(pool, p, q);
      if FirstUntaken(node, rest, pos, i, Down(q, p)) {
        forall t: nat | t < q && !Taken(all, i + 1, t) ensures pool[t].node == node {
          TakenAround(pos, p, i, t);
          RemovedAt(pool, p, t);
        }
      }
      if FirstUntaken(node, pool, all, i + 1, q) {
        forall t: nat | t < Down(q, p) && !Taken(pos, i, t) ensures rest[t].node == node {
          TakenAround(pos, p, i, Up(t, p));
          RemovedAt(pool, p, Up(t, p));
        }
      }
    } else if q != p {
      RemovedAt(pool, p, q);
    }
  }

  lemma FoundAround(node: string, pool: seq<Address>, pos: seq<nat>, p: nat, i: nat, q: nat)
    requires p < |pool| && i <= |pos|
    ensures Found(node, pool, [p] + Around(pos, p), i + 1, q) <==>
      q != p && Found(node, Remove(pool, p), pos, i, Down(q, p))
  {
    hide Taken;
    FirstUntakenAround(node, pool, pos, p, i, q);
    if q != p {
      RemovedAt(pool, p, q);
    }
  }

  lemma TakesAround(node: string, pool: seq<Address>, pos: seq<nat>, p: nat, i: nat)
    requires p < |pool| && i < |pos| && Takes(node, Remove(pool, p), pos, i)
    ensures Takes(node, pool, [p] + Around(pos, p), i + 1)
  {
    hide Taken, Found, Remove;
    var all, rest := [p] + Around(pos, p), Remove(pool, p);
    var n := i + 1;
    var mine := all[n];
    assert mine == Up(pos[i], p) && Down(mine, p) == pos[i] && mine != p;
    TakenAround(pos, p, i, mine);
    RemovedAt(pool, p, mine);
    FoundAround(node, pool, pos, p, i, mine);
    if q: nat :| Found(node, rest, pos, i, q) {
      FoundAround(node, pool, pos, p, i, Up(q, p));
      assert Found(node, pool, all, n, Up(q, p));
    } else {
      forall q: nat ensures !Found(node, pool, all, n, q) {
        FoundAround(node, pool, pos, p, i, q);
      }
      forall q: nat ensures q < mine ==> Taken(all, n, q) {
        TakenAround(pos, p, i, q);
      }
    }
  }

  lemma TakesFirst(node: string, pool: seq<Address>, rest: seq<nat>)
    requires pool != []
    ensures Takes(node, pool, [PickIndex(node, pool)] + rest, 0)
  {
    var j := FirstOther(node, pool, 0);
    var pos := [PickIndex(node, pool)] + rest;
    assert j < |pool| ==> FirstUntaken(node, pool, pos, 0, j);
    forall q: nat | FirstUntaken(node, pool, pos, 0, q) ensures q == j {
      assert !Taken(pos, 0, j);
    }
  }

  lemma PairedUnfolds(masters: seq<Address>, pool: seq<Address>)
    requires masters != [] && pool != []
    ensures var p := PickIndex(masters[0].node, pool);
            Paired(masters, pool) == [pool[p]] + Paired(masters[1..], Remove(pool, p))
  {
    hide PickIndex, Remove;
  }

  /** The pairs, by position in the pool. */
  ghost predicate PairedAt(masters: seq<Address>, pool: seq<Address>, slaves: seq<Address>, pos: seq<nat>) {
    && At(slaves, pool, pos) && |pos| == Min(|masters|, |pool|)
    && forall i :: 0 <= i < |pos| ==> Takes(masters[i].node, pool, pos, i)
  }

  lemma PairedTurn(masters: seq<Address>, pool: seq<Address>, slaves: seq<Address>, rest: seq<nat>)
    requires masters != [] && pool != []
    requires var p := PickIndex(masters[0].node, pool); PairedAt(masters[1..], Remove(pool, p), slaves, rest)
    ensures var p := PickIndex(masters[0].node, pool);
            PairedAt(masters, pool, [pool[p]] + slaves, [p] + Around(rest, p))
  {
    hide Takes, PickIndex, Remove;
    var p := PickIndex(masters[0].node, pool);
    var pos := [p] + Around(rest, p);
    TakesFirst(masters[0].node, pool, Around(rest, p));
    forall i | 0 < i < |pos|
      ensures pos[i] < |pool| && ([pool[p]] + slaves)[i] == pool[pos[i]] && Takes(masters[i].node, pool, pos, i)
    {
      assert masters[1..][i - 1] == masters[i] && pos[i] == Up(rest[i - 1], p);
      RemovedAt(pool, p, pos[i]);
      TakesAround(masters[i].node, pool, rest, p, i - 1);
    }
  }

  /** Greedy pairing, exactly: who takes whom, by position in the pool. */
  lemma {:induction false} PairedPositions(masters: seq<Address>, pool: seq<Address>) returns (pos: seq<nat>)
    ensures PairedAt(masters, pool, Paired(masters, pool), pos)
  {
    pos := [];
    if masters != [] && pool != [] {
      hide PairedAt, PickIndex, Remove, Paired;
      PairedUnfolds(masters, pool);
      var p := PickIndex(masters[0].node, pool);
      var rest := PairedPositions(masters[1..], Remove(pool, p));
      PairedTurn(masters, pool, Paired(masters[1..], Remove(pool, p)), rest);
      pos := [p] + Around(rest, p);
    }
  }

  // ---------- the order of a plan ----------

  /** Distinct IPs: an address is where its IP is. */
  lemma OnePosition(addrs: seq<Address>, p: nat, q: nat)
    requires GoodAddrs(addrs) && p < |addrs| && q < |addrs| && addrs[p].ip == addrs[q].ip
    ensures p == q
  {
    assert Ips(addrs)[p] == Ips(addrs)[q];
  }

  /** Whoever waits for a slave: existing masters in the order of the endpoints, before the new ones. */
  ghost predicate InOrder(addrs: seq<Address>, parents: seq<string>, k: nat) {
    forall i, j, p: nat, q: nat ::
      (0 <= i < j < k && j < |parents| && p < |addrs| && q < |addrs|
       && addrs[p].ip == parents[i] && addrs[q].ip == parents[j]) ==> p < q
  }

  lemma SelectedInOrder(addrs: seq<Address>, masters: set<string>, served: set<string>)
    requires GoodAddrs(addrs)
    ensures var waiting := Ips(Without(Within(addrs, masters), served));
            && InOrder(addrs, waiting, |waiting|)
            && forall i :: 0 <= i < |waiting| ==> waiting[i] in masters && waiting[i] !in served
  {
    hide Within, Without, GoodAddrs;
    var exist := Within(addrs, masters);
    var all := WithinPositions(addrs, masters);
    var some := WithoutPositions(exist, served);
    var waiting := Without(exist, served);
    forall i | 0 <= i < |waiting| ensures waiting[i] == addrs[all[some[i]]] && waiting[i].ip in masters
      ensures waiting[i].ip !in served
    {
      assert all[some[i]] in all && some[i] in some;
    }
    forall i, j, p: nat, q: nat | 0 <= i < j < |waiting| && p < |addrs| && q < |addrs|
      && addrs[p].ip == Ips(waiting)[i] && addrs[q].ip == Ips(waiting)[j]
      ensures p < q
    {
      OnePosition(addrs, p, all[some[i]]);
      OnePosition(addrs, q, all[some[j]]);
    }
  }

  /** Where all joining addresses are new, the waiting masters are existing ones and then those. */
  lemma WaitingParts(addrs: seq<Address>, masters: set<string>, served: set<string>, chosen: seq<Address>)
    requires GoodAddrs(addrs) && AddrIps(chosen) !! served
    ensures var first, all := Ips(Without(Within(addrs, masters), served)),
                            Ips(Without(Within(addrs, masters) + chosen, served));
            all == first + Ips(chosen) && InOrder(addrs, all, |first|)
            && forall i :: 0 <= i < |first| ==> all[i] in masters && all[i] !in served
  {
    hide Within, Without, Ips, GoodAddrs, AddrIps;
    var exist := Within(addrs, masters);
    WithoutConcat(exist, chosen, served);
    WithoutNone(chosen, served);
    SelectedInOrder(addrs, masters, served);
    IpsConcat(Without(exist, served), chosen);
  }

  /** In the plan for a well-formed topology the masters that are to get a slave are those that already were
      masters, in the order of the endpoints, and then the new ones in the order in which they join. */
  lemma PlanInOrder(idOf: string -> string, addrs: seq<Address>, r: Roles)
    requires GoodIds(idOf) && GoodAddrs(addrs) && WellFormed(idOf, r, addrs)
    ensures var o, k := PlanFor(idOf, addrs, r), |r.masters| - |r.parentOf|;
            && o.Planned? && 0 <= k <= |o.parents|
            && InOrder(addrs, o.parents, k)
            && (forall i :: 0 <= i < k ==> o.parents[i] in r.masters && o.parents[i] !in Served(idOf, r))
            && o.parents[k..] == o.masters
  {
    hide Within, Without, Ips, WellFormed, Served, AddrIps, PlanFor, GoodAddrs, InOrder;
    if Without(addrs, r.Members()) == [] {
      EmptyPlanInOrder(idOf, addrs, r);
    } else {
      var chosen, left, all, newSlaves, leftover := PlanCounts(idOf, addrs, r);
      PlanLengths(idOf, addrs, r);
      AllWaiting(idOf, addrs, r, chosen);
      assert all[..|newSlaves|] == all;
      ChosenOutside(idOf, addrs, r, chosen);
      ServedAreMasters(idOf, r);
      WaitingParts(addrs, r.masters, Served(idOf, r), chosen);
    }
  }

  lemma AllWaiting(idOf: string -> string, addrs: seq<Address>, r: Roles, chosen: seq<Address>)
    requires GoodIds(idOf) && GoodAddrs(addrs) && WellFormed(idOf, r, addrs)
    requires PlanFor(idOf, addrs, r).Planned? && Ips(chosen) == PlanFor(idOf, addrs, r).masters
    ensures |Without(Within(addrs, r.masters) + chosen, Served(idOf, r))| == |addrs| / 2 - |r.parentOf|
  {
    hide PlanFor, WellFormed, Served, GoodAddrs, Within, Without, Ips, AddrIps, Distinct;
    var exist := Within(addrs, r.masters);
    PlanLengths(idOf, addrs, r);
    GoodAddrsDistinct(addrs);
    FilterIps(addrs, r.masters);
    WellFormedCounts(idOf, addrs, r);
    ServedAreMasters(idOf, r);
    ServedCount(idOf, r, addrs);
    assert AddrIps(exist) == r.masters;
    DistinctIpCount(exist);
    ChosenOutside(idOf, addrs, r, chosen);
    WaitingMasters(exist, chosen, Served(idOf, r));
  }

  /** New masters are distinct and none was a member. */
  lemma ChosenOutside(idOf: string -> string, addrs: seq<Address>, r: Roles, chosen: seq<Address>)
    requires GoodIds(idOf) && GoodAddrs(addrs) && WellFormed(idOf, r, addrs)
    requires PlanFor(idOf, addrs, r).Planned? && Ips(chosen) == PlanFor(idOf, addrs, r).masters
    ensures Distinct(Ips(chosen)) && AddrIps(chosen) !! r.masters
  {
    hide PlanFor, WellFormed, Served, GoodAddrs;
    PlanIsExact(idOf, addrs, r);
    var o := PlanFor(idOf, addrs, r);
    forall i, j | 0 <= i < j < |o.masters| ensures o.masters[i] != o.masters[j] {
      assert (o.masters + o.slaves)[i] != (o.masters + o.slaves)[j];
    }
    forall ip | ip in AddrIps(chosen) ensures ip in IpSet(o.masters + o.slaves) {
      var i :| 0 <= i < |o.masters| && o.masters[i] == ip;
      assert (o.masters + o.slaves)[i] == ip;
    }
  }

  lemma EmptyPlanInOrder(idOf: string -> string, addrs: seq<Address>, r: Roles)
    requires GoodIds(idOf) && GoodAddrs(addrs) && WellFormed(idOf, r, addrs)
    requires Without(addrs, r.Members()) == []
    ensures PlanFor(idOf, addrs, r) == Planned([], [], []) && |r.masters| == |r.parentOf|
    ensures InOrder(addrs, [], 0)
  {
    hide Within, Without;
    JoiningCount(idOf, addrs, r);
    WellFormedCounts(idOf, addrs, r);
  }

  /** A plan that has something to do, put together: candidates are promoted as above, the others are interleaved
      over their hosts, and each master without a slave, in that order, takes one of them as above. */
  lemma PlanPairs(addrs: seq<Address>, masters: set<string>, count: nat, slaves: set<string>, served: set<string>)
    returns (p: Split, parents: seq<Address>, pool: seq<Address>, newSlaves: seq<Address>, pos: seq<nat>)
    requires Without(addrs, masters + slaves) != []
    requires Plan(addrs, masters, count, slaves, served).Planned?
    ensures Promote(Without(addrs, masters + slaves), HostSet(Within(addrs, masters)), |addrs| / 2 - count) == Some(p)
    ensures parents == Without(Within(addrs, masters) + p.chosen, served)
    ensures IsInterleaving(pool, p.left) && PairedAt(parents, pool, newSlaves, pos) && |newSlaves| <= |parents|
    ensures Plan(addrs, masters, count, slaves, served)
         == Planned(Ips(p.chosen), Ips(newSlaves), Ips(parents[..|newSlaves|]))
  {
    hide Within, Without, HostSet, Promote, Paired, Unpaired, RoundRobin, PairedAt, Plan;
    var leftover;
    p, parents, newSlaves, leftover := ScaleConserves(addrs, masters, count, slaves, served);
    pool := RoundRobin(p.left);
    RoundRobinInterleaves(p.left);
    pos := PairedPositions(parents, pool);
  }

  /** Four pods, of which A and B are masters without slaves, as after a creation cut off when its masters
      exist: C goes to A and D to B, each to another host. */
  function FourPods(): seq<Address> {
    [Address("A", "x"), Address("B", "y"), Address("C", "w"), Address("D", "x")]
  }

  lemma FourPodsPlan(idOf: string -> string)
    ensures PlanFor(idOf, FourPods(), OneCluster({"A", "B"}, map[])) == Planned([], ["C", "D"], ["A", "B"])
    ensures FourPods()[2].node != FourPods()[0].node && FourPods()[3].node != FourPods()[1].node
  {
    hide Within, Without, RoundRobin, Paired, Promote, HostSet, Ips;
    var a, b, c, d := Address("A", "x"), Address("B", "y"), Address("C", "w"), Address("D", "x");
    var two: set<string> := {"A", "B"};
    assert FourPods() == [] + [a] + [b] + [c] + [d];
    FilterFour(a, b, c, d, two);
    TwoTurns(c, d);
    PairTwo(a, b, c, d);
    PlanOfTwo(FourPods(), two, a, b, [c, d], [c, d]);
    TwoIps(a, b);
    TwoIps(c, d);
    var r := OneCluster(two, map[]);
    assert r.parentOf.Keys == {} && Served(idOf, r) == {};
  }

  /** With B before A and D before C the interleaving puts C first all the same. B takes it, and A is left with
      D on its own host, though C to A and D to B would have kept both apart. */
  lemma FourPodsTogether(idOf: string -> string)
    ensures var addrs := [FourPods()[1], FourPods()[0], FourPods()[3], FourPods()[2]];
            && PlanFor(idOf, addrs, OneCluster({"A", "B"}, map[])) == Planned([], ["C", "D"], ["B", "A"])
            && addrs[2].node == addrs[1].node && addrs[2].node != addrs[0].node && addrs[3].node != addrs[1].node
  {
    hide Within, Without, RoundRobin, Paired, Promote, HostSet, Ips;
    var a, b, c, d := Address("A", "x"), Address("B", "y"), Address("C", "w"), Address("D", "x");
    var two: set<string> := {"A", "B"};
    var addrs := [b, a, d, c];
    assert addrs == [] + [b] + [a] + [d] + [c];
    FilterFour(b, a, d, c, two);
    TwoTurns(c, d);
    PairLeft(b, a, c, d);
    PlanOfTwo(addrs, two, b, a, [d, c], [c, d]);
    TwoIps(b, a);
    TwoIps(c, d);
    var r := OneCluster(two, map[]);
    assert r.parentOf.Keys == {} && Served(idOf, r) == {};
  }

  lemma TwoIps(a: Address, b: Address)
    ensures Ips([a, b]) == [a.ip, b.ip]
  {
  }

  lemma PlanOfTwo(addrs: seq<Address>, two: set<string>, a: Address, b: Address, cands: seq<Address>,
                  pool: seq<Address>)
    requires |addrs| == 4 && Within(addrs, two) == [a, b] && Without(addrs, two) == cands && |two| == 2 && |cands| == 2
    requires RoundRobin(cands) == pool && Paired([a, b], pool) == pool && |pool| == 2
    ensures Plan(addrs, two, 2, {}, {}) == Planned([], Ips(pool), Ips([a, b]))
  {
    hide Within, Without, RoundRobin, Paired, Promote, HostSet;
    assert two + {} == two;
    FilterTwo(a, b);
    NothingWanted(cands, HostSet([a, b]));
    assert [a, b][..2] == [a, b];
    assert Ips([]) == [];
  }

  lemma FilterSnoc(init: seq<Address>, last: Address, ips: set<string>)
    ensures Within(init + [last], ips) == Within(init, ips) + if last.ip in ips then [last] else []
    ensures Without(init + [last], ips) == Without(init, ips) + if last.ip in ips then [] else [last]
  {
    assert (init + [last])[..|init|] == init;
  }

  lemma FilterFour(a: Address, b: Address, c: Address, d: Address, ips: set<string>)
    requires a.ip in ips && b.ip in ips && c.ip !in ips && d.ip !in ips
    ensures Within([] + [a] + [b] + [c] + [d], ips) == [a, b] && Without([] + [a] + [b] + [c] + [d], ips) == [c, d]
  {
    FilterSnoc([], a, ips);
    FilterSnoc([] + [a], b, ips);
    FilterSnoc([] + [a] + [b], c, ips);
    FilterSnoc([] + [a] + [b] + [c], d, ips);
  }

  lemma FilterTwo(a: Address, b: Address)
    ensures Without([a, b] + [], {}) == [a, b]
  {
    assert [a, b] + [] == [] + [a] + [b];
    FilterSnoc([], a, {});
    FilterSnoc([] + [a], b, {});
  }

  lemma NothingWanted(cands: seq<Address>, hosts: set<string>)
    ensures Promote(cands, hosts, 0) == Some(Split([], cands))
  {
    var none: seq<Address> := [];
    assert none + none == none;
  }

  lemma TwoTurns(c: Address, d: Address)
    requires c.node == "w" && d.node == "x"
    ensures RoundRobin([c, d]) == [c, d] && RoundRobin([d, c]) == [c, d]
  {
    var s, t := [c, d], [d, c];
    assert s[..1] == [c] && s[..0] == [] && t[..1] == [d];
    assert Load([c], "x") == 0;
    assert Lt("w", "x") && Round(s, 0) == 0 && Round(s, 1) == 0;
    InterleavingIsRoundRobin(s, s);
    InterleavingIsRoundRobin(s, t);
  }

  /** The second master finds only its own host left. */
  lemma PairLeft(b: Address, a: Address, c: Address, d: Address)
    requires b.node != c.node && a.node == d.node && c.ip != "" && d.ip != ""
    ensures Paired([b, a], [c, d]) == [c, d]
  {
    hide Paired, PickIndex, Remove;
    PicksFirst(b.node, [c, d]);
    OnlyOne(a.node, d);
    PairedUnfolds([b, a], [c, d]);
    PairedUnfolds([a], [d]);
    assert [b, a][1..] == [a] && [a][1..] == [];
    assert [c, d] == [c] + [d] && [d] == [d] + [];
    RemovesFirst(c, [d]);
    RemovesFirst(d, []);
    PairedNobody([]);
  }

  lemma OnlyOne(node: string, d: Address)
    ensures PickIndex(node, [d]) == 0
  {
  }

  lemma PairTwo(a: Address, b: Address, c: Address, d: Address)
    requires a.node != c.node && b.node != d.node && c.ip != "" && d.ip != ""
    ensures Paired([a, b], [c, d]) == [c, d]
  {
    hide Paired, PickIndex, Remove;
    PicksFirst(a.node, [c, d]);
    PicksFirst(b.node, [d]);
    PairedUnfolds([a, b], [c, d]);
    PairedUnfolds([b], [d]);
    assert [a, b][1..] == [b] && [b][1..] == [];
    assert [c, d] == [c] + [d] && [d] == [d] + [];
    RemovesFirst(c, [d]);
    RemovesFirst(d, []);
    PairedNobody([]);
  }

  lemma PicksFirst(node: string, pool: seq<Address>)
    requires pool != [] && pool[0].node != node && pool[0].ip != ""
    ensures PickIndex(node, pool) == 0
  {
  }

  lemma RemovesFirst(a: Address, rest: seq<Address>)
    ensures Remove([a] + rest, 0) == rest
  {
  }

  lemma PairedNobody(pool: seq<Address>)
    ensures Paired([], pool) == []
  {
  }
}
