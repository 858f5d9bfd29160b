/** Exactly how many masters of a creation plan share the host of their slave, read off the
    interleaving before any slave is chosen. */
module Colocation {
  import opened Strings
  import opened Hosts
  import opened Interleaving
  import opened Spread
  import opened Pairing
  import opened CreationPlan
  import opened CreationProperties

  // ---------- the criterion ----------

  /** The start, at k or before, of the final run of addresses on one host. */
  function RunFrom(s: seq<Address>, k: nat): (r: nat)
    requires k < |s| && forall i :: k <= i < |s| ==> s[i].node == s[|s| - 1].node
    ensures r <= k && forall i :: r <= i < |s| ==> s[i].node == s[|s| - 1].node
    ensures r > 0 ==> s[r - 1].node != s[|s| - 1].node
  {
    if k > 0 && s[k - 1].node == s[|s| - 1].node then RunFrom(s, k - 1) else k
  }

  function RunStart(s: seq<Address>): (k: nat)
    requires s != []
    ensures k < |s| && forall i :: k <= i < |s| ==> s[i].node == s[|s| - 1].node
    ensures k > 0 ==> s[k - 1].node != s[|s| - 1].node
  {
    RunFrom(s, |s| - 1)
  }

  /** The candidates for slaves: what follows the masters, rotated by one. */
  function Rotated(s: seq<Address>): (c: seq<Address>)
    requires s != []
    ensures |c| == |s| - |s| / 2
  {
    s[|s| / 2 + 1..] + [s[|s| / 2]]
  }

  /** How many candidates come before the final run. */
  function Lead(s: seq<Address>): nat
    requires s != []
  {
    if RunStart(s) > |s| / 2 then RunStart(s) - |s| / 2 - 1 else 0
  }

  /** Before master t has its turn, the candidate in front has been passed over by master t - 1, whose host
      it is on. */
  predicate Passed(s: seq<Address>, t: nat)
    requires s != [] && t <= |s| / 2
  {
    t > 0 && s[t - 1].node == Rotated(s)[t - 1].node && !Passed(s, t - 1)
  }

  /** The first master that finds the final run, and the rotated candidate, and nothing else. */
  function TailStart(s: seq<Address>): (e: nat)
    requires s != []
    ensures e <= |s| / 2 && e <= |s| - |s| / 2 - 1
  {
    if Lead(s) > 0 && Passed(s, Lead(s)) then Lead(s) + 1 else Lead(s)
  }

  /** The masters from there on that are on the run's host. */
  function TailLoad(s: seq<Address>): nat
    requires s != []
  {
    Load(s[TailStart(s)..|s| / 2], s[|s| - 1].node)
  }

  /** The rotated candidate can help one of them, if it is on another host. */
  function Helped(s: seq<Address>): nat
    requires s != []
  {
    if s[|s| / 2].node == s[|s| - 1].node then 0 else 1
  }

  // ---------- counting pairs on one host ----------

  function Clashes(ms: seq<Address>, ss: seq<Address>): nat {
    if ms == [] || ss == [] then 0
    else (if ms[0].node == ss[0].node then 1 else 0) + Clashes(ms[1..], ss[1..])
  }

  lemma {:induction false} ClashesCount(ms: seq<Address>, ss: seq<Address>)
    ensures Clashes(ms, ss) == 0 <==> forall i :: !Colocated(ms, ss, i)
  {
    if ms != [] && ss != [] {
      ClashesCount(ms[1..], ss[1..]);
      if i :| Colocated(ms, ss, i) {
        assert i == 0 || Colocated(ms[1..], ss[1..], i - 1);
      }
      if i :| Colocated(ms[1..], ss[1..], i) {
        assert Colocated(ms, ss, i + 1);
      }
      if ms[0].node == ss[0].node {
        assert Colocated(ms, ss, 0);
      }
    }
  }

  /** The next master takes the first candidate, on another host. */
  lemma TakeFront(ms: seq<Address>, pool: seq<Address>)
    requires ms != [] && pool != [] && NonEmptyIps(pool) && ms[0].node != pool[0].node
    ensures Clashes(ms, Paired(ms, pool)) == Clashes(ms[1..], Paired(ms[1..], pool[1..]))
  {
    assert PickIndex(ms[0].node, pool) == 0;
    assert Remove(pool, 0) == pool[1..];
    assert Paired(ms, pool)[1..] == Paired(ms[1..], pool[1..]);
  }

  /** The next master passes over the first candidate and takes the second. */
  lemma TakeSecond(ms: seq<Address>, pool: seq<Address>)
    requires ms != [] && |pool| >= 2 && NonEmptyIps(pool)
    requires ms[0].node == pool[0].node != pool[1].node
    ensures Clashes(ms, Paired(ms, pool)) == Clashes(ms[1..], Paired(ms[1..], [pool[0]] + pool[2..]))
  {
    assert FirstOther(ms[0].node, pool, 0) == 1;
    assert PickIndex(ms[0].node, pool) == 1;
    assert Remove(pool, 1) == [pool[0]] + pool[2..];
    assert Paired(ms, pool)[1..] == Paired(ms[1..], [pool[0]] + pool[2..]);
  }

  lemma LoadCons(s: seq<Address>, h: string)
    requires s != []
    ensures Load(s, h) == (if s[0].node == h then 1 else 0) + Load(s[1..], h)
  {
    hide Load;
    LoadConcat([s[0]], s[1..], h);
    LoadSnoc([], s[0], h);
    NoLoad([], h);
    assert [] + [s[0]] == [s[0]] && [s[0]] + s[1..] == s;
  }

  // ---------- before the final run ----------

  /** No host takes two turns in a row while another one is waiting. */
  lemma NoTwoTurns(s: seq<Address>, i: nat, j: nat)
    requires Ordered(s) && i + 1 < j < |s| && s[j].node != s[i + 1].node
    ensures s[i].node != s[i + 1].node
  {
    hide Load, Lt, Le;
    var g, o := s[i].node, s[j].node;
    if g == s[i + 1].node {
      assert s[..i + 1] == s[..i] + [s[i]] && s[..i + 2] == s[..i + 1] + [s[i + 1]];
      LoadSnoc(s[..i], s[i], g);
      LoadSnoc(s[..i], s[i], o);
      LoadSnoc(s[..i + 1], s[i + 1], o);
      assert s[..j + 1] == s[..j] + [s[j]];
      LoadSnoc(s[..j], s[j], o);
      LoadPrefix(s, i + 2, j, o);
      LoadPrefix(s, j + 1, |s|, o);
      var n := NextTurn(s, i + 2, o);
      assert Before(Round(s, i + 1), g, Round(s, n), o);
      var l := LastTurn(s, i, o);
      assert Before(Round(s, l), o, Round(s, i), g);
      LtAsymmetric(g, o);
    }
  }

  /** Up to the final run, neighbours in the interleaving are on different hosts. */
  lemma Neighbours(s: seq<Address>, i: nat)
    requires s != [] && Ordered(s) && i < RunStart(s)
    ensures s[i].node != s[i + 1].node
  {
    hide Load, Round, RunFrom, Ordered;
    var last := s[|s| - 1].node;
    if i + 1 < RunStart(s) {
      var j := if s[i + 1].node == last then RunStart(s) - 1 else |s| - 1;
      NoTwoTurns(s, i, j);
    }
  }

  /** What master t finds, up to the tail. */
  function Waiting(s: seq<Address>, t: nat): seq<Address>
    requires s != [] && t <= |s| / 2 && t < |s| - |s| / 2
  {
    if Passed(s, t) then [Rotated(s)[t - 1]] + Rotated(s)[t + 1..] else Rotated(s)[t..]
  }

  /** Who takes what before the tail: the candidate in front, unless it is on the master's host. */
  lemma WaitingTurn(s: seq<Address>, t: nat)
    requires s != [] && Ordered(s) && NonEmptyIps(s) && t < Lead(s)
    ensures t + 1 <= |s| / 2 && t + 1 < |s| - |s| / 2
    ensures var now, next := Waiting(s, t), Waiting(s, t + 1);
            && NonEmptyIps(now) && |now| >= 2
            && if s[t].node != now[0].node then next == now[1..]
               else s[t].node != now[1].node && next == [now[0]] + now[2..]
  {
    hide Load, Round, RunFrom, Ordered;
    var m, c := |s| / 2, Rotated(s);
    assert c[t] == s[m + 1 + t] && c[t + 1] == s[m + 2 + t];
    Neighbours(s, m + 1 + t);
    RotatedNonEmpty(s);
    if Passed(s, t) {
      Neighbours(s, t - 1);
      assert ([c[t - 1]] + c[t + 1..])[1..] == c[t + 1..];
    } else {
      assert c[t..][1..] == c[t + 1..] && c[t..][2..] == c[t + 2..];
    }
  }

  /** Taking turns up to the final run, every master avoids its own host. */
  lemma LeadTurn(s: seq<Address>, t: nat)
    requires s != [] && Ordered(s) && NonEmptyIps(s) && t < Lead(s)
    ensures t + 1 <= |s| / 2 && t + 1 < |s| - |s| / 2
    ensures var ms := s[..|s| / 2];
            Clashes(ms[t..], Paired(ms[t..], Waiting(s, t)))
            == Clashes(ms[t + 1..], Paired(ms[t + 1..], Waiting(s, t + 1)))
  {
    hide Ordered, Paired, Clashes, Waiting, Lead;
    WaitingTurn(s, t);
    var ms := s[..|s| / 2];
    assert ms[t..][1..] == ms[t + 1..] && ms[t..][0] == s[t];
    if s[t].node != Waiting(s, t)[0].node {
      TakeFront(ms[t..], Waiting(s, t));
    } else {
      TakeSecond(ms[t..], Waiting(s, t));
    }
  }

  lemma RotatedNonEmpty(s: seq<Address>)
    requires s != [] && NonEmptyIps(s)
    ensures forall i :: 0 <= i < |Rotated(s)| ==> Rotated(s)[i].ip != ""
  {
  }

  lemma {:induction false} LeadTurns(s: seq<Address>, t: nat)
    requires s != [] && Ordered(s) && NonEmptyIps(s) && t <= Lead(s)
    ensures t <= |s| / 2 && t < |s| - |s| / 2
    ensures var ms := s[..|s| / 2];
            Clashes(ms, Paired(ms, Rotated(s))) == Clashes(ms[t..], Paired(ms[t..], Waiting(s, t)))
  {
    hide Load, Ordered, Paired, Clashes, Waiting, RunFrom;
    if t == 0 {
      NothingPassed(s);
      assert s[..|s| / 2][0..] == s[..|s| / 2];
    } else {
      LeadTurns(s, t - 1);
      LeadTurn(s, t - 1);
    }
  }

  lemma NothingPassed(s: seq<Address>)
    requires s != []
    ensures Waiting(s, 0) == Rotated(s)
  {
    assert Rotated(s)[0..] == Rotated(s);
  }

  /** So all pairs on one host are made in the tail. */
  lemma ClashesInTail(s: seq<Address>)
    requires s != [] && Ordered(s) && NonEmptyIps(s)
    ensures var ms, e := s[..|s| / 2], TailStart(s);
            Clashes(ms, Paired(ms, Rotated(s))) == Clashes(ms[e..], Paired(ms[e..], Rotated(s)[e..]))
  {
    hide Load, Round, RunFrom, Ordered, Paired, Clashes;
    var t, ms, c := Lead(s), s[..|s| / 2], Rotated(s);
    LeadTurns(s, t);
    if Passed(s, t) {
      Neighbours(s, t - 1);
      RotatedNonEmpty(s);
      var pool := [c[t - 1]] + c[t + 1..];
      assert ms[t..][1..] == ms[t + 1..] && ms[t..][0] == s[t];
      TakeFront(ms[t..], pool);
      assert pool[1..] == c[t + 1..];
    }
  }

  // ---------- the tail ----------

  /** When only one host is left, its masters are the ones that clash. */
  lemma {:induction false} OneHostClashes(ms: seq<Address>, pool: seq<Address>, h: string)
    requires AllOn(pool, h) && NonEmptyIps(pool) && |ms| <= |pool|
    ensures Clashes(ms, Paired(ms, pool)) == Load(ms, h)
  {
    hide Load;
    if ms == [] {
      NoLoad(ms, h);
    } else {
      LoadCons(ms, h);
      var p := PickIndex(ms[0].node, pool);
      RemoveKeeps(pool, p);
      OneHostClashes(ms[1..], Remove(pool, p), h);
      assert Paired(ms, pool)[1..] == Paired(ms[1..], Remove(pool, p));
    }
  }

  lemma TakesFromRun(ms: seq<Address>, run: seq<Address>, x: Address)
    requires ms != [] && run != [] && ms[0].node != run[0].node && NonEmptyIps(run + [x])
    ensures Clashes(ms, Paired(ms, run + [x])) == Clashes(ms[1..], Paired(ms[1..], run[1..] + [x]))
    ensures NonEmptyIps(run[1..] + [x])
  {
    hide Clashes, Paired;
    TakeFront(ms, run + [x]);
    assert (run + [x])[1..] == run[1..] + [x];
    assert forall i :: 0 <= i < |run| ==> (run[1..] + [x])[i] == (run + [x])[i + 1];
  }

  lemma AllOnRest(run: seq<Address>, h: string)
    requires AllOn(run, h)
    ensures run != [] ==> run[0].node == h && AllOn(run[1..], h)
  {
  }

  lemma RunNonEmpty(run: seq<Address>, x: Address)
    requires NonEmptyIps(run + [x])
    ensures NonEmptyIps(run) && x.ip != ""
  {
    assert (run + [x])[|run|] == x;
    assert forall i :: 0 <= i < |run| ==> run[i] == (run + [x])[i];
  }

  /** Besides one host there is one more candidate x. */
  lemma {:induction false} TailClashes(ms: seq<Address>, run: seq<Address>, h: string, x: Address)
    requires AllOn(run, h) && NonEmptyIps(run + [x]) && |ms| <= |run| + 1 && x.node != h
    requires ms != [] && |ms| == |run| + 1 && Load(ms, h) == 0 ==> ms[|ms| - 1].node != x.node
    ensures Clashes(ms, Paired(ms, run + [x])) == if Load(ms, h) == 0 then 0 else Load(ms, h) - 1
  {
    hide Load;
    if ms == [] {
      NoLoad(ms, h);
    } else {
      hide Paired, Clashes, NonEmptyIps, AllOn;
      LoadCons(ms, h);
      RunNonEmpty(run, x);
      AllOnRest(run, h);
      if ms[0].node == h {
        TakesLast(ms, run, h, x);
        OneHostClashes(ms[1..], run, h);
      } else if run == [] {
        NoLoad(ms, h);
        LastTaken(ms, x, h);
      } else {
        TakesFromRun(ms, run, x);
        TailClashes(ms[1..], run[1..], h, x);
      }
    }
  }

  lemma LastTaken(ms: seq<Address>, x: Address, h: string)
    requires |ms| == 1 && ms[0].node != x.node && ms[0].node != h && x.ip != ""
    ensures Clashes(ms, Paired(ms, [] + [x])) == 0 == Load(ms, h)
  {
    TakeFront(ms, [x]);
    assert [] + [x] == [x];
    NoLoad(ms, h);
  }

  lemma TakesLast(ms: seq<Address>, run: seq<Address>, h: string, x: Address)
    requires ms != [] && ms[0].node == h && AllOn(run, h) && x.node != h && x.ip != ""
    ensures Clashes(ms, Paired(ms, run + [x])) == Clashes(ms[1..], Paired(ms[1..], run))
  {
    var pool := run + [x];
    assert forall i :: 0 <= i < |run| ==> pool[i] == run[i];
    assert pool[|run|] == x;
    assert FirstOther(h, pool, 0) == |run|;
    assert Remove(pool, |run|) == run;
    assert Paired(ms, pool)[1..] == Paired(ms[1..], run);
  }

  /** The pairs of a whole interleaving that share a host. */
  lemma InterleavingClashes(s: seq<Address>)
    requires s != [] && Ordered(s) && NonEmptyIps(s)
    ensures Clashes(s[..|s| / 2], Paired(s[..|s| / 2], Rotated(s)))
         == if TailLoad(s) <= Helped(s) then 0 else TailLoad(s) - Helped(s)
  {
    hide Load, Round, RunFrom, Ordered, Paired, Clashes, Passed;
    var m, e, h, x := |s| / 2, TailStart(s), s[|s| - 1].node, s[|s| / 2];
    ClashesInTail(s);
    var ms, run := s[e..m], s[m + 1 + e..];
    assert s[..m][e..] == ms;
    assert Rotated(s)[e..] == run + [x];
    assert AllOn(run, h);
    RotatedNonEmpty(s);
    assert NonEmptyIps(run + [x]) by {
      forall i | 0 <= i < |run + [x]| ensures (run + [x])[i].ip != "" {
        assert (run + [x])[i] == Rotated(s)[e + i];
      }
    }
    if x.node == h {
      OneHostClashes(ms, run + [x], h);
    } else {
      if ms != [] {
        Neighbours(s, m - 1);
      }
      TailClashes(ms, run, h, x);
    }
  }

  // ---------- the creation plan ----------

  /** Exactly how many masters of a creation plan share a host with their slave: of the masters in the tail
      that are on the run's host, all but the one the rotated candidate can help. */
  lemma ColocationsExactly(addrs: seq<Address>)
    requires addrs != [] && NonEmptyIps(addrs)
    ensures |RoundRobin(addrs)| == |addrs|
    ensures var s := RoundRobin(addrs);
            Clashes(Masters(addrs), Slaves(addrs)) == if TailLoad(s) <= Helped(s) then 0 else TailLoad(s) - Helped(s)
    ensures Separated(addrs) <==> TailLoad(RoundRobin(addrs)) <= Helped(RoundRobin(addrs))
  {
    hide Load, RoundRobin, Paired, Clashes, TailLoad, Helped, Ordered, SamePerHost;
    RoundRobinInterleaves(addrs);
    var s := RoundRobin(addrs);
    forall i | 0 <= i < |s| ensures s[i].ip != "" {
      assert s[i] in multiset(addrs);
      assert s[i] in addrs;
    }
    InterleavingClashes(s);
    CandidatesAreRotated(addrs);
    ClashesCount(Masters(addrs), Slaves(addrs));
  }

  lemma CandidatesAreRotated(addrs: seq<Address>)
    requires addrs != [] && |RoundRobin(addrs)| == |addrs|
    ensures Masters(addrs) == RoundRobin(addrs)[..|addrs| / 2]
    ensures Candidates(addrs) == Rotated(RoundRobin(addrs))
  {
    hide RoundRobin;
    var s := RoundRobin(addrs);
    assert s[|s| / 2..][1..] == s[|s| / 2 + 1..] && s[|s| / 2..][..1] == [s[|s| / 2]];
  }

  // ---------- a spread within one is not enough ----------

  /** Ten pods on three hosts, three, three and four, in the order of their turns. */
  function TenPods(): seq<Address> {
    [Address("0", "a"), Address("1", "b"), Address("2", "c"), Address("3", "a"), Address("4", "b"),
     Address("5", "c"), Address("6", "a"), Address("7", "b"), Address("8", "c"), Address("9", "c")]
  }

  /** The host and the round of turn i. */
  function TurnHost(i: nat): string {
    if i == 9 || i % 3 == 2 then "c" else if i % 3 == 1 then "b" else "a"
  }

  function TurnRound(i: nat): nat { i / 3 }

  lemma TenPodsTurns()
    ensures |TenPods()| == 10 && NonEmptyIps(TenPods())
    ensures forall i :: 0 <= i < 10 ==> TenPods()[i].node == TurnHost(i)
  {
    var s := TenPods();
    assert s[0].node == TurnHost(0) && s[1].node == TurnHost(1) && s[2].node == TurnHost(2) && s[3].node == TurnHost(3);
    assert s[4].node == TurnHost(4) && s[5].node == TurnHost(5) && s[6].node == TurnHost(6) && s[7].node == TurnHost(7);
    assert s[8].node == TurnHost(8) && s[9].node == TurnHost(9);
  }

  lemma {:induction false} TenPodsLoads(i: nat)
    requires i <= 10
    ensures |TenPods()| == 10
    ensures var s := TenPods()[..i];
            && Load(s, "a") == (if i == 10 then 3 else (i + 2) / 3)
            && Load(s, "b") == (if i == 10 then 3 else (i + 1) / 3)
            && Load(s, "c") == (if i == 10 then 4 else i / 3)
  {
    hide Load, TenPods;
    TenPodsTurns();
    HostNames();
    var s := TenPods();
    if i == 0 {
      NoLoad(s[..0], "a");
      NoLoad(s[..0], "b");
      NoLoad(s[..0], "c");
    } else {
      TenPodsLoads(i - 1);
      assert s[..i] == s[..i - 1] + [s[i - 1]];
      LoadSnoc(s[..i - 1], s[i - 1], "a");
      LoadSnoc(s[..i - 1], s[i - 1], "b");
      LoadSnoc(s[..i - 1], s[i - 1], "c");
    }
  }

  lemma HostNames()
    ensures "a" != "b" && "a" != "c" && "b" != "c"
  {
    assert "a"[0] != "b"[0] && "a"[0] != "c"[0] && "b"[0] != "c"[0];
  }

  lemma TenPodsOrdered()
    ensures Ordered(TenPods())
  {
    hide Load, TenPods, Le;
    TenPodsTurns();
    HostNames();
    HostOrder();
    var s := TenPods();
    forall i | 0 <= i < 10 ensures Round(s, i) == TurnRound(i) {
      TenPodsLoads(i);
    }
    forall i, j | 0 <= i < j < 10 ensures Before(TurnRound(i), TurnHost(i), TurnRound(j), TurnHost(j)) {
    }
  }

  /** Hosts a, b and c hold three, three and four pods, and masters and slaves can be paired apart; yet the
      plan makes one pair on host c. */
  lemma SpreadWithinOneMayColocate()
    ensures var addrs := TenPods();
            && NonEmptyIps(addrs) && addrs != []
            && Load(addrs, "a") == Load(addrs, "b") == 3 && Load(addrs, "c") == 4
            && Clashes(Masters(addrs), Slaves(addrs)) == 1 && !Separated(addrs)
            && exists slaves :: Separates(addrs, slaves)
  {
    hide Load, TenPods, Masters, Slaves, Clashes, RunFrom;
    var s := TenPods();
    TenPodsTurns();
    TenPodsLoads(10);
    assert s[..10] == s;
    TenPodsOrdered();
    InterleavingIsRoundRobin(s, s);
    ColocationsExactly(s);
    TenPodsTail();
    ClashesCount(Masters(s), Slaves(s));
    TenPodsApart();
  }

  lemma TenPodsTail()
    ensures |TenPods()| == 10 && TailLoad(TenPods()) == 1 && Helped(TenPods()) == 0
  {
    hide Load, TenPods, RunFrom;
    TenPodsTurns();
    HostNames();
    var s := TenPods();
    var k := RunStart(s);
    assert s[9].node == "c" && s[8].node == "c" && s[7].node == "b";
    assert k == 8;
    assert Rotated(s)[0] == s[6] && Rotated(s)[1] == s[7];
    assert Passed(s, 1) && !Passed(s, 2);
    assert TailStart(s) == 2;
    TenPodsLoads(2);
    TenPodsLoads(5);
    assert s[..5] == s[..2] + s[2..5];
    LoadConcat(s[..2], s[2..5], "c");
  }

  lemma LeftOver<T>(a: multiset<T>, b: multiset<T>, c: multiset<T>)
    requires a + b == a + c
    ensures b == c
  {
    forall x ensures b[x] == c[x] {
      assert (a + b)[x] == (a + c)[x];
    }
  }

  lemma TenPodsPlan()
    ensures TenPods() != [] && |TenPods()| == 10 && Masters(TenPods()) == TenPods()[..5]
    ensures multiset(Slaves(TenPods())) == multiset(TenPods()[5..])
  {
    hide TenPods, Slaves, RoundRobin, Outside;
    TenPodsTurns();
    var s := TenPods();
    TenPodsOrdered();
    InterleavingIsRoundRobin(s, s);
    CreationConserves(s);
    assert s == s[..5] + s[5..];
    LeftOver(multiset(s[..5]), multiset(Slaves(s)), multiset(s[5..]));
  }

  lemma SwapEnds<T>(t: seq<T>)
    requires |t| >= 2
    ensures multiset([t[|t| - 1]] + t[1..|t| - 1] + [t[0]]) == multiset(t)
  {
    assert t == [t[0]] + t[1..|t| - 1] + [t[|t| - 1]];
  }

  lemma TenPodsHosts()
    ensures |TenPods()| == 10
    ensures Nodes(TenPods()) == ["a", "b", "c", "a", "b", "c", "a", "b", "c", "c"]
  {
  }

  lemma TenPodsApart()
    ensures TenPods() != [] && exists slaves :: Separates(TenPods(), slaves)
  {
    hide TenPods, Slaves, Masters, TurnHost;
    TenPodsHosts();
    HostNames();
    TenPodsPlan();
    var s := TenPods();
    var rest := s[5..];
    var slaves := [rest[4]] + rest[1..4] + [rest[0]];
    SwapEnds(rest);
    var hosts := Nodes(s);
    assert forall i :: 0 <= i < 5 ==> Masters(s)[i].node == hosts[i];
    assert slaves[0].node == hosts[9] && slaves[1].node == hosts[6] && slaves[2].node == hosts[7];
    assert slaves[3].node == hosts[8] && slaves[4].node == hosts[5];
    forall i ensures !Colocated(Masters(s), slaves, i) { }
    assert Separates(s, slaves);
  }
}
