/** Manual slot assignment: one strategy for each new master, applied one command at a time, and
    resumed by giving the masters that still have no slots the last strategies. */
module Reshard {
  import opened Counting
  import opened Wrappers
  import opened Hosts
  import opened ScalePlan
  import opened Topology
  import opened Repair
  import opened Steps
  import opened Runs

  datatype Strategy = Strategy(slots: nat, from: string)

  /** Strategy number `strategy` of the whole list was applied to this node. */
  datatype Assigned = Assigned(strategy: nat, node: string)

  /** The masters without slots, and every assignment that took effect, in order. A source keeps some
      of its slots. */
  datatype Slots = Slots(empty: set<string>, log: seq<Assigned>)

  datatype Shards = Shards(slots: Slots, clock: nat)

  datatype ShardRun = ShardRun(shards: Shards, status: Status)

  function Apply(s: Slots, strategies: seq<Strategy>, base: nat, i: nat, node: string): Slots
    requires i < |strategies|
  {
    Slots(if strategies[i].slots > 0 then s.empty - {node} else s.empty, s.log + [Assigned(base + i, node)])
  }

  /** `reshareRedisClusterSlotsToMasterNode` from position i on, for strategies that start at number
      `base` of the whole list. Too few strategies index out of range. */
  function Reshare(env: Env, w: Shards, strategies: seq<Strategy>, base: nat, nodes: seq<string>, i: nat): ShardRun
    requires i <= |nodes|
    decreases |nodes| - i
  {
    if i == |nodes| then ShardRun(w, Done)
    else if env.answer(w.clock) != Works then ShardRun(w.(clock := w.clock + 1), Error)
    else if i >= |strategies| then ShardRun(w.(clock := w.clock + 1), Panicked)
    else if env.answer(w.clock + 1).FailsBefore? then ShardRun(w.(clock := w.clock + 2), Error)
    else
      var w' := Shards(Apply(w.slots, strategies, base, i, nodes[i]), w.clock + 2);
      if env.answer(w.clock + 1).FailsAfter? then ShardRun(w', Error)
      else Reshare(env, w', strategies, base, nodes, i + 1)
  }

  /** The resuming branch: `listing` is whatever order the zero-slot masters are listed in. */
  function Resume(env: Env, w: Shards, strategies: seq<Strategy>, listing: seq<string>): ShardRun {
    if listing == [] then ShardRun(w, Done)
    else if |strategies| < |listing| then ShardRun(w, Error)
    else Reshare(env, w, strategies[|strategies| - |listing|..], |strategies| - |listing|, listing, 0)
  }

  class SlotOperator {
    const env: Env
    var slots: Slots
    var clock: nat

    constructor (env: Env, slots: Slots)
      ensures this.env == env && State() == Shards(slots, 0)
    {
      this.env, this.slots, this.clock := env, slots, 0;
    }

    function State(): Shards
      reads this
    {
      Shards(slots, clock)
    }

    method ReshareRedisClusterSlotsToMasterNode(strategies: seq<Strategy>, base: nat, newMasterNodeIds: seq<string>)
      returns (s: Status)
      modifies this
      ensures ShardRun(State(), s) == Reshare(env, old(State()), strategies, base, newMasterNodeIds, 0)
    {
      var i := 0;
      while i < |newMasterNodeIds|
        invariant 0 <= i <= |newMasterNodeIds|
        invariant Reshare(env, old(State()), strategies, base, newMasterNodeIds, 0)
               == Reshare(env, State(), strategies, base, newMasterNodeIds, i)
      {
        var ok := env.answer(clock).Works?;
        clock := clock + 1;
        if !ok {
          return Error;
        }
        if i >= |strategies| {
          return Panicked;
        }
        var answer := env.answer(clock);
        clock := clock + 1;
        if answer.FailsBefore? {
          return Error;
        }
        slots := Apply(slots, strategies, base, i, newMasterNodeIds[i]);
        if answer.FailsAfter? {
          return Error;
        }
        i := i + 1;
      }
      s := Done;
    }

    /** The branch that resumes an interrupted assignment. */
    method FixAssignReceive(strategies: seq<Strategy>) returns (s: Status, listing: seq<string>)
      modifies this
      ensures Enumerates(listing, old(slots).empty)
      ensures ShardRun(State(), s) == Resume(env, old(State()), strategies, listing)
    {
      listing := ListEmpty();
      if |listing| == 0 {
        return Done, listing;
      }
      if |strategies| < |listing| {
        return Error, listing;
      }
      var base := |strategies| - |listing|;
      s := ReshareRedisClusterSlotsToMasterNode(strategies[base..], base, listing);
    }

    /** `redis-trib info`, reduced to the masters without slots, in no particular order. */
    method ListEmpty() returns (listing: seq<string>)
      ensures Enumerates(listing, slots.empty)
    {
      listing := [];
      var todo := slots.empty;
      while todo != {}
        invariant todo <= slots.empty
        invariant Enumerates(listing, slots.empty - todo)
        decreases todo
      {
        var id :| id in todo;
        IpSetSnoc(listing, id);
        listing := listing + [id];
        todo := todo - {id};
      }
    }
  }

  ghost predicate Enumerates(listing: seq<string>, s: set<string>) {
    Distinct(listing) && IpSet(listing) == s
  }

  // ---------- which strategy goes to which master ----------

  /** The assignments of strategies i, i + 1, ... to nodes i, i + 1, ..., up to but not including j. */
  ghost predicate LogGrows(log: seq<Assigned>, log': seq<Assigned>, base: nat, nodes: seq<string>, i: nat, j: nat)
    requires i <= j <= |nodes|
  {
    && |log'| == |log| + j - i && log'[..|log|] == log
    && forall k :: i <= k < j ==> log'[|log| + k - i] == Assigned(base + k, nodes[k])
  }

  /** Those of them that moved slots are no longer without. */
  ghost predicate Filled(was: set<string>, now: set<string>, strategies: seq<Strategy>, nodes: seq<string>, i: nat,
                         j: nat)
    requires i <= j <= |nodes| && j <= |strategies|
  {
    forall m :: m in now <==> m in was && forall k :: i <= k < j && nodes[k] == m ==> strategies[k].slots == 0
  }

  lemma AppliedNext(s: Slots, log': seq<Assigned>, now: set<string>, strategies: seq<Strategy>, base: nat,
                    nodes: seq<string>, i: nat, j: nat)
    requires i < j <= |nodes| && j <= |strategies|
    requires var t := Apply(s, strategies, base, i, nodes[i]);
             && LogGrows(t.log, log', base, nodes, i + 1, j) && Filled(t.empty, now, strategies, nodes, i + 1, j)
    ensures LogGrows(s.log, log', base, nodes, i, j) && Filled(s.empty, now, strategies, nodes, i, j)
  {
    var t := Apply(s, strategies, base, i, nodes[i]);
    assert log'[..|s.log|] == log'[..|t.log|][..|s.log|] == s.log;
    assert log'[|s.log|] == log'[..|t.log|][|s.log|];
  }

  /** An assignment, wherever it stops: strategy k has gone to node k for every k up to there, in order, and
      to nobody else. It reports success only at the end, panics exactly where the strategies run out, and
      issues no command after one that failed. */
  lemma {:induction false} ReshareStops(env: Env, w: Shards, strategies: seq<Strategy>, base: nat,
                                        nodes: seq<string>, i: nat)
    returns (j: nat)
    requires i <= |nodes| && i <= |strategies|
    ensures i <= j <= |nodes| && j <= |strategies|
    ensures var run := Reshare(env, w, strategies, base, nodes, i);
            && LogGrows(w.slots.log, run.shards.slots.log, base, nodes, i, j)
            && Filled(w.slots.empty, run.shards.slots.empty, strategies, nodes, i, j)
            && (run.status == Done ==> j == |nodes| && run.shards.clock == w.clock + 2 * (j - i))
            && (run.status == Panicked ==> j == |strategies| < |nodes| && run.shards.clock == w.clock + 2 * (j - i) + 1)
            && run.status != Hung
            && (Quiet(env, w.clock) ==> j == Min(|nodes|, |strategies|))
            && (forall t :: w.clock <= t < run.shards.clock - 1 ==> env.answer(t).Works?)
            && (run.status != Error && w.clock < run.shards.clock ==> env.answer(run.shards.clock - 1).Works?)
            && (run.status == Error ==> w.clock < run.shards.clock && !env.answer(run.shards.clock - 1).Works?)
    decreases |nodes| - i
  {
    hide Quiet, LogGrows, Filled;
    j := i;
    QuietFrom(env, w.clock);
    QuietFrom(env, w.clock + 1);
    NothingApplied(w.slots, base, strategies, nodes, i);
    if i < |nodes| && i < |strategies| && env.answer(w.clock).Works? && !env.answer(w.clock + 1).FailsBefore? {
      var s := Apply(w.slots, strategies, base, i, nodes[i]);
      if env.answer(w.clock + 1).Works? {
        j := ReshareStops(env, Shards(s, w.clock + 2), strategies, base, nodes, i + 1);
      } else {
        j := i + 1;
        NothingApplied(s, base, strategies, nodes, i + 1);
      }
      var run := Reshare(env, w, strategies, base, nodes, i);
      AppliedNext(w.slots, run.shards.slots.log, run.shards.slots.empty, strategies, base, nodes, i, j);
    }
  }

  lemma NothingApplied(s: Slots, base: nat, strategies: seq<Strategy>, nodes: seq<string>, i: nat)
    requires i <= |nodes| && i <= |strategies|
    ensures LogGrows(s.log, s.log, base, nodes, i, i) && Filled(s.empty, s.empty, strategies, nodes, i, i)
  {
  }

  /** A first, undisturbed assignment gives new master k strategy k, and exactly those whose strategy moves
      slots have some. */
  lemma FirstAssignment(env: Env, clock: nat, strategies: seq<Strategy>, nodes: seq<string>)
    requires Quiet(env, clock) && |nodes| <= |strategies|
    ensures var run := Reshare(env, Shards(Slots(IpSet(nodes), []), clock), strategies, 0, nodes, 0);
            && run.status == Done
            && run.shards.slots.log == seq(|nodes|, k requires 0 <= k < |nodes| => Assigned(k, nodes[k]))
            && Filled(IpSet(nodes), run.shards.slots.empty, strategies, nodes, 0, |nodes|)
  {
    hide Quiet, Filled, Reshare;
    var w := Shards(Slots(IpSet(nodes), []), clock);
    var j := ReshareStops(env, w, strategies, 0, nodes, 0);
    ReshareInRange(env, w, strategies, 0, nodes, 0);
  }

  /** A resumed assignment: nothing to do is done at once, too few strategies are refused, both without a
      command; otherwise the last strategies go to the masters listed, in the order of the listing. */
  lemma ResumeStops(env: Env, w: Shards, strategies: seq<Strategy>, listing: seq<string>) returns (j: nat)
    ensures j <= |listing|
    ensures var run := Resume(env, w, strategies, listing);
            if listing == [] then run == ShardRun(w, Done)
            else if |strategies| < |listing| then run == ShardRun(w, Error)
            else
              var base := |strategies| - |listing|;
              && LogGrows(w.slots.log, run.shards.slots.log, base, listing, 0, j)
              && Filled(w.slots.empty, run.shards.slots.empty, strategies[base..], listing, 0, j)
              && (run.status == Done || run.status == Error) && (run.status == Done ==> j == |listing|)
              && (Quiet(env, w.clock) ==> run.status == Done)
  {
    hide Quiet, LogGrows, Filled, Reshare;
    j := 0;
    if listing != [] && |strategies| >= |listing| {
      var base := |strategies| - |listing|;
      j := ReshareStops(env, w, strategies[base..], base, listing, 0);
      if Quiet(env, w.clock) {
        ReshareInRange(env, w, strategies[base..], base, listing, 0);
      }
    }
  }

  /** Two new masters and strategies of 100 slots from A and 50 from B: the first gets the first. */
  lemma TwoStrategies(env: Env, clock: nat)
    requires Quiet(env, clock)
    ensures var strategies := [Strategy(100, "A"), Strategy(50, "B")];
            var run := Reshare(env, Shards(Slots({"m1", "m2"}, []), clock), strategies, 0, ["m1", "m2"], 0);
            run == ShardRun(Shards(Slots({}, [Assigned(0, "m1"), Assigned(1, "m2")]), clock + 4), Done)
  {
  }

  // ---------- every strategy once, every new master once ----------

  /** However far the assignment has come: strategies 0, 1, 2, ... have been applied once each, each to
      a different new master, and exactly the other new masters are without slots. */
  ghost predicate Progress(s: Slots, recent: set<string>, count: nat) {
    && |s.log| + |s.empty| == count == |recent|
    && s.empty <= recent
    && (forall i :: 0 <= i < |s.log| ==> s.log[i].strategy == i && s.log[i].node in recent - s.empty)
    && (forall i, j :: 0 <= i < j < |s.log| ==> s.log[i].node != s.log[j].node)
  }

  ghost predicate AllPositive(strategies: seq<Strategy>) {
    forall i :: 0 <= i < |strategies| ==> strategies[i].slots > 0
  }

  lemma ApplyKeeps(s: Slots, recent: set<string>, strategies: seq<Strategy>, base: nat, nodes: seq<string>, i: nat)
    requires i < |nodes| == |strategies| && AllPositive(strategies)
    requires Progress(s, recent, base + |strategies|) && Enumerates(nodes[i..], s.empty) && |s.log| == base + i
    ensures var s' := Apply(s, strategies, base, i, nodes[i]);
            && Progress(s', recent, base + |strategies|)
            && Enumerates(nodes[i + 1..], s'.empty) && |s'.log| == base + i + 1
  {
    hide IpSet, Distinct, Progress;
    assert nodes[i..][0] == nodes[i] && nodes[i..][1..] == nodes[i + 1..];
    ConsDistinct(nodes[i..]);
    ApplyProgress(s, recent, strategies, base, i, nodes[i]);
  }

  lemma ApplyProgress(s: Slots, recent: set<string>, strategies: seq<Strategy>, base: nat, i: nat, node: string)
    requires i < |strategies| && strategies[i].slots > 0 && node in s.empty
    requires Progress(s, recent, base + |strategies|) && |s.log| == base + i
    ensures Progress(Apply(s, strategies, base, i, node), recent, base + |strategies|)
  {
  }

  /** One attempt, wherever it stops, makes progress in order; done means nobody is left. */
  lemma {:induction false} ReshareKeeps(env: Env, w: Shards, recent: set<string>, strategies: seq<Strategy>, base: nat,
                                        nodes: seq<string>, i: nat)
    requires i <= |nodes| == |strategies| && AllPositive(strategies)
    requires Progress(w.slots, recent, base + |strategies|) && Enumerates(nodes[i..], w.slots.empty)
    requires |w.slots.log| == base + i
    ensures var run := Reshare(env, w, strategies, base, nodes, i);
            && Progress(run.shards.slots, recent, base + |strategies|)
            && (run.status == Done ==> run.shards.slots.empty == {})
            && run.status != Panicked
            && (Quiet(env, w.clock) ==> run.status == Done)
    decreases |nodes| - i
  {
    hide Progress, AllPositive, Enumerates;
    if i < |nodes| {
      ApplyKeeps(w.slots, recent, strategies, base, nodes, i);
      var w' := Shards(Apply(w.slots, strategies, base, i, nodes[i]), w.clock + 2);
      ReshareKeeps(env, w', recent, strategies, base, nodes, i + 1);
    } else {
      EnumeratesNothing(nodes[i..], w.slots.empty);
    }
  }

  lemma EnumeratesNothing(listing: seq<string>, s: set<string>)
    requires Enumerates(listing, s)
    ensures |listing| == |s|
    ensures listing == [] ==> s == {}
  {
    DistinctCount(listing);
  }

  /** A resumed attempt does the same from wherever the last one stopped. */
  lemma ResumeKeeps(env: Env, w: Shards, recent: set<string>, strategies: seq<Strategy>, listing: seq<string>)
    requires AllPositive(strategies) && Progress(w.slots, recent, |strategies|) && Enumerates(listing, w.slots.empty)
    ensures var run := Resume(env, w, strategies, listing);
            && Progress(run.shards.slots, recent, |strategies|)
            && (run.status == Done ==> run.shards.slots.empty == {})
            && run.status != Panicked
            && (Quiet(env, w.clock) ==> run.status == Done)
  {
    hide Reshare, Quiet;
    EnumeratesNothing(listing, w.slots.empty);
    if listing != [] {
      var base := |strategies| - |listing|;
      assert listing[0..] == listing;
      ReshareKeeps(env, w, recent, strategies[base..], base, listing, 0);
    }
  }

  /** Attempts one after the other, each with the listing it happens to get. */
  function Attempts(env: Env, w: Shards, strategies: seq<Strategy>, listings: seq<seq<string>>): Shards
    decreases |listings|
  {
    if listings == [] then w
    else Attempts(env, Resume(env, w, strategies, listings[0]).shards, strategies, listings[1..])
  }

  ghost predicate Listings(env: Env, w: Shards, strategies: seq<Strategy>, listings: seq<seq<string>>)
    decreases |listings|
  {
    listings == [] ||
    (Enumerates(listings[0], w.slots.empty)
     && Listings(env, Resume(env, w, strategies, listings[0]).shards, strategies, listings[1..]))
  }

  lemma {:induction false} AttemptsKeep(env: Env, w: Shards, recent: set<string>, strategies: seq<Strategy>,
                                        listings: seq<seq<string>>)
    requires AllPositive(strategies) && Progress(w.slots, recent, |strategies|)
    requires Listings(env, w, strategies, listings)
    ensures Progress(Attempts(env, w, strategies, listings).slots, recent, |strategies|)
    decreases |listings|
  {
    hide Progress, AllPositive, Enumerates, Resume;
    if listings != [] {
      ResumeKeeps(env, w, recent, strategies, listings[0]);
      AttemptsKeep(env, Resume(env, w, strategies, listings[0]).shards, recent, strategies, listings[1..]);
    }
  }

  /** Reshard resume: with positive slot counts, over any number of interrupted attempts and whatever
      order the masters are listed in, once nobody is without slots every strategy has been applied
      exactly once and every new master has received exactly one. */
  lemma EveryStrategyOnce(env: Env, recent: set<string>, strategies: seq<Strategy>, listings: seq<seq<string>>)
    requires AllPositive(strategies) && |recent| == |strategies|
    requires Listings(env, Shards(Slots(recent, []), 0), strategies, listings)
    requires Attempts(env, Shards(Slots(recent, []), 0), strategies, listings).slots.empty == {}
    ensures var log := Attempts(env, Shards(Slots(recent, []), 0), strategies, listings).slots.log;
            && |log| == |strategies|
            && (forall i :: 0 <= i < |log| ==> log[i].strategy == i)
            && (forall m :: m in recent ==> exists i :: 0 <= i < |log| && log[i].node == m)
            && (forall i, j :: 0 <= i < j < |log| ==> log[i].node != log[j].node)
  {
    var start := Shards(Slots(recent, []), 0);
    AttemptsKeep(env, start, recent, strategies, listings);
    var log := Attempts(env, start, strategies, listings).slots.log;
    var nodes := seq(|log|, i requires 0 <= i < |log| => log[i].node);
    DistinctCount(nodes);
    Hosts.SubsetSize(IpSet(nodes), recent);
    assert recent - IpSet(nodes) == {};
    forall m | m in recent ensures exists i :: 0 <= i < |log| && log[i].node == m {
      assert m in IpSet(nodes);
      var i :| 0 <= i < |nodes| && nodes[i] == m;
      assert log[i].node == m;
    }
  }

  // ---------- exactly when resuming is right ----------

  /** The first j commands take effect, then the attempt stops. */
  function Cut(s: Slots, strategies: seq<Strategy>, base: nat, nodes: seq<string>, j: nat): Slots
    requires j <= |nodes| && j <= |strategies|
    decreases j
  {
    if j == 0 then s else Apply(Cut(s, strategies, base, nodes, j - 1), strategies, base, j - 1, nodes[j - 1])
  }

  /** Interrupted after j commands and resumed to the end, no strategy is applied twice. */
  ghost predicate ResumesRight(strategies: seq<Strategy>, nodes: seq<string>, j: nat)
    requires j <= |nodes| == |strategies|
  {
    var cut := Cut(Slots(IpSet(nodes), []), strategies, 0, nodes, j);
    forall listing :: Enumerates(listing, cut.empty) && |listing| <= |strategies| ==>
      var base := |strategies| - |listing|;
      var log := Cut(cut, strategies[base..], base, listing, |listing|).log;
      forall a, b :: 0 <= a < b < |log| ==> log[a].strategy != log[b].strategy
  }

  lemma {:induction false} CutKeeps(s: Slots, recent: set<string>, strategies: seq<Strategy>, base: nat,
                                    nodes: seq<string>, j: nat)
    requires j <= |nodes| == |strategies| && AllPositive(strategies)
    requires Progress(s, recent, base + |strategies|) && Enumerates(nodes, s.empty) && |s.log| == base
    ensures var c := Cut(s, strategies, base, nodes, j);
            Progress(c, recent, base + |strategies|) && Enumerates(nodes[j..], c.empty) && |c.log| == base + j
    decreases j
  {
    hide Progress, AllPositive, Enumerates;
    if j == 0 {
      assert nodes[0..] == nodes;
    } else {
      CutKeeps(s, recent, strategies, base, nodes, j - 1);
      ApplyKeeps(Cut(s, strategies, base, nodes, j - 1), recent, strategies, base, nodes, j - 1);
    }
  }

  /** A zero strategy leaves its master listed as empty. */
  lemma {:induction false} CutLog(s: Slots, strategies: seq<Strategy>, base: nat, nodes: seq<string>, j: nat)
    requires j <= |nodes| && j <= |strategies|
    ensures var c := Cut(s, strategies, base, nodes, j);
            && |c.log| == |s.log| + j
            && (forall i :: 0 <= i < |s.log| ==> c.log[i] == s.log[i])
            && (forall i :: |s.log| <= i < |s.log| + j ==> c.log[i].strategy == base + i - |s.log|)
    decreases j
  {
    if j > 0 {
      CutLog(s, strategies, base, nodes, j - 1);
    }
  }

  /** Resuming never repeats a strategy, wherever the attempt was cut, if and only if every strategy
      moves at least one slot. */
  lemma ResumeExact(strategies: seq<Strategy>, nodes: seq<string>)
    requires |nodes| == |strategies| && Distinct(nodes)
    ensures (forall j :: 0 <= j <= |nodes| ==> ResumesRight(strategies, nodes, j)) <==> AllPositive(strategies)
  {
    if AllPositive(strategies) {
      forall j | 0 <= j <= |nodes| ensures ResumesRight(strategies, nodes, j) {
        PositiveResumesRight(strategies, nodes, j);
      }
    } else {
      var z := FirstZero(strategies);
      ZeroRepeats(strategies, nodes, z);
    }
  }

  lemma FirstZero(strategies: seq<Strategy>) returns (z: nat)
    requires !AllPositive(strategies)
    ensures z < |strategies| && strategies[z].slots == 0 && AllPositive(strategies[..z])
  {
    z := 0;
    while strategies[z].slots != 0
      invariant z < |strategies| && AllPositive(strategies[..z])
      decreases |strategies| - z
    {
      z := z + 1;
    }
  }

  lemma StartProgress(strategies: seq<Strategy>, nodes: seq<string>)
    requires |nodes| == |strategies| && Distinct(nodes)
    ensures Progress(Slots(IpSet(nodes), []), IpSet(nodes), |strategies|) && Enumerates(nodes, IpSet(nodes))
  {
    DistinctCount(nodes);
  }

  lemma PositiveResumesRight(strategies: seq<Strategy>, nodes: seq<string>, j: nat)
    requires j <= |nodes| == |strategies| && Distinct(nodes) && AllPositive(strategies)
    ensures ResumesRight(strategies, nodes, j)
  {
    hide Cut, Distinct, IpSet;
    var start, recent := Slots(IpSet(nodes), []), IpSet(nodes);
    StartProgress(strategies, nodes);
    CutKeeps(start, recent, strategies, 0, nodes, j);
    var cut := Cut(start, strategies, 0, nodes, j);
    forall listing | Enumerates(listing, cut.empty) && |listing| <= |strategies|
      ensures var base := |strategies| - |listing|;
              var log := Cut(cut, strategies[base..], base, listing, |listing|).log;
              forall a, b :: 0 <= a < b < |log| ==> log[a].strategy != log[b].strategy
    {
      EnumeratesNothing(listing, cut.empty);
      var base := |strategies| - |listing|;
      CutKeeps(cut, recent, strategies[base..], base, listing, |listing|);
    }
  }

  /** Cut right after a strategy that moves nothing: that strategy is applied again. */
  lemma ZeroRepeats(strategies: seq<Strategy>, nodes: seq<string>, z: nat)
    requires |nodes| == |strategies| && Distinct(nodes)
    requires z < |strategies| && strategies[z].slots == 0 && AllPositive(strategies[..z])
    ensures !ResumesRight(strategies, nodes, z + 1)
  {
    hide IpSet;
    var start := Slots(IpSet(nodes), []);
    CutEmpty(start, strategies, nodes, z);
    var cut := Cut(start, strategies, 0, nodes, z + 1);
    var listing := nodes[z..];
    assert Enumerates(listing, cut.empty);
    assert |strategies| - |listing| == z;
    CutLog(start, strategies, 0, nodes, z + 1);
    CutLog(cut, strategies[z..], z, listing, |listing|);
    var log := Cut(cut, strategies[z..], z, listing, |listing|).log;
    assert log[z].strategy == z && log[z + 1].strategy == z;
  }

  lemma {:induction false} CutEmpty(s: Slots, strategies: seq<Strategy>, nodes: seq<string>, z: nat)
    requires z <= |nodes| == |strategies| && Enumerates(nodes, s.empty) && AllPositive(strategies[..z])
    ensures Enumerates(nodes[z..], Cut(s, strategies, 0, nodes, z).empty)
    decreases z
  {
    hide IpSet;
    if z == 0 {
      assert nodes[0..] == nodes;
    } else {
      assert AllPositive(strategies[..z - 1]) by {
        assert forall i :: 0 <= i < z - 1 ==> strategies[..z - 1][i] == strategies[..z][i];
      }
      CutEmpty(s, strategies, nodes, z - 1);
      assert strategies[..z][z - 1] == strategies[z - 1];
      assert nodes[z - 1..][0] == nodes[z - 1] && nodes[z - 1..][1..] == nodes[z..];
      ConsDistinct(nodes[z - 1..]);
    }
  }

  // ---------- how many strategies the scale-up needs ----------

  datatype SyncAction = CreateCluster | CheckStatus | UpgradeCluster | RejectType | RejectStrategies | Nothing

  /** The StatefulSet as `sync` sees it: its status replicas, spec replicas, and whether it is being
      deleted. */
  datatype StatefulSet = StatefulSet(statusReplicas: nat, replicas: nat, deleting: bool)

  /** What `sync` decides to do. */
  function Decision(replicas: nat, sts: Option<StatefulSet>, updateType: UpdateType, strategies: nat): SyncAction {
    if sts.None? || sts.value.statusReplicas == 0 then CreateCluster
    else if replicas <= sts.value.replicas then CheckStatus
    else if sts.value.deleting then Nothing
    else if updateType == Other then RejectType
    else if updateType == AssignReceive && strategies != (replicas - sts.value.replicas) / 2 then RejectStrategies
    else UpgradeCluster
  }

  /** The decision part of `sync`. */
  method DecideSync(replicas: nat, sts: Option<StatefulSet>, updateType: UpdateType, strategies: nat)
    returns (a: SyncAction)
    ensures a == Decision(replicas, sts, updateType, strategies)
  {
    if sts.None? || sts.value.statusReplicas == 0 {
      return CreateCluster;
    }
    if replicas <= sts.value.replicas {
      return CheckStatus;
    }
    if sts.value.deleting {
      return Nothing;
    }
    if updateType != AssignReceive && updateType != AutoReceive {
      return RejectType;
    }
    var scaleLen := replicas - sts.value.replicas;
    if updateType == AssignReceive && strategies != scaleLen / 2 {
      return RejectStrategies;
    }
    a := UpgradeCluster;
  }

  /** Exactly when `sync` does what, for every input. */
  lemma DecisionExactly(replicas: nat, sts: Option<StatefulSet>, kind: UpdateType, strategies: nat)
    ensures var a := Decision(replicas, sts, kind, strategies);
            var there := sts.Some? && sts.value.statusReplicas > 0;
            var more := there && replicas > sts.value.replicas && !sts.value.deleting;
            && (a == CreateCluster <==> !there)
            && (a == CheckStatus <==> there && replicas <= sts.value.replicas)
            && (a == Nothing <==> there && replicas > sts.value.replicas && sts.value.deleting)
            && (a == RejectType <==> more && kind != AutoReceive && kind != AssignReceive)
            && (a == RejectStrategies <==>
                  more && kind == AssignReceive && strategies != (replicas - sts.value.replicas) / 2)
            && (a == UpgradeCluster <==>
                  more && (kind == AutoReceive
                           || (kind == AssignReceive && strategies == (replicas - sts.value.replicas) / 2)))
  {
  }

  /** `sync` takes this upgrade, from |before| to |after| pods, with manual assignment by so many
      strategies. */
  predicate Accepts(before: seq<Address>, after: seq<Address>, sts: StatefulSet, strategies: nat) {
    && sts.replicas == |before|
    && Decision(|after|, Some(sts), AssignReceive, strategies) == UpgradeCluster
  }

  /** Strategy arithmetic: whatever manual upgrade of a complete topology `sync` accepts, there is one
      strategy for each master the scale-up promotes, except from an odd to an even number of pods, where
      there is one too few. */
  lemma StrategiesMatchMasters(idOf: string -> string, r: Roles, before: seq<Address>, after: seq<Address>,
                               sts: StatefulSet, strategies: nat)
    requires GoodIds(idOf) && GoodAddrs(after) && Complete(idOf, r, before) && WellFormed(idOf, r, after)
    requires Accepts(before, after, sts, strategies)
    ensures var o := PlanFor(idOf, after, r);
            && o.Planned?
            && (strategies == |o.masters| <==> !(|before| % 2 == 1 && |after| % 2 == 0))
            && (|before| % 2 == 1 && |after| % 2 == 0 ==> strategies + 1 == |o.masters|)
  {
    hide WellFormed, PlanFor, GoodAddrs;
    PlanLengths(idOf, after, r);
  }

  /** So an accepted upgrade, undisturbed, indexes out of range in the slot assignment exactly from an odd
      to an even number of pods. */
  lemma AcceptedUpgradePanicsExactly(env: Env, w: Shards, r: Roles, before: seq<Address>, after: seq<Address>,
                                     sts: StatefulSet, strategies: seq<Strategy>, ids: seq<string>)
    requires GoodIds(env.idOf) && GoodAddrs(after) && Complete(env.idOf, r, before) && WellFormed(env.idOf, r, after)
    requires Accepts(before, after, sts, |strategies|) && Quiet(env, w.clock)
    requires PlanFor(env.idOf, after, r).Planned? ==> |ids| == |PlanFor(env.idOf, after, r).masters|
    ensures Reshare(env, w, strategies, 0, ids, 0).status == Panicked <==> |before| % 2 == 1 && |after| % 2 == 0
  {
    hide WellFormed, PlanFor, GoodAddrs, Reshare, Quiet;
    StrategiesMatchMasters(env.idOf, r, before, after, sts, |strategies|);
    ReshareInRange(env, w, strategies, 0, ids, 0);
  }

  /** An undisturbed assignment indexes out of range exactly when there are fewer strategies than
      masters. */
  lemma {:induction false} ReshareInRange(env: Env, w: Shards, strategies: seq<Strategy>, base: nat,
                                          nodes: seq<string>, i: nat)
    requires i <= |nodes| && i <= |strategies| && Quiet(env, w.clock)
    ensures Reshare(env, w, strategies, base, nodes, i).status == (if |strategies| < |nodes| then Panicked else Done)
    decreases |nodes| - i
  {
    if i < |nodes| && i < |strategies| {
      var w' := Shards(Apply(w.slots, strategies, base, i, nodes[i]), w.clock + 2);
      ReshareInRange(env, w', strategies, base, nodes, i + 1);
    }
  }
}
