/** The work queue with one detached goroutine for each key taken, as a machine whose steps may
    interleave in any order. */
module WorkQueue {
  import opened Counting

  type Key = string

  const MAX_RETRIES: nat := 15

  /** A goroutine syncs, then handles the outcome, then marks its key done: the deferred calls of
      `syncRedisCluster` in the order they run. */
  datatype Stage = Syncing | Handled

  datatype Goroutine = Goroutine(key: Key, stage: Stage)

  /** How a sync ends. A recovered panic leaves the error nil; a key that does not split returns its
      error before the recovery is set up. */
  datatype Outcome = Synced | SyncError | Panic | BadKey

  /** What happened, for the record. */
  datatype Entry = Added(key: Key) | Got(key: Key) | DoneWith(key: Key) | Limited(key: Key) | Forgot(key: Key)

  datatype State = State(
    queue: seq<Key>, dirty: set<Key>, processing: set<Key>, requeues: map<Key, nat>, timers: multiset<Key>,
    goroutines: seq<Goroutine>, log: seq<Entry>)

  const START := State([], {}, {}, map[], multiset{}, [], [])

  /** What can happen next: an event or a due timer adds a key, a worker takes one, goroutine i's sync
      ends, goroutine i marks its key done. */
  datatype Action = Add(key: Key) | TimerFires(key: Key) | Get | SyncEnds(i: nat, outcome: Outcome) | Finish(i: nat)

  predicate Enabled(s: State, a: Action) {
    match a
    case Add(_) => true
    case TimerFires(k) => k in s.timers
    case Get => s.queue != []
    case SyncEnds(i, _) => i < |s.goroutines| && s.goroutines[i].stage == Syncing
    case Finish(i) => i < |s.goroutines| && s.goroutines[i].stage == Handled
  }

  function Requeues(s: State, k: Key): nat {
    if k in s.requeues then s.requeues[k] else 0
  }

  /** Adding a key marks it dirty, and queues it unless it is being processed. */
  function AddKey(s: State, k: Key): State {
    if k in s.dirty then s.(log := s.log + [Added(k)])
    else s.(dirty := s.dirty + {k},
            queue := if k in s.processing then s.queue else s.queue + [k],
            log := s.log + [Added(k)])
  }

  function Forget(s: State, k: Key): State {
    s.(requeues := s.requeues[k := 0], log := s.log + [Forgot(k)])
  }

  /** `handleErr`. */
  function HandleErr(s: State, k: Key, failed: bool): State {
    if !failed then Forget(s, k)
    else if Requeues(s, k) < MAX_RETRIES then
      s.(requeues := s.requeues[k := Requeues(s, k) + 1], timers := s.timers + multiset{k}, log := s.log + [Limited(k)])
    else Forget(s, k)
  }

  /** `Done` queues a key again that became dirty meanwhile. */
  function DoneKey(s: State, k: Key): State {
    s.(processing := s.processing - {k},
       queue := if k in s.dirty then s.queue + [k] else s.queue,
       log := s.log + [DoneWith(k)])
  }

  function RemoveGoroutine(goroutines: seq<Goroutine>, i: nat): seq<Goroutine>
    requires i < |goroutines|
  {
    goroutines[..i] + goroutines[i + 1..]
  }

  function Next(s: State, a: Action): State
    requires Enabled(s, a)
  {
    match a
    case Add(k) => AddKey(s, k)
    case TimerFires(k) => AddKey(s.(timers := s.timers - multiset{k}), k)
    case Get =>
      var k := s.queue[0];
      s.(queue := s.queue[1..], processing := s.processing + {k}, dirty := s.dirty - {k},
         goroutines := s.goroutines + [Goroutine(k, Syncing)], log := s.log + [Got(k)])
    case SyncEnds(i, outcome) =>
      var k := s.goroutines[i].key;
      var failed := outcome == SyncError || outcome == BadKey;
      HandleErr(s, k, failed).(goroutines := s.goroutines[i := Goroutine(k, Handled)])
    case Finish(i) =>
      DoneKey(s, s.goroutines[i].key).(goroutines := RemoveGoroutine(s.goroutines, i))
  }

  /** The operator's methods on its queue. */
  class OperatorQueue {
    var state: State

    constructor ()
      ensures state == START
    {
      state := START;
    }

    /** `enqueue`. */
    method Enqueue(k: Key)
      modifies this
      ensures state == Next(old(state), Add(k))
    {
      state := state.(log := state.log + [Added(k)]);
      if k in state.dirty {
        return;
      }
      state := state.(dirty := state.dirty + {k});
      if k !in state.processing {
        state := state.(queue := state.queue + [k]);
      }
    }

    /** `processNextWorkItem`: take a key and sync it on a goroutine of its own. */
    method ProcessNextWorkItem() returns (more: bool)
      requires state.queue != []
      modifies this
      ensures more && state == Next(old(state), Get)
    {
      var key := state.queue[0];
      state := state.(queue := state.queue[1..], processing := state.processing + {key}, dirty := state.dirty - {key},
                      log := state.log + [Got(key)]);
      state := state.(goroutines := state.goroutines + [Goroutine(key, Syncing)]);
      more := true;
    }

    /** `handleErr`. */
    method HandleError(k: Key, failed: bool)
      modifies this
      ensures state == HandleErr(old(state), k, failed)
    {
      if !failed {
        state := Forget(state, k);
        return;
      }
      if Requeues(state, k) < MAX_RETRIES {
        state := state.(requeues := state.requeues[k := Requeues(state, k) + 1],
                        timers := state.timers + multiset{k}, log := state.log + [Limited(k)]);
        return;
      }
      state := Forget(state, k);
    }

    /** The deferred functions of `syncRedisCluster`: recovery, then handling, then `Done`. The first
        half, which another goroutine's steps may follow before the second. */
    method EndSync(i: nat, outcome: Outcome)
      requires Enabled(state, SyncEnds(i, outcome))
      modifies this
      ensures state == Next(old(state), SyncEnds(i, outcome))
    {
      var key := state.goroutines[i].key;
      var failed := false;
      match outcome {
        case Synced =>
        case Panic => // recovered; the named result is still nil
        case SyncError => failed := true;
        case BadKey => failed := true;
      }
      HandleError(key, failed);
      state := state.(goroutines := state.goroutines[i := Goroutine(key, Handled)]);
    }

    /** The second half: `Done`, and the goroutine ends. Nobody then syncs its key, which is queued again
        exactly if it became dirty meanwhile. */
    method FinishSync(i: nat)
      requires Enabled(state, Finish(i))
      modifies this
      ensures state == Next(old(state), Finish(i))
      ensures Sound(old(state)) ==>
        var key := old(state).goroutines[i].key;
        Sound(state) && !InFlight(state, key) && (key in state.queue <==> key in old(state).dirty)
    {
      if Sound(state) { DoneReleases(state, i); }
      var key := state.goroutines[i].key;
      state := state.(processing := state.processing - {key}, log := state.log + [DoneWith(key)]);
      if key in state.dirty {
        state := state.(queue := state.queue + [key]);
      }
      state := state.(goroutines := RemoveGoroutine(state.goroutines, i));
    }
  }

  // ---------- runs ----------

  ghost predicate Run(s: State, actions: seq<Action>, s': State)
    decreases |actions|
  {
    if actions == [] then s' == s
    else Enabled(s, actions[0]) && Run(Next(s, actions[0]), actions[1..], s')
  }

  function Count(log: seq<Entry>, e: Entry): nat {
    if log == [] then 0 else Count(log[..|log| - 1], e) + if log[|log| - 1] == e then 1 else 0
  }

  /** Rate-limited requeues of k since it was last forgotten. */
  function LimitedSinceForget(log: seq<Entry>, k: Key): nat {
    if log == [] then 0
    else if log[|log| - 1] == Forgot(k) then 0
    else LimitedSinceForget(log[..|log| - 1], k) + if log[|log| - 1] == Limited(k) then 1 else 0
  }

  ghost predicate InFlight(s: State, k: Key) {
    exists i :: 0 <= i < |s.goroutines| && s.goroutines[i].key == k
  }

  ghost predicate QueueSound(s: State) {
    && Distinct(s.queue)
    && (forall k :: k in s.queue <==> k in s.dirty && k !in s.processing)
  }

  ghost predicate GoroutinesSound(s: State) {
    && (forall i, j :: 0 <= i < j < |s.goroutines| ==> s.goroutines[i].key != s.goroutines[j].key)
    && (forall k :: k in s.processing <==> InFlight(s, k))
  }

  ghost predicate BooksBalance(s: State) {
    && (forall k :: Count(s.log, Got(k)) == Count(s.log, DoneWith(k)) + if k in s.processing then 1 else 0)
    && (forall k :: LimitedSinceForget(s.log, k) == Requeues(s, k) <= MAX_RETRIES)
  }

  lemma {:induction false} CountSnoc(log: seq<Entry>, x: Entry, e: Entry)
    ensures Count(log + [x], e) == Count(log, e) + if x == e then 1 else 0
  {
    assert (log + [x])[..|log|] == log;
  }

  lemma {:induction false} LimitedSnoc(log: seq<Entry>, x: Entry, k: Key)
    ensures LimitedSinceForget(log + [x], k) ==
      if x == Forgot(k) then 0 else LimitedSinceForget(log, k) + if x == Limited(k) then 1 else 0
  {
    assert (log + [x])[..|log|] == log;
  }

  lemma QueueKept(s: State, a: Action)
    requires Enabled(s, a) && QueueSound(s) && GoroutinesSound(s)
    ensures QueueSound(Next(s, a))
  {
    match a
    case Get =>
      var k := s.queue[0];
      assert s.queue == [k] + s.queue[1..];
      assert k in s.queue;
    case Finish(i) =>
      assert InFlight(s, s.goroutines[i].key);
    case _ =>
  }

  lemma GoroutinesKept(s: State, a: Action)
    requires Enabled(s, a) && QueueSound(s) && GoroutinesSound(s)
    ensures GoroutinesSound(Next(s, a))
  {
    var s' := Next(s, a);
    match a
    case Get =>
      var k := s.queue[0];
      assert k in s.queue;
      assert s'.goroutines[|s.goroutines|].key == k;
      assert forall i :: 0 <= i < |s.goroutines| ==> s'.goroutines[i] == s.goroutines[i];
    case SyncEnds(i, outcome) =>
      assert forall j :: 0 <= j < |s.goroutines| ==> s'.goroutines[j].key == s.goroutines[j].key;
    case Finish(i) => FinishKept(s, i);
    case _ =>
      assert s'.goroutines == s.goroutines && s'.processing == s.processing;
  }

  lemma FinishKept(s: State, i: nat)
    requires Enabled(s, Finish(i)) && GoroutinesSound(s)
    ensures GoroutinesSound(Next(s, Finish(i)))
  {
    var s' := Next(s, Finish(i));
    assert forall j :: 0 <= j < |s'.goroutines| ==> s'.goroutines[j] == s.goroutines[if j < i then j else j + 1];
    forall k ensures k in s'.processing <==> InFlight(s', k) {
      if InFlight(s, k) && k != s.goroutines[i].key {
        var j :| 0 <= j < |s.goroutines| && s.goroutines[j].key == k;
        assert s'.goroutines[if j < i then j else j - 1].key == k;
      }
    }
  }

  lemma BooksKept(s: State, a: Action)
    requires Enabled(s, a) && QueueSound(s) && GoroutinesSound(s) && BooksBalance(s)
    ensures BooksBalance(Next(s, a))
  {
    hide Count, LimitedSinceForget;
    var s' := Next(s, a);
    var x := s'.log[|s.log|];
    assert s'.log == s.log + [x];
    if a.Get? { assert s.queue[0] in s.queue; }
    if a.Finish? { assert InFlight(s, s.goroutines[a.i].key); }
    forall k ensures Count(s'.log, Got(k)) == Count(s'.log, DoneWith(k)) + if k in s'.processing then 1 else 0
             ensures LimitedSinceForget(s'.log, k) == Requeues(s', k) <= MAX_RETRIES
    {
      CountSnoc(s.log, x, Got(k));
      CountSnoc(s.log, x, DoneWith(k));
      LimitedSnoc(s.log, x, k);
      assert LimitedSinceForget(s.log, k) == Requeues(s, k) <= MAX_RETRIES;
    }
  }

  ghost predicate Sound(s: State) {
    QueueSound(s) && GoroutinesSound(s) && BooksBalance(s)
  }

  lemma StartSound()
    ensures Sound(START)
  {
  }

  lemma {:induction false} RunKeeps(s: State, actions: seq<Action>, s': State)
    requires Sound(s) && Run(s, actions, s')
    ensures Sound(s')
    decreases |actions|
  {
    hide QueueSound, GoroutinesSound, BooksBalance, Next;
    if actions != [] {
      QueueKept(s, actions[0]);
      GoroutinesKept(s, actions[0]);
      BooksKept(s, actions[0]);
      RunKeeps(Next(s, actions[0]), actions[1..], s');
    }
  }

  /** Queue protocol: in every interleaving at most one goroutine syncs a key, every Get is matched by
      one Done or by that goroutine (also when syncs panic), and between two Forgets a key is requeued
      with rate limit at most maxRetries times. */
  lemma QueueProtocol(actions: seq<Action>, s: State, k: Key)
    requires Run(START, actions, s)
    ensures forall i, j :: 0 <= i < j < |s.goroutines| ==> s.goroutines[i].key != s.goroutines[j].key
    ensures Count(s.log, Got(k)) == Count(s.log, DoneWith(k)) + if InFlight(s, k) then 1 else 0
    ensures LimitedSinceForget(s.log, k) <= MAX_RETRIES
  {
    StartSound();
    RunKeeps(START, actions, s);
  }

  /** An event is not lost: until some worker gets the key, it stays dirty, and waits either in the
      queue or behind the goroutine now syncing it, whose Done will queue it. */
  lemma {:induction false} EventNotLost(s: State, actions: seq<Action>, s': State, k: Key)
    requires Sound(s) && k in s.dirty && Run(s, actions, s')
    requires Count(s'.log, Got(k)) == Count(s.log, Got(k))
    ensures k in s'.dirty && (k in s'.queue || InFlight(s', k))
    decreases |actions|
  {
    hide Count, Next, BooksBalance;
    if actions != [] {
      var a := actions[0];
      var mid := Next(s, a);
      QueueKept(s, a);
      GoroutinesKept(s, a);
      BooksKept(s, a);
      GotsGrow(mid, actions[1..], s', k);
      NextDirty(s, a, k);
      EventNotLost(mid, actions[1..], s', k);
    }
  }

  /** Only a Get of k takes k out of the dirty set. */
  lemma NextDirty(s: State, a: Action, k: Key)
    requires Enabled(s, a) && k in s.dirty
    ensures Count(Next(s, a).log, Got(k)) >= Count(s.log, Got(k))
    ensures Count(Next(s, a).log, Got(k)) == Count(s.log, Got(k)) ==> k in Next(s, a).dirty
  {
    hide Count;
    var x := Next(s, a).log[|s.log|];
    assert Next(s, a).log == s.log + [x];
    CountSnoc(s.log, x, Got(k));
  }

  lemma {:induction false} GotsGrow(s: State, actions: seq<Action>, s': State, k: Key)
    requires Run(s, actions, s')
    ensures Count(s'.log, Got(k)) >= Count(s.log, Got(k))
    decreases |actions|
  {
    hide Count, Next;
    if actions != [] {
      NextGots(s, actions[0], k);
      GotsGrow(Next(s, actions[0]), actions[1..], s', k);
    }
  }

  lemma NextGots(s: State, a: Action, k: Key)
    requires Enabled(s, a)
    ensures Count(Next(s, a).log, Got(k)) >= Count(s.log, Got(k))
  {
    hide Count;
    var x := Next(s, a).log[|s.log|];
    assert Next(s, a).log == s.log + [x];
    CountSnoc(s.log, x, Got(k));
  }

  /** An event that arrives during a sync causes another: when the goroutine is done, its key is in
      the queue. */
  lemma EventDuringSyncCausesAnother(s: State, i: nat)
    requires Sound(s) && Enabled(s, Finish(i)) && s.goroutines[i].key in s.dirty
    ensures s.goroutines[i].key in Next(s, Finish(i)).queue
  {
    hide BooksBalance;
    QueueKept(s, Finish(i));
    GoroutinesKept(s, Finish(i));
  }

  function Gets(actions: seq<Action>): nat {
    if actions == [] then 0 else (if actions[0] == Get then 1 else 0) + Gets(actions[1..])
  }

  lemma NextPlace(s: State, a: Action, p: nat)
    requires Enabled(s, a) && p < |s.queue| && (a == Get ==> p > 0)
    ensures var q := if a == Get then p - 1 else p;
            q < |Next(s, a).queue| && Next(s, a).queue[q] == s.queue[p]
  {
  }

  /** A queued key waits for no more Gets than keys were queued before it: after p of them it is at the
      head, whatever else happens in between. */
  lemma {:induction false} QueueIsFair(s: State, actions: seq<Action>, s': State, p: nat)
    requires p < |s.queue| && Run(s, actions, s') && Gets(actions) <= p
    ensures p - Gets(actions) < |s'.queue| && s'.queue[p - Gets(actions)] == s.queue[p]
    decreases |actions|
  {
    if actions != [] {
      hide Next;
      var mid := Next(s, actions[0]);
      NextPlace(s, actions[0], p);
      QueueIsFair(mid, actions[1..], s', if actions[0] == Get then p - 1 else p);
    }
  }

  /** Done ends the one goroutine that syncs the key, and no other key is affected. */
  lemma DoneReleases(s: State, i: nat)
    requires Sound(s) && Enabled(s, Finish(i))
    ensures var k, s' := s.goroutines[i].key, Next(s, Finish(i));
            && Sound(s') && !InFlight(s', k)
            && (k in s'.queue <==> k in s.dirty)
            && s.queue <= s'.queue
            && forall other :: other != k ==> (InFlight(s', other) <==> InFlight(s, other))
  {
    QueueKept(s, Finish(i));
    GoroutinesKept(s, Finish(i));
    BooksKept(s, Finish(i));
    hide BooksBalance, Count;
    var s' := Next(s, Finish(i));
    forall k ensures InFlight(s', k) <==> InFlight(s, k) && k != s.goroutines[i].key {
      assert k in s.processing <==> InFlight(s, k);
      assert k in s'.processing <==> InFlight(s', k);
    }
    assert InFlight(s, s.goroutines[i].key);
  }

  // ---------- whole histories ----------

  /** At every point of the history the key has been taken as often as it was done with, or once more. */
  ghost predicate Alternates(log: seq<Entry>, k: Key) {
    forall p :: 0 <= p <= |log| ==>
      Count(log[..p], DoneWith(k)) <= Count(log[..p], Got(k)) <= Count(log[..p], DoneWith(k)) + 1
  }

  lemma NextLog(s: State, a: Action)
    requires Enabled(s, a)
    ensures |Next(s, a).log| == |s.log| + 1 && s.log == Next(s, a).log[..|s.log|]
  {
  }

  lemma {:induction false} RunAlternates(s: State, actions: seq<Action>, s': State, k: Key)
    requires Sound(s) && Alternates(s.log, k) && Run(s, actions, s')
    ensures Alternates(s'.log, k)
    decreases |actions|
  {
    hide QueueSound, GoroutinesSound, Next, Count;
    if actions != [] {
      var a, mid := actions[0], Next(s, actions[0]);
      QueueKept(s, a);
      GoroutinesKept(s, a);
      BooksKept(s, a);
      NextLog(s, a);
      forall p | 0 <= p <= |mid.log|
        ensures Count(mid.log[..p], DoneWith(k)) <= Count(mid.log[..p], Got(k)) <= Count(mid.log[..p], DoneWith(k)) + 1
      {
        if p <= |s.log| {
          assert mid.log[..p] == s.log[..p];
        } else {
          assert mid.log[..p] == mid.log;
        }
      }
      RunAlternates(mid, actions[1..], s', k);
    }
  }

  lemma {:induction false} CountSplit(log: seq<Entry>, p: nat, e: Entry)
    requires p <= |log|
    ensures Count(log, e) == Count(log[..p], e) + Count(log[p..], e)
    decreases |log|
  {
    if p == |log| {
      assert log[..p] == log && log[p..] == [];
    } else {
      var init := log[..|log| - 1];
      CountSplit(init, p, e);
      assert init[..p] == log[..p] && log[p..] == init[p..] + [log[|log| - 1]];
      CountSnoc(init[p..], log[|log| - 1], e);
    }
  }

  lemma {:induction false} CountedSomewhere(log: seq<Entry>, e: Entry) returns (i: nat)
    requires Count(log, e) > 0
    ensures i < |log| && log[i] == e
  {
    if log[|log| - 1] == e {
      i := |log| - 1;
    } else {
      i := CountedSomewhere(log[..|log| - 1], e);
    }
  }

  /** Syncs of one key never overlap: in every history, whatever the interleaving, the key is done with
      between any two times it is taken. */
  lemma SyncsNeverOverlap(actions: seq<Action>, s: State, k: Key, i: nat, j: nat)
    requires Run(START, actions, s) && i < j < |s.log| && s.log[i] == s.log[j] == Got(k)
    ensures exists m :: i < m < j && s.log[m] == DoneWith(k)
  {
    hide Next;
    StartSound();
    assert Alternates(START.log, k);
    RunAlternates(START, actions, s, k);
    var m := DoneBetween(s.log, k, i, j);
  }

  lemma DoneBetween(log: seq<Entry>, k: Key, i: nat, j: nat) returns (m: nat)
    requires Alternates(log, k) && i < j < |log| && log[i] == log[j] == Got(k)
    ensures i < m < j && log[m] == DoneWith(k)
  {
    hide Count;
    var before, after := log[..i], log[..j + 1];
    var between := after[i..];
    CountSplit(after, i, Got(k));
    CountSplit(after, i, DoneWith(k));
    assert after[..i] == before;
    assert between == [Got(k)] + log[i + 1..j] + [Got(k)];
    CountSnoc([Got(k)] + log[i + 1..j], Got(k), Got(k));
    CountSplit([Got(k)] + log[i + 1..j], 1, Got(k));
    assert ([Got(k)] + log[i + 1..j])[..1] == [] + [Got(k)];
    CountSnoc([], Got(k), Got(k));
    var d := CountedSomewhere(between, DoneWith(k));
    m := i + d;
  }

  /** No sync of this key ends in an error. */
  ghost predicate OnlySucceedsOrPanics(s: State, actions: seq<Action>, k: Key)
    decreases |actions|
  {
    actions == [] ||
    (Enabled(s, actions[0])
     && (actions[0].SyncEnds? && s.goroutines[actions[0].i].key == k ==> actions[0].outcome in {Synced, Panic})
     && OnlySucceedsOrPanics(Next(s, actions[0]), actions[1..], k))
  }

  function Adds(actions: seq<Action>, k: Key): nat {
    if actions == [] then 0 else (if actions[0] == Add(k) then 1 else 0) + Adds(actions[1..], k)
  }

  /** The key waits for no retry, and was taken no more often than it was added. */
  ghost predicate NoRetry(s: State, k: Key) {
    && k !in s.timers && Requeues(s, k) == 0 && Count(s.log, Limited(k)) == 0
    && Count(s.log, Got(k)) + (if k in s.dirty then 1 else 0) <= Count(s.log, Added(k))
  }

  lemma StepNoRetry(s: State, a: Action, k: Key)
    requires Enabled(s, a) && QueueSound(s) && NoRetry(s, k)
    requires a.SyncEnds? && s.goroutines[a.i].key == k ==> a.outcome in {Synced, Panic}
    ensures NoRetry(Next(s, a), k)
    ensures Count(Next(s, a).log, Added(k)) == Count(s.log, Added(k)) + if a == Add(k) then 1 else 0
  {
    hide Count;
    var s' := Next(s, a);
    var x := s'.log[|s.log|];
    assert s'.log == s.log + [x];
    if a.Get? { assert s.queue[0] in s.queue; }
    CountSnoc(s.log, x, Got(k));
    CountSnoc(s.log, x, Added(k));
    CountSnoc(s.log, x, Limited(k));
  }

  lemma {:induction false} RunNoRetry(s: State, actions: seq<Action>, s': State, k: Key)
    requires Sound(s) && NoRetry(s, k) && Run(s, actions, s') && OnlySucceedsOrPanics(s, actions, k)
    ensures NoRetry(s', k)
    ensures Count(s'.log, Added(k)) == Count(s.log, Added(k)) + Adds(actions, k)
    decreases |actions|
  {
    hide GoroutinesSound, BooksBalance, Next, Count, NoRetry;
    if actions != [] {
      var a := actions[0];
      QueueKept(s, a);
      GoroutinesKept(s, a);
      BooksKept(s, a);
      StepNoRetry(s, a, k);
      RunNoRetry(Next(s, a), actions[1..], s', k);
    }
  }

  /** A panic is not retried: in every run in which the syncs of a key only succeed or panic, it is never
      requeued with rate limit, and it is synced at most once for each event that adds it, however many
      of its syncs panic. */
  lemma PanicsAreNotRetried(actions: seq<Action>, s: State, k: Key)
    requires Run(START, actions, s) && OnlySucceedsOrPanics(START, actions, k)
    ensures Count(s.log, Limited(k)) == 0 && k !in s.timers
    ensures Count(s.log, Got(k)) <= Adds(actions, k)
  {
    hide Next;
    StartSound();
    RunNoRetry(START, actions, s, k);
  }

  // ---------- a failed sync is retried ----------

  /** How a sync's end is handled. A failed one is put back by a timer unless it has been, fifteen times since
      the key was last forgotten; then, and after success or a panic, the key is forgotten. */
  lemma SyncEndExactly(s: State, i: nat, outcome: Outcome)
    requires Sound(s) && Enabled(s, SyncEnds(i, outcome))
    ensures var k, s' := s.goroutines[i].key, Next(s, SyncEnds(i, outcome));
            if outcome in {SyncError, BadKey} && LimitedSinceForget(s.log, k) < 15 then
              s'.timers == s.timers + multiset{k} && s'.log == s.log + [Limited(k)]
            else s'.timers == s.timers && s'.log == s.log + [Forgot(k)]
    ensures var k, s' := s.goroutines[i].key, Next(s, SyncEnds(i, outcome));
            s'.queue == s.queue && s'.dirty == s.dirty && s'.processing == s.processing && InFlight(s', k)
  {
    hide QueueSound, GoroutinesSound, LimitedSinceForget;
    var k, s' := s.goroutines[i].key, Next(s, SyncEnds(i, outcome));
    assert LimitedSinceForget(s.log, k) == Requeues(s, k) <= MAX_RETRIES;
    assert s'.goroutines[i].key == k;
  }

  /** An event, or a timer that fires, makes its key dirty, in the queue or behind its goroutine. */
  lemma AddedIsWaiting(s: State, a: Action, k: Key)
    requires Sound(s) && Enabled(s, a) && (a == Add(k) || a == TimerFires(k))
    ensures var s' := Next(s, a);
            && k in s'.dirty && (k in s'.queue || InFlight(s', k))
            && s'.timers == if a == Add(k) then s.timers else s.timers - multiset{k}
  {
    hide BooksBalance;
    QueueKept(s, a);
    GoroutinesKept(s, a);
  }

  /** The last sync of k that ended had failed and was put back. */
  function LastFailed(log: seq<Entry>, k: Key): bool {
    log != [] &&
    var last := log[|log| - 1];
    last == Limited(k) || (last != Forgot(k) && LastFailed(log[..|log| - 1], k))
  }

  ghost predicate BeingSynced(s: State, k: Key) {
    exists i :: 0 <= i < |s.goroutines| && s.goroutines[i] == Goroutine(k, Syncing)
  }

  /** It waits for its retry, or is being retried. */
  ghost predicate Retrying(s: State, k: Key) {
    LastFailed(s.log, k) ==> k in s.timers || k in s.dirty || BeingSynced(s, k)
  }

  lemma LastFailedSnoc(log: seq<Entry>, x: Entry, k: Key)
    ensures LastFailed(log + [x], k) <==> x == Limited(k) || (x != Forgot(k) && LastFailed(log, k))
  {
    assert (log + [x])[..|log|] == log;
  }

  lemma StepRetrying(s: State, a: Action, k: Key)
    requires Sound(s) && Enabled(s, a) && Retrying(s, k)
    ensures Retrying(Next(s, a), k)
  {
    hide BooksBalance, QueueSound, LastFailed;
    var s' := Next(s, a);
    var x := s'.log[|s.log|];
    assert s'.log == s.log + [x];
    LastFailedSnoc(s.log, x, k);
    if BeingSynced(s, k) {
      var j :| 0 <= j < |s.goroutines| && s.goroutines[j] == Goroutine(k, Syncing);
      match a
      case Get => assert s'.goroutines[j] == s.goroutines[j];
      case SyncEnds(i, outcome) => assert i != j ==> s'.goroutines[j] == s.goroutines[j];
      case Finish(i) => assert s'.goroutines[if j < i then j else j - 1] == s.goroutines[j];
      case _ => assert s'.goroutines == s.goroutines;
    }
    if a.Get? {
      assert s'.goroutines[|s.goroutines|] == Goroutine(s.queue[0], Syncing);
    }
  }

  lemma {:induction false} RunRetrying(s: State, actions: seq<Action>, s': State, k: Key)
    requires Sound(s) && Retrying(s, k) && Run(s, actions, s')
    ensures Retrying(s', k)
    decreases |actions|
  {
    hide QueueSound, GoroutinesSound, BooksBalance, Next, Retrying;
    if actions != [] {
      var a := actions[0];
      QueueKept(s, a);
      GoroutinesKept(s, a);
      BooksKept(s, a);
      StepRetrying(s, a, k);
      RunRetrying(Next(s, a), actions[1..], s', k);
    }
  }

  /** A retry is not lost: at every point of every history, a key whose last sync failed and was put back waits
      in a timer or is dirty, if it is not being synced again. */
  lemma FailedSyncIsRetried(actions: seq<Action>, s: State, k: Key)
    requires Run(START, actions, s) && LastFailed(s.log, k)
    ensures k in s.timers || k in s.dirty || BeingSynced(s, k)
    ensures k in s.timers || k in s.queue || InFlight(s, k)
  {
    hide Next, LastFailed;
    StartSound();
    assert !LastFailed(START.log, k) by { NothingFailed(k); }
    RunRetrying(START, actions, s, k);
    RunKeeps(START, actions, s);
    if BeingSynced(s, k) {
      var i :| 0 <= i < |s.goroutines| && s.goroutines[i] == Goroutine(k, Syncing);
      assert s.goroutines[i].key == k;
    }
  }

  lemma NothingFailed(k: Key)
    ensures !LastFailed([], k)
  {
  }

  /** Each failure brings a key one closer to its fifteenth put-back; the failure after that one drops it. */
  lemma FifteenRetries(s: State, i: nat)
    requires Sound(s) && Enabled(s, SyncEnds(i, SyncError))
    ensures var k, s' := s.goroutines[i].key, Next(s, SyncEnds(i, SyncError));
            && (LimitedSinceForget(s.log, k) < 15 ==> LimitedSinceForget(s'.log, k) == LimitedSinceForget(s.log, k) + 1)
            && (LimitedSinceForget(s.log, k) == 15 ==> LimitedSinceForget(s'.log, k) == 0 && !LastFailed(s'.log, k))
  {
    hide LimitedSinceForget, LastFailed, Next;
    var k := s.goroutines[i].key;
    SyncEndExactly(s, i, SyncError);
    LimitedSnoc(s.log, Limited(k), k);
    LimitedSnoc(s.log, Forgot(k), k);
    LastFailedSnoc(s.log, Forgot(k), k);
  }
}
