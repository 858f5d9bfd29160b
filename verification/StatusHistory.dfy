/** Status writes against the API server over time. Every write starts from a copy of the object that
    may be stale, and may have been written from before, unless the API failed then. */
module StatusHistory {
  import opened Wrappers
  import opened StatusWrites
  import opened Hosts
  import opened Topology
  import opened Repair

  // ---------- one write ----------

  /** The status with its conditions sorted. */
  function Canonical(s: Status): Status {
    s.(conditions := SortByName(s.conditions))
  }

  /** Every phase but these two carries the object's own conditions along. */
  predicate Carries(phase: Phase) {
    phase != Creating && phase != Running
  }

  /** The status `updateRedisClusterStatus` builds: None when it cannot read what it needs. `snapshot`
      are the conditions read off the live cluster, `sts` the StatefulSet's replicas. */
  function BuildStatus(was: Status, phase: Phase, reason: string, snapshot: Option<seq<Condition>>,
                       sts: Option<int>): Option<Status>
  {
    match phase
    case NoPhase => Some(Status(0, reason, NoPhase, SortByName(was.conditions)))
    case Creating => Some(Status(0, reason, Creating, []))
    case Running =>
      if sts.None? || snapshot.None? then None
      else Some(Status(sts.value, reason, Running, SortByName(snapshot.value)))
    case _ =>
      if sts.None? then None else Some(Status(sts.value, reason, phase, SortByName(was.conditions)))
  }

  /** What the new status is compared with. Conditions that are carried along are the object's own slice,
      which the sort has by then sorted in place. */
  function Compared(was: Status, phase: Phase): Status {
    if Carries(phase) then Canonical(was) else was
  }

  /** One recorded version of the object, and the phase whose write produced it, if one did. */
  datatype Version = Version(status: Status, wrote: Option<Phase>)

  datatype Write = Write(phase: Phase, reason: string, snapshot: Option<seq<Condition>>, sts: Option<int>, apiUp: bool)

  /** A copy of a version, as it was read or with its conditions sorted by an earlier write. */
  predicate IsCopy(was: Status, s: Status) {
    was == s || was == Canonical(s)
  }

  /** What a copy of version `from` may hold: while that version is current, what was read; once it is
      stale, anything, such as what an earlier write from the same copy left in it. */
  predicate Holds(versions: seq<Version>, from: nat, was: Status) {
    from < |versions| && (from + 1 == |versions| ==> IsCopy(was, versions[from].status))
  }

  /** The versions after a write from a copy of version `from`. The API server refuses a stale copy. */
  function Record(versions: seq<Version>, from: nat, was: Status, w: Write): seq<Version>
    requires from < |versions|
  {
    var built := BuildStatus(was, w.phase, w.reason, w.snapshot, w.sts);
    if built.None? || DeepEqual(built.value, Compared(was, w.phase)) || !w.apiUp || from + 1 != |versions| then versions
    else versions + [Version(built.value, Some(w.phase))]
  }

  /** Whether such a write reports success: it has nothing to say, or it is recorded. */
  predicate Goes(versions: seq<Version>, from: nat, was: Status, w: Write) {
    var built := BuildStatus(was, w.phase, w.reason, w.snapshot, w.sts);
    built.Some? && (DeepEqual(built.value, Compared(was, w.phase)) || (w.apiUp && from + 1 == |versions|))
  }

  /** The object as the operator holds it. */
  class RedisCluster {
    var status: Status
    var version: nat

    constructor (status: Status, version: nat)
      ensures this.status == status && this.version == version
    {
      this.status, this.version := status, version;
    }

    predicate Held(versions: seq<Version>)
      reads this
    {
      Holds(versions, version, status)
    }
  }

  class ApiServer {
    /** All versions of the object, the last one being current. */
    var versions: seq<Version>

    constructor (initial: Status)
      ensures versions == [Version(initial, None)]
    {
      versions := [Version(initial, None)];
    }

    /** A copy of some version: the current one, or an older one from the cache. */
    method Get(from: nat) returns (rc: RedisCluster)
      requires from < |versions|
      ensures fresh(rc) && rc.version == from && rc.status == versions[from].status
    {
      rc := new RedisCluster(versions[from].status, from);
    }

    /** `updateRedisClusterStatus`: it may sort the copy's conditions, and it overwrites the copy's status
        before it calls the API, also when that call then fails. After a successful write the copy it was
        made from is stale, and a write from it is refused. */
    method UpdateRedisClusterStatus(rc: RedisCluster, w: Write) returns (r: RedisCluster, ok: bool)
      requires rc.Held(versions)
      modifies this, rc
      ensures versions == Record(old(versions), old(rc.version), old(rc.status), w)
      ensures ok ==> r.Held(versions)
      ensures w.apiUp ==> rc.Held(versions)
      ensures ok <==> Goes(old(versions), old(rc.version), old(rc.status), w)
      ensures rc.version == old(rc.version)
      ensures var built := BuildStatus(old(rc.status), w.phase, w.reason, w.snapshot, w.sts);
              var seen := Compared(old(rc.status), w.phase);
              rc.status == if built.None? then old(rc.status)
                           else if DeepEqual(built.value, seen) then seen else built.value
      ensures ok ==> if versions == old(versions) then r == rc
                     else fresh(r) && r.version == |versions| - 1 && r.status == versions[|versions| - 1].status
    {
      var built := BuildStatus(rc.status, w.phase, w.reason, w.snapshot, w.sts);
      if built.None? {
        return rc, false;
      }
      if Carries(w.phase) {
        CanonicalTwice(versions[rc.version].status);
        rc.status := Canonical(rc.status);
      }
      if DeepEqual(built.value, rc.status) {
        return rc, true;
      }
      rc.status := built.value;
      if !w.apiUp || rc.version + 1 != |versions| {
        return rc, false;
      }
      versions := versions + [Version(built.value, Some(w.phase))];
      r := new RedisCluster(built.value, |versions| - 1);
      ok := true;
    }

    /** `checkAndUpdateRedisClusterStatus` up to the repairs: pods that are not ready are recorded as a failure,
        if the API takes it. */
    method CheckAndUpdateRedisClusterStatus(rc: RedisCluster, replicas: nat, ready: bool, reason: string,
                                            sts: Option<int>, apiUp: bool)
      returns (a: CheckAction)
      requires rc.Held(versions)
      modifies this, rc
      ensures a == Decide(old(rc.status), replicas, ready)
      ensures versions == if a == RecordFailed
                          then Record(old(versions), old(rc.version), old(rc.status),
                                      Write(Failed, reason, None, sts, apiUp))
                          else old(versions)
      ensures a != RecordFailed ==> rc.status == old(rc.status) && rc.version == old(rc.version)
    {
      a := CheckDecision(rc.status, replicas, ready);
      if a == RecordFailed {
        var _, _ := UpdateRedisClusterStatus(rc, Write(Failed, reason, None, sts, apiUp));
      }
    }
  }

  lemma CanonicalTwice(s: Status)
    ensures Canonical(Canonical(s)) == Canonical(s)
  {
    SortTwice(s.conditions);
  }

  /** A Running write is suppressed exactly when phase, reason, replicas and each name's observed
      conditions are unchanged; with distinct names, when the set of observed conditions is. So repeating
      a write writes nothing. */
  lemma SuppressedExactly(versions: seq<Version>, w: Write, conds: seq<Condition>)
    requires versions != [] && w.apiUp && w.sts.Some? && w.snapshot.Some? && w.phase == Running
    requires versions[|versions| - 1].status.conditions == SortByName(conds)
    ensures var was := versions[|versions| - 1].status;
            Record(versions, |versions| - 1, was, w) == versions <==>
              && was.phase == Running && was.reason == w.reason && was.replicas == w.sts.value
              && SamePerName(StripAll(conds), StripAll(w.snapshot.value))
    ensures DistinctNames(w.snapshot.value) && DistinctNames(conds) ==>
              && var now := w.snapshot.value;
                (SamePerName(StripAll(conds), StripAll(now)) <==> Observed(conds) == Observed(now))
    ensures var next := Record(versions, |versions| - 1, versions[|versions| - 1].status, w);
            next != [] && Record(next, |next| - 1, next[|next| - 1].status, w) == next
  {
    hide SortByName, DistinctNames, SamePerName, Observed;
    CanonicalExactly(conds, w.snapshot.value);
    if DistinctNames(w.snapshot.value) && DistinctNames(conds) {
      CanonicalComparison(conds, w.snapshot.value);
    }
    var was := versions[|versions| - 1].status;
    EqualButForTimes(was, BuildStatus(was, w.phase, w.reason, w.snapshot, w.sts).value);
  }

  lemma EqualButForTimes(s: Status, t: Status)
    ensures DeepEqual(t, s) <==>
      && s.replicas == t.replicas && s.reason == t.reason && s.phase == t.phase
      && StripAll(s.conditions) == StripAll(t.conditions)
  {
  }

  /** The phases that carry the conditions along are suppressed exactly when phase, reason and replicas
      are unchanged, whatever conditions are recorded. */
  lemma CarriedSuppressedExactly(versions: seq<Version>, was: Status, w: Write)
    requires versions != [] && IsCopy(was, versions[|versions| - 1].status)
    requires w.apiUp && Carries(w.phase) && (w.phase == NoPhase || w.sts.Some?)
    ensures Record(versions, |versions| - 1, was, w) == versions <==>
              && was.phase == w.phase && was.reason == w.reason
              && was.replicas == if w.phase == NoPhase then 0 else w.sts.value
  {
    hide SortByName;
    EqualButForTimes(Canonical(was), BuildStatus(was, w.phase, w.reason, w.snapshot, w.sts).value);
  }

  /** What every write puts on record, phase by phase: its own phase and reason; no conditions for a cluster
      being created, those read off the live one for a running one, and otherwise those there were; and the
      StatefulSet's replicas, but for the phases before there is one. */
  ghost predicate Says(now: Status, was: Status, w: Write) {
    && now.phase == w.phase && now.reason == w.reason
    && (w.phase in {NoPhase, Creating} ==> now.replicas == 0)
    && (w.phase in {Running, Failed, Scaling, Upgrading, Deleting} ==> w.sts == Some(now.replicas))
    && (w.phase == Creating ==> now.conditions == [])
    && SortedByName(now.conditions)
    && (w.phase == Running ==>
          w.snapshot.Some? && multiset(now.conditions) == multiset(w.snapshot.value)
          && SamePerName(now.conditions, w.snapshot.value))
    && (w.phase !in {Creating, Running} ==>
          multiset(now.conditions) == multiset(was.conditions) && SamePerName(now.conditions, was.conditions))
  }

  /** A write needs the StatefulSet unless the cluster is not there yet, and a running one's members. */
  predicate Readable(w: Write) {
    && (w.phase in {Running, Failed, Scaling, Upgrading, Deleting} ==> w.sts.Some?)
    && (w.phase == Running ==> w.snapshot.Some?)
  }

  lemma SortSays(s: seq<Condition>)
    ensures SortedByName(SortByName(s)) && multiset(SortByName(s)) == multiset(s) && SamePerName(SortByName(s), s)
  {
    SortSorted(s);
    SortPermutes(s);
    forall n ensures Named(SortByName(s), n) == Named(s, n) {
      SortStable(s, n);
    }
  }

  /** A write is recorded exactly when it can read what it needs, says something new, reaches the API and
      starts from the current version; and then exactly what its phase says is appended. */
  lemma WriteRecords(versions: seq<Version>, from: nat, was: Status, w: Write)
    requires from < |versions|
    ensures var next := Record(versions, from, was, w);
            || next == versions
            || (|next| == |versions| + 1 && next[..|versions|] == versions
                && next[|versions|].wrote == Some(w.phase) && Says(next[|versions|].status, was, w))
    ensures Record(versions, from, was, w) != versions <==>
      && Readable(w) && w.apiUp && from + 1 == |versions|
      && !exists now :: Says(now, was, w) && DeepEqual(now, Compared(was, w.phase))
  {
    hide SortByName, SortedByName, SamePerName, DeepEqual, StripAll;
    var built := BuildStatus(was, w.phase, w.reason, w.snapshot, w.sts);
    SortSays(was.conditions);
    if w.snapshot.Some? {
      SortSays(w.snapshot.value);
    }
    assert SortedByName([]) by { NothingSorted(); }
    if built.Some? {
      forall now | Says(now, was, w) ensures now == built.value {
        SaysOne(now, built.value, was, w);
      }
    }
  }

  lemma NothingSorted()
    ensures SortedByName([])
  {
  }

  /** There is only one status that says so. */
  lemma SaysOne(a: Status, b: Status, was: Status, w: Write)
    requires Says(a, was, w) && Says(b, was, w)
    ensures a == b
  {
    if w.phase != Creating {
      SortedDetermined(a.conditions, b.conditions);
    }
  }

  // ---------- all writes ----------

  /** What can happen to the object: a status write, from a copy that holds what it may hold, or anybody's
      change to the rest of it. */
  datatype Event = Attempted(from: nat, was: Status, write: Write) | Touched

  function Step(versions: seq<Version>, e: Event): (r: seq<Version>)
    requires versions != []
    ensures r != []
  {
    match e
    case Attempted(from, was, w) => if Holds(versions, from, was) then Record(versions, from, was, w) else versions
    case Touched => versions + [Version(versions[|versions| - 1].status, None)]
  }

  function StepAll(versions: seq<Version>, events: seq<Event>): (r: seq<Version>)
    requires versions != []
    ensures r != []
    decreases |events|
  {
    if events == [] then versions else StepAll(Step(versions, events[0]), events[1..])
  }

  /** A Running write has succeeded since the last Creating write. */
  function HasRun(versions: seq<Version>): bool {
    versions != [] &&
    var last := versions[|versions| - 1].wrote;
    last == Some(Running) || (last != Some(Creating) && HasRun(versions[..|versions| - 1]))
  }

  /** A running cluster lists at least one member. */
  predicate Lively(e: Event) {
    e.Attempted? ==> e.write.snapshot.Some? ==> e.write.snapshot.value != []
  }

  ghost predicate Truthful(versions: seq<Version>) {
    versions != [] && (versions[|versions| - 1].status.conditions == [] <==> !HasRun(versions))
  }

  lemma StepTruthful(versions: seq<Version>, e: Event)
    requires Truthful(versions) && Lively(e)
    ensures Truthful(Step(versions, e))
  {
    hide SortByName, DeepEqual;
    var next := Step(versions, e);
    if next != versions {
      assert next[..|next| - 1] == versions;
    }
  }

  /** Failed-phase history: over every run of writes, which may fail, be suppressed or start from stale
      copies, the recorded conditions are empty exactly when no Running write has succeeded since the
      last Creating write. */
  lemma {:induction false} ConditionsTellHistory(versions: seq<Version>, events: seq<Event>)
    requires Truthful(versions) && forall i :: 0 <= i < |events| ==> Lively(events[i])
    ensures Truthful(StepAll(versions, events))
    decreases |events|
  {
    hide Truthful, Step;
    TruthfulNonEmpty(versions);
    if events != [] {
      assert Lively(events[0]);
      StepTruthful(versions, events[0]);
      assert forall i :: 0 <= i < |events[1..]| ==> events[1..][i] == events[i + 1];
      ConditionsTellHistory(Step(versions, events[0]), events[1..]);
    }
  }

  lemma TruthfulNonEmpty(versions: seq<Version>)
    requires Truthful(versions)
    ensures versions != []
  {
  }

  // ---------- what the check does with it ----------

  datatype CheckAction = Health | RecordFailed | FixCreating | FixScaling | FixUpgrading | LeaveAlone

  /** The phase a repair works in. */
  function RepairPhase(s: Status): Phase {
    if s.phase == Failed then if s.conditions == [] then Creating else Upgrading
    else s.phase
  }

  /** The branches of `checkAndUpdateRedisClusterStatus`: a health check, which does not wait for the pods,
      or what comes of waiting for them. */
  method CheckDecision(s: Status, replicas: nat, ready: bool) returns (a: CheckAction)
    ensures a == Decide(s, replicas, ready)
  {
    if (s.phase == Running && |s.conditions| == replicas)
       || (s.phase == Upgrading && |s.conditions| == replicas)
       || (s.phase == Creating && |s.conditions| == replicas) {
      return Health;
    }
    if !ready {
      return RecordFailed;
    }
    var phase := s.phase;
    if s.phase == Failed {
      if |s.conditions| == 0 {
        phase := Creating;
      } else {
        phase := Upgrading;
      }
    }
    match phase
    case Creating => a := FixCreating;
    case Failed => a := FixCreating;
    case Scaling => a := FixScaling;
    case Upgrading => a := FixUpgrading;
    case _ => a := LeaveAlone;
  }

  function Decide(s: Status, replicas: nat, ready: bool): CheckAction {
    if s.phase in {Running, Upgrading, Creating} && |s.conditions| == replicas then Health
    else if !ready then RecordFailed
    else
      match RepairPhase(s)
      case Creating => FixCreating
      case Scaling => FixScaling
      case Upgrading => FixUpgrading
      case _ => LeaveAlone
  }

  /** What a check does, for every status, number of replicas and readiness. */
  lemma DecideExactly(s: Status, replicas: nat, ready: bool)
    ensures var a, n := Decide(s, replicas, ready), |s.conditions|;
            var counted := n == replicas && (s.phase == Running || s.phase == Upgrading || s.phase == Creating);
            && (a == Health <==> counted)
            && (a == RecordFailed <==> !counted && !ready)
            && (a == FixCreating <==>
                  !counted && ready && (s.phase == Creating || (s.phase == Failed && n == 0)))
            && (a == FixScaling <==> !counted && ready && s.phase == Scaling)
            && (a == FixUpgrading <==>
                  !counted && ready && (s.phase == Upgrading || (s.phase == Failed && n > 0)))
            && (a == LeaveAlone <==>
                  !counted && ready && (s.phase == Running || s.phase == NoPhase || s.phase == Deleting))
  {
  }

  /** A failed cluster whose pods are ready is repaired as one being created or as one being scaled according
      to its true history; one whose pods are not stays failed. */
  lemma FailedRepairedByHistory(events: seq<Event>, initial: Status, replicas: nat, ready: bool)
    requires initial.conditions == [] && forall i :: 0 <= i < |events| ==> Lively(events[i])
    requires var versions := StepAll([Version(initial, None)], events); versions[|versions| - 1].status.phase == Failed
    ensures var versions := StepAll([Version(initial, None)], events);
            Decide(versions[|versions| - 1].status, replicas, ready)
              == if !ready then RecordFailed else if HasRun(versions) then FixUpgrading else FixCreating
  {
    var start := [Version(initial, None)];
    assert !HasRun([]);
    assert start[..|start| - 1] == [];
    assert Truthful(start);
    ConditionsTellHistory(start, events);
  }

  /** A scale-up that fails is recorded as Running with the members it reached. While pods are missing from
      the cluster a check then records a failure or does nothing, as the pods are ready or not. */
  lemma FailedScaleUpChecked(versions: seq<Version>, from: nat, was: Status, w: Write, replicas: nat, ready: bool)
    requires from < |versions| && w.phase == Running && w.snapshot.Some? && |w.snapshot.value| != replicas
    requires Record(versions, from, was, w) != versions
    ensures var next := Record(versions, from, was, w);
            && |next| == |versions| + 1 && next[..|versions|] == versions
            && next[|versions|].status.phase == Running
            && |next[|versions|].status.conditions| == |w.snapshot.value|
            && Decide(next[|versions|].status, replicas, ready) == if ready then LeaveAlone else RecordFailed
  {
    hide DeepEqual;
    SortPermutes(w.snapshot.value);
  }

  /** Whichever node is asked, it lists as many members as there are pods exactly when that number is even,
      or one. */
  lemma ListedCount(idOf: string -> string, r: Roles, addrs: seq<Address>, asked: string)
    requires GoodIds(idOf) && Complete(idOf, r, addrs) && asked in AddrIps(addrs)
    ensures |Seen(idOf, r, asked).Members()| == |addrs| <==> |addrs| % 2 == 0 || |addrs| == 1
  {
    hide WellFormed, AddrIps, Seen, Roles.Members;
    ServedCount(idOf, r, addrs);
    OneClusterOnly(idOf, r, addrs);
    if asked in r.Members() {
      MembersSeeAll(idOf, r, asked);
      EmptyWhenSingle(idOf, r, addrs, asked);
    } else {
      OutsiderListsItself(idOf, r, asked);
      if |addrs| % 2 == 0 {
        EvenCompleteHasAll(idOf, r, addrs);
      }
    }
  }

  lemma EmptyWhenSingle(idOf: string -> string, r: Roles, addrs: seq<Address>, m: string)
    requires m in r.Members() && |r.Members()| == |r.masters| + |r.parentOf|
    ensures |r.masters| + |r.parentOf| >= 1
  {
    Hosts.SubsetSize({m}, r.Members());
  }

  /** A complete cluster is recorded as Running with one condition for each member its first pod lists.
      It is health-checked again exactly when its number of pods is even, or one: an odd one has a pod
      outside, and the count never matches. */
  lemma HealthCheckedExactlyWhenEven(idOf: string -> string, r: Roles, addrs: seq<Address>, s: Status, ready: bool)
    requires GoodIds(idOf) && Complete(idOf, r, addrs) && addrs != []
    requires s.phase == Running && |s.conditions| == |Seen(idOf, r, addrs[0].ip).Members()|
    ensures Decide(s, |addrs|, ready) == Health <==> |addrs| % 2 == 0 || |addrs| == 1
  {
    hide Complete, Seen, Roles.Members;
    assert Ips(addrs)[0] in AddrIps(addrs);
    ListedCount(idOf, r, addrs, addrs[0].ip);
  }
}
