/** What every pass of the reconciler keeps, and what a pass that is not interrupted achieves. */
module Runs {
  import opened Counting
  import opened Hosts
  import opened ScalePlan
  import opened Topology
  import opened Repair
  import opened Lookup
  import opened Steps

  /** No member loses its role or changes its master, and a cluster apart stays apart. */
  ghost predicate Extends(r: Roles, r': Roles) {
    && r.masters <= r'.masters
    && r.apart.Keys <= r'.apart.Keys
    && r.parentOf.Keys <= r'.parentOf.Keys
    && forall s :: s in r.parentOf ==> r'.parentOf[s] == r.parentOf[s]
  }

  lemma ExtendsTransitive(a: Roles, b: Roles, c: Roles)
    requires Extends(a, b) && Extends(b, c)
    ensures Extends(a, c)
  {
  }

  /** From this command on, every command works and every member is healthy. */
  ghost predicate Quiet(env: Env, clock: nat) {
    forall t: nat :: clock <= t ==> env.answer(t) == Works && env.healthy(t)
  }

  lemma QuietLater(env: Env, clock: nat, later: nat)
    requires clock <= later
    ensures Quiet(env, clock) ==> Quiet(env, later)
  {
  }

  lemma QuietFrom(env: Env, clock: nat)
    ensures Quiet(env, clock) ==> env.answer(clock) == Works && Quiet(env, clock + 1)
  {
  }

  /** How a pass from roles r must end: well-formed, nobody demoted, never by a panic or a hang; and
      it does end well when nothing interferes. */
  ghost predicate Safe(env: Env, w: World, addrs: seq<Address>, run: Run) {
    && WellFormed(env.idOf, run.world.roles, addrs)
    && Extends(w.roles, run.world.roles)
    && w.clock <= run.world.clock
    && (run.status == Done || run.status == Error)
  }

  // ---------- adding masters ----------

  /** Addresses that can all be promoted. */
  ghost predicate Promotable(r: Roles, addrs: seq<Address>, ips: seq<string>) {
    && Distinct(ips)
    && IpSet(ips) <= AddrIps(addrs) - r.Members()
    && |r.masters| + |ips| <= |addrs| / 2
  }

  lemma ConsDistinct(s: seq<string>)
    requires Distinct(s) && s != []
    ensures Distinct(s[1..]) && s[0] !in IpSet(s[1..])
    ensures IpSet(s) == {s[0]} + IpSet(s[1..])
  {
    assert s == [s[0]] + s[1..];
  }

  /** While there is one cluster, joining it through a member adds a master to it. */
  lemma JoinedHere(idOf: string -> string, r: Roles, via: string, ip: string)
    requires r.apart == map[] && via in r.Members()
    ensures Joined(idOf, r, via, ip) == OneCluster(r.masters + {ip}, r.parentOf)
  {
  }

  lemma JoinWellFormed(idOf: string -> string, r: Roles, addrs: seq<Address>, via: string, ip: string)
    requires WellFormed(idOf, r, addrs) && ip in AddrIps(addrs) - r.Members() && |r.masters| < |addrs| / 2
    requires via in r.Members()
    ensures WellFormed(idOf, Joined(idOf, r, via, ip), addrs)
  {
    hide AddrIps, MasterIds, Injective, Roles.Members, Joined;
    JoinedHere(idOf, r, via, ip);
    JoinIds(idOf, r, ip);
    JoinFacts(r, ip);
  }

  lemma JoinFacts(r: Roles, ip: string)
    requires ip !in r.Members()
    ensures OneCluster(r.masters + {ip}, r.parentOf).Members() == r.Members() + {ip}
    ensures ip !in r.masters && ip !in r.parentOf.Keys && |r.masters + {ip}| == |r.masters| + 1
  {
  }

  lemma JoinExtends(idOf: string -> string, r: Roles, via: string, ip: string)
    ensures Extends(r, Joined(idOf, r, via, ip))
    ensures Joined(idOf, r, via, ip).parentOf == r.parentOf
  {
    hide ClusterOf;
  }

  lemma JoinIds(idOf: string -> string, r: Roles, ip: string)
    ensures MasterIds(idOf, OneCluster(r.masters + {ip}, r.parentOf)) == MasterIds(idOf, r) + {idOf(ip)}
  {
  }

  lemma JoinKeeps(idOf: string -> string, r: Roles, addrs: seq<Address>, via: string, ips: seq<string>)
    requires WellFormed(idOf, r, addrs) && Promotable(r, addrs, ips) && ips != [] && via in r.Members()
    ensures var r' := Joined(idOf, r, via, ips[0]);
            && WellFormed(idOf, r', addrs) && Promotable(r', addrs, ips[1..]) && via in r'.Members()
            && Extends(r, r') && r'.parentOf == r.parentOf && r'.masters == r.masters + {ips[0]}
    ensures ips[0] !in r.Members() && IpSet(ips) == {ips[0]} + IpSet(ips[1..])
  {
    hide IpSet, Distinct, AddrIps, WellFormed, Extends, Roles.Members, Joined;
    ConsDistinct(ips);
    OneClusterOnly(idOf, r, addrs);
    JoinWellFormed(idOf, r, addrs, via, ips[0]);
    JoinedHere(idOf, r, via, ips[0]);
    JoinFacts(r, ips[0]);
    JoinExtends(idOf, r, via, ips[0]);
  }

  /** A command whose change is legal and keeps everything leaves a safe state, however it answers. */
  lemma ChangeSafe(env: Env, w: World, addrs: seq<Address>, after: Roles)
    requires WellFormed(env.idOf, w.roles, addrs) && WellFormed(env.idOf, after, addrs) && Extends(w.roles, after)
    ensures Safe(env, w, addrs, Change(env, w, true, after))
    ensures Safe(env, w, addrs, Ask(env, w))
    ensures var c := Change(env, w, true, after); c.status == Done ==> c.world == World(after, w.clock + 1)
    ensures Quiet(env, w.clock) ==> Change(env, w, true, after).status == Done && Ask(env, w).status == Done
  {
    hide WellFormed;
  }

  lemma SafeTransitive(env: Env, w: World, addrs: seq<Address>, mid: Run, run: Run)
    requires Safe(env, w, addrs, mid) && Safe(env, mid.world, addrs, run)
    ensures Safe(env, w, addrs, run)
    ensures Quiet(env, w.clock) ==> Quiet(env, mid.world.clock)
  {
    hide WellFormed;
    ExtendsTransitive(w.roles, mid.world.roles, run.world.roles);
  }

  lemma ExtendsReflexive(r: Roles)
    ensures Extends(r, r)
  {
  }

  /** The masters are added one by one to the cluster asked; done means all of them. */
  lemma {:induction false} AddMastersKeeps(env: Env, w: World, addrs: seq<Address>, via: string, ips: seq<string>)
    requires WellFormed(env.idOf, w.roles, addrs) && Promotable(w.roles, addrs, ips) && via in w.roles.Members()
    ensures Safe(env, w, addrs, AddMasters(env, w, via, ips))
    ensures var run := AddMasters(env, w, via, ips);
            && run.world.roles.parentOf == w.roles.parentOf
            && (run.status == Done ==> run.world.roles.masters == w.roles.masters + IpSet(ips))
            && (Quiet(env, w.clock) ==> run.status == Done)
    decreases |ips|
  {
    hide WellFormed, Promotable, IpSet, Quiet, Extends, Joined, Roles.Members;
    ExtendsReflexive(w.roles);
    if ips == [] {
      EmptyIpSet();
    } else {
      JoinKeeps(env.idOf, w.roles, addrs, via, ips);
      var q := Ask(env, w);
      ChangeSafe(env, w, addrs, w.roles);
      if q.status == Done {
        var after := Joined(env.idOf, w.roles, via, ips[0]);
        var c := Change(env, q.world, true, after);
        ChangeSafe(env, q.world, addrs, after);
        SafeTransitive(env, w, addrs, q, c);
        if c.status == Done {
          AddMastersKeeps(env, c.world, addrs, via, ips[1..]);
          SafeTransitive(env, w, addrs, c, AddMasters(env, c.world, via, ips[1..]));
        }
      }
    }
  }

  /** Whatever node is asked and whatever is added, no member changes its role or master. */
  lemma {:induction false} AddMastersExtends(env: Env, w: World, via: string, ips: seq<string>)
    ensures var run := AddMasters(env, w, via, ips);
            && Extends(w.roles, run.world.roles)
            && w.clock <= run.world.clock
            && (run.status == Done || run.status == Error)
    decreases |ips|
  {
    hide Extends, Joined, Roles.Members;
    ExtendsReflexive(w.roles);
    if ips != [] {
      var after := World(Joined(env.idOf, w.roles, via, ips[0]), w.clock + 2);
      JoinExtends(env.idOf, w.roles, via, ips[0]);
      AddMastersExtends(env, after, via, ips[1..]);
      ExtendsTransitive(w.roles, after.roles, AddMasters(env, after, via, ips[1..]).world.roles);
    }
  }

  // ---------- attaching slaves ----------

  /** Addresses that can all be attached, each to a master of its own. */
  ghost predicate Attachable(idOf: string -> string, r: Roles, addrs: seq<Address>, slaves: seq<string>,
                             ids: seq<string>)
  {
    && |slaves| == |ids|
    && Distinct(slaves) && Distinct(ids)
    && IpSet(slaves) <= AddrIps(addrs) - r.Members()
    && IpSet(ids) <= MasterIds(idOf, r) - r.parentOf.Values
  }

  lemma AttachWellFormed(idOf: string -> string, r: Roles, addrs: seq<Address>, ip: string, id: string)
    requires WellFormed(idOf, r, addrs) && ip in AddrIps(addrs) - r.Members()
    requires id in MasterIds(idOf, r) - r.parentOf.Values
    ensures WellFormed(idOf, Attached(r, ip, id), addrs)
  {
    hide AddrIps, MasterIds, Injective, Roles.Members;
    AttachIds(idOf, r, ip, id);
    AttachFacts(r, ip, id);
    InsertFresh(r.parentOf, ip, id);
  }

  lemma AttachFacts(r: Roles, ip: string, id: string)
    requires ip !in r.Members()
    ensures var r' := Attached(r, ip, id);
            && r'.Members() == r.Members() + {ip} && ip !in r.masters && ip !in r.parentOf.Keys
            && r'.parentOf.Keys == r.parentOf.Keys + {ip} && |r'.parentOf| == |r.parentOf| + 1
            && r'.parentOf.Values <= r.parentOf.Values + {id}
  {
    InsertKey(r.parentOf, ip, id);
  }

  lemma InsertKey(m: map<string, string>, k: string, v: string)
    requires k !in m.Keys
    ensures m[k := v].Keys == m.Keys + {k} && m[k := v].Values <= m.Values + {v} && |m[k := v]| == |m| + 1
  {
    assert |m[k := v]| == |m[k := v].Keys| && |m| == |m.Keys|;
  }

  lemma AttachExtends(r: Roles, ip: string, id: string)
    requires ip !in r.Members()
    ensures Extends(r, Attached(r, ip, id))
  {
  }

  lemma AttachIds(idOf: string -> string, r: Roles, ip: string, id: string)
    ensures MasterIds(idOf, Attached(r, ip, id)) == MasterIds(idOf, r)
  {
  }

  /** Adding a new key with a new value keeps a map injective. */
  lemma InsertFresh(m: map<string, string>, k: string, v: string)
    requires k !in m.Keys && v !in m.Values
    requires Injective(m)
    ensures var m' := m[k := v];
            m'.Keys == m.Keys + {k} && m'.Values <= m.Values + {v} && |m'| == |m| + 1 && Injective(m')
  {
    var m' := m[k := v];
    assert |m'| == |m'.Keys| && |m| == |m.Keys|;
    forall s, t | s in m' && t in m' && s != t ensures m'[s] != m'[t] {
      if s != k { assert m[s] in m.Values; }
      if t != k { assert m[t] in m.Values; }
    }
  }

  lemma AttachKeeps(idOf: string -> string, r: Roles, addrs: seq<Address>, slaves: seq<string>, ids: seq<string>)
    requires WellFormed(idOf, r, addrs) && Attachable(idOf, r, addrs, slaves, ids) && slaves != []
    ensures var r' := Attached(r, slaves[0], ids[0]);
            && WellFormed(idOf, r', addrs) && Attachable(idOf, r', addrs, slaves[1..], ids[1..])
            && Extends(r, r') && |r'.parentOf| == |r.parentOf| + 1
    ensures slaves[0] !in r.Members() && ids[0] in MasterIds(idOf, r)
  {
    hide IpSet, Distinct, AddrIps, WellFormed, MasterIds, Extends, Roles.Members;
    ConsDistinct(slaves);
    ConsDistinct(ids);
    AttachWellFormed(idOf, r, addrs, slaves[0], ids[0]);
    AttachFacts(r, slaves[0], ids[0]);
    AttachIds(idOf, r, slaves[0], ids[0]);
    AttachExtends(r, slaves[0], ids[0]);
  }

  /** The slaves are attached one by one; done means all of them. */
  lemma {:induction false} AttachSlavesKeeps(env: Env, w: World, addrs: seq<Address>, slaves: seq<string>,
                                             ids: seq<string>)
    requires |slaves| == |ids|
    requires WellFormed(env.idOf, w.roles, addrs) && Attachable(env.idOf, w.roles, addrs, slaves, ids)
    ensures Safe(env, w, addrs, AttachSlaves(env, w, slaves, ids))
    ensures var run := AttachSlaves(env, w, slaves, ids);
            && run.world.roles.masters == w.roles.masters
            && (run.status == Done ==> |run.world.roles.parentOf| == |w.roles.parentOf| + |slaves|)
            && (Quiet(env, w.clock) ==> run.status == Done)
    decreases |slaves|
  {
    hide WellFormed, Attachable, MasterIds, Quiet, Extends;
    ExtendsReflexive(w.roles);
    if slaves != [] {
      AttachKeeps(env.idOf, w.roles, addrs, slaves, ids);
      var q := Ask(env, w);
      ChangeSafe(env, w, addrs, w.roles);
      if q.status == Done {
        var after := Attached(w.roles, slaves[0], ids[0]);
        var c := Change(env, q.world, true, after);
        ChangeSafe(env, q.world, addrs, after);
        SafeTransitive(env, w, addrs, q, c);
        if c.status == Done {
          AttachSlavesKeeps(env, c.world, addrs, slaves[1..], ids[1..]);
          SafeTransitive(env, w, addrs, c, AttachSlaves(env, c.world, slaves[1..], ids[1..]));
        }
      }
    }
  }

  /** Whatever ids the slaves are attached to, no member changes its role or master. */
  lemma {:induction false} AttachSlavesExtends(env: Env, w: World, slaves: seq<string>, ids: seq<string>)
    requires |slaves| == |ids|
    ensures var run := AttachSlaves(env, w, slaves, ids);
            && Extends(w.roles, run.world.roles)
            && run.world.roles.masters == w.roles.masters && run.world.roles.apart == w.roles.apart
            && w.clock <= run.world.clock
            && (run.status == Done || run.status == Error)
    decreases |slaves|
  {
    hide Extends, MasterIds, Roles.Members;
    ExtendsReflexive(w.roles);
    if slaves != [] {
      var after := World(Attached(w.roles, slaves[0], ids[0]), w.clock + 2);
      AttachSlavesExtends(env, after, slaves[1..], ids[1..]);
      if slaves[0] !in w.roles.Members() {
        AttachExtends(w.roles, slaves[0], ids[0]);
        ExtendsTransitive(w.roles, after.roles, AttachSlaves(env, after, slaves[1..], ids[1..]).world.roles);
      }
    }
  }

  lemma AttachUndisturbed(env: Env, w: World, slaves: seq<string>, ids: seq<string>)
    requires |slaves| == |ids| && slaves != [] && Quiet(env, w.clock) && ids[0] in MasterIds(env.idOf, w.roles)
    ensures var after := World(Attached(w.roles, slaves[0], ids[0]), w.clock + 2);
            && Quiet(env, after.clock)
            && AttachSlaves(env, w, slaves, ids) ==
                 if slaves[0] in w.roles.Members() then Run(World(w.roles, w.clock + 2), Error)
                 else AttachSlaves(env, after, slaves[1..], ids[1..])
  {
    hide MasterIds, Roles.Members;
  }

  /** Undisturbed, the slaves are attached exactly when none of them is a member already. */
  lemma {:induction false} AttachSlavesExact(env: Env, w: World, slaves: seq<string>, ids: seq<string>)
    requires |slaves| == |ids| && Distinct(slaves) && Quiet(env, w.clock)
    requires IpSet(ids) <= MasterIds(env.idOf, w.roles)
    ensures AttachSlaves(env, w, slaves, ids).status == Done <==> IpSet(slaves) !! w.roles.Members()
    decreases |slaves|
  {
    if slaves == [] {
      EmptyIpSet();
    } else {
      hide IpSet, Distinct, MasterIds, Roles.Members, Quiet, AttachSlaves, Attached;
      ConsDistinct(slaves);
      ConsIpSet(ids);
      AttachUndisturbed(env, w, slaves, ids);
      if slaves[0] !in w.roles.Members() {
        var after := World(Attached(w.roles, slaves[0], ids[0]), w.clock + 2);
        AttachIds(env.idOf, w.roles, slaves[0], ids[0]);
        AttachFacts(w.roles, slaves[0], ids[0]);
        AttachSlavesExact(env, after, slaves[1..], ids[1..]);
      }
    }
  }

  lemma ConsIpSet(s: seq<string>)
    requires s != []
    ensures IpSet(s) == {s[0]} + IpSet(s[1..])
  {
    assert s == [s[0]] + s[1..];
  }

  // ---------- node ids ----------

  lemma {:induction false} IdsOfMembers(idOf: string -> string, r: Roles, ips: seq<string>)
    requires IpSet(ips) <= r.Members()
    ensures |IdsOf(idOf, r, ips)| == |ips|
    ensures forall i :: 0 <= i < |ips| ==> IdsOf(idOf, r, ips)[i] == idOf(ips[i])
    decreases |ips|
  {
    if ips != [] {
      assert ips == [ips[0]] + ips[1..];
      assert ips[0] in IpSet(ips);
      IdsOfMembers(idOf, r, ips[1..]);
    }
  }

  /** Waiting masters, looked up, can take the slaves. */
  lemma IdsAttach(idOf: string -> string, r: Roles, addrs: seq<Address>, slaves: seq<string>, parents: seq<string>)
    requires GoodIds(idOf) && WellFormed(idOf, r, addrs)
    requires |slaves| == |parents| && Distinct(slaves) && Distinct(parents)
    requires IpSet(slaves) <= AddrIps(addrs) - r.Members()
    requires IpSet(parents) <= r.masters - Served(idOf, r)
    ensures Attachable(idOf, r, addrs, slaves, IdsOf(idOf, r, parents))
  {
    IdsOfMembers(idOf, r, parents);
    var ids := IdsOf(idOf, r, parents);
    forall id | id in IpSet(ids) ensures id in MasterIds(idOf, r) - r.parentOf.Values {
      var i :| 0 <= i < |ids| && ids[i] == id;
      assert parents[i] in IpSet(parents);
    }
  }

  // ---------- pods ----------

  /** Pods are only ever added. */
  ghost predicate Growing(addrs: seq<Address>, sizes: seq<seq<Address>>)
    decreases |sizes|
  {
    sizes == [] || (GoodAddrs(sizes[0]) && AddrIps(addrs) <= AddrIps(sizes[0]) && Growing(sizes[0], sizes[1..]))
  }

  function LastPods(addrs: seq<Address>, sizes: seq<seq<Address>>): seq<Address> {
    if sizes == [] then addrs else sizes[|sizes| - 1]
  }

  /** A topology stays in order when pods are added. */
  lemma GrowKeeps(idOf: string -> string, r: Roles, addrs: seq<Address>, more: seq<Address>)
    requires GoodAddrs(addrs) && GoodAddrs(more) && AddrIps(addrs) <= AddrIps(more)
    requires WellFormed(idOf, r, addrs)
    ensures WellFormed(idOf, r, more) && |addrs| <= |more|
  {
    hide AddrIps, MasterIds, Injective, Roles.Members;
    DistinctIpCount(addrs);
    DistinctIpCount(more);
    Hosts.SubsetSize(AddrIps(addrs), AddrIps(more));
  }
}
