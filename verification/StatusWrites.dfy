/** The recorded status: how it is built, canonicalised, compared and written, and what the
    recorded history says about how a failed cluster must be repaired. */
module StatusWrites {
  import opened Strings

  /** NoPhase is the phase "None", also of an object nobody has written a status to. */
  datatype Phase = NoPhase | Creating | Running | Failed | Scaling | Upgrading | Deleting

  datatype Condition = Condition(
    name: string, kind: string, instance: string, nodeId: string, masterNodeId: string, domainName: string,
    slots: string, hostname: string, hostIP: string, status: string, lastTransitionTime: int,
    reason: string, message: string)

  datatype Status = Status(replicas: int, reason: string, phase: Phase, conditions: seq<Condition>)

  /** A condition without the time it was observed. */
  function Strip(c: Condition): Condition {
    c.(lastTransitionTime := 0)
  }

  function StripAll(s: seq<Condition>): (r: seq<Condition>)
    ensures |r| == |s|
  {
    seq(|s|, i requires 0 <= i < |s| => Strip(s[i]))
  }

  predicate SameCondition(v: Condition, w: Condition) {
    !(v.reason != w.reason || v.domainName != w.domainName || v.status != w.status || v.name != w.name
      || v.nodeId != w.nodeId || v.slots != w.slots || v.kind != w.kind || v.hostIP != w.hostIP
      || v.message != w.message || v.masterNodeId != w.masterNodeId || v.hostname != w.hostname
      || v.instance != w.instance)
  }

  /** `DeepEqualRedisClusterStatus`: equality of everything but the observation times. */
  predicate DeepEqual(a: Status, b: Status)
    ensures DeepEqual(a, b) <==>
      a.(conditions := StripAll(a.conditions)) == b.(conditions := StripAll(b.conditions))
  {
    if a.replicas != b.replicas || a.reason != b.reason || a.phase != b.phase then false
    else if |a.conditions| != |b.conditions| then false
    else if |a.conditions| == 0 then true
    else
      assert (forall i :: 0 <= i < |a.conditions| ==> SameCondition(a.conditions[i], b.conditions[i]))
          <==> StripAll(a.conditions) == StripAll(b.conditions) by {
        SameConditions(a.conditions, b.conditions);
      }
      forall i :: 0 <= i < |a.conditions| ==> SameCondition(a.conditions[i], b.conditions[i])
  }

  lemma SameConditions(s: seq<Condition>, t: seq<Condition>)
    requires |s| == |t|
    ensures (forall i :: 0 <= i < |s| ==> SameCondition(s[i], t[i])) <==> StripAll(s) == StripAll(t)
  {
    if StripAll(s) == StripAll(t) {
      forall i | 0 <= i < |s| ensures SameCondition(s[i], t[i]) {
        assert StripAll(s)[i] == StripAll(t)[i];
      }
    }
  }

  // ---------- canonical order ----------

  /** Insert before the first condition whose name is greater, after those of the same name. */
  function InsertByName(s: seq<Condition>, c: Condition): (r: seq<Condition>)
    ensures |r| == |s| + 1
  {
    if s == [] || Le(s[|s| - 1].name, c.name) then s + [c]
    else InsertByName(s[..|s| - 1], c) + [s[|s| - 1]]
  }

  /** `sort.SliceStable` by name. */
  function SortByName(s: seq<Condition>): (r: seq<Condition>)
    ensures |r| == |s|
  {
    if s == [] then [] else InsertByName(SortByName(s[..|s| - 1]), s[|s| - 1])
  }

  ghost predicate DistinctNames(s: seq<Condition>) {
    forall i, j :: 0 <= i < j < |s| ==> s[i].name != s[j].name
  }

  ghost predicate SortedByName(s: seq<Condition>) {
    forall i, j :: 0 <= i < j < |s| ==> Le(s[i].name, s[j].name)
  }

  lemma {:induction false} InsertPermutes(s: seq<Condition>, c: Condition)
    ensures multiset(InsertByName(s, c)) == multiset(s) + multiset{c}
  {
    hide Le;
    if !(s == [] || Le(s[|s| - 1].name, c.name)) {
      InsertPermutes(s[..|s| - 1], c);
      assert s == s[..|s| - 1] + [s[|s| - 1]];
    }
  }

  lemma {:induction false} SortPermutes(s: seq<Condition>)
    ensures multiset(SortByName(s)) == multiset(s)
  {
    hide InsertByName;
    if s != [] {
      SortPermutes(s[..|s| - 1]);
      InsertPermutes(SortByName(s[..|s| - 1]), s[|s| - 1]);
      assert s == s[..|s| - 1] + [s[|s| - 1]];
    }
  }

  lemma {:induction false} InsertSorted(s: seq<Condition>, c: Condition)
    requires SortedByName(s)
    ensures SortedByName(InsertByName(s, c))
  {
    hide Le;
    if s != [] {
      var init, last := s[..|s| - 1], s[|s| - 1];
      if Le(last.name, c.name) {
        forall i | 0 <= i < |s| ensures Le(s[i].name, c.name) {
          if i < |s| - 1 { LeTransitive(s[i].name, last.name, c.name); }
        }
      } else {
        InsertSorted(init, c);
        LeTotal(last.name, c.name);
        var r := InsertByName(init, c);
        InsertPermutes(init, c);
        forall i | 0 <= i < |r| ensures Le(r[i].name, last.name) {
          assert r[i] in multiset(init) + multiset{c};
        }
      }
    }
  }

  lemma {:induction false} SortSorted(s: seq<Condition>)
    ensures SortedByName(SortByName(s))
  {
    hide InsertByName, Le;
    if s != [] {
      SortSorted(s[..|s| - 1]);
      InsertSorted(SortByName(s[..|s| - 1]), s[|s| - 1]);
    }
  }

  /** The conditions of this name, in order. */
  function Named(s: seq<Condition>, name: string): seq<Condition> {
    if s == [] then []
    else Named(s[..|s| - 1], name) + if s[|s| - 1].name == name then [s[|s| - 1]] else []
  }

  lemma NamedSnoc(s: seq<Condition>, c: Condition, name: string)
    ensures Named(s + [c], name) == Named(s, name) + if c.name == name then [c] else []
  {
    assert (s + [c])[..|s|] == s;
  }

  lemma {:induction false} InsertStable(s: seq<Condition>, c: Condition, name: string)
    ensures Named(InsertByName(s, c), name) == Named(s, name) + if c.name == name then [c] else []
  {
    hide Named;
    if s == [] || Le(s[|s| - 1].name, c.name) {
      NamedSnoc(s, c, name);
    } else {
      var init, last := s[..|s| - 1], s[|s| - 1];
      LeTotal(last.name, last.name);
      InsertStable(init, c, name);
      NamedSnoc(InsertByName(init, c), last, name);
      NamedSnoc(init, last, name);
      assert s == init + [last];
    }
  }

  /** Stability: sorting keeps each name's own conditions in order. */
  lemma {:induction false} SortStable(s: seq<Condition>, name: string)
    ensures Named(SortByName(s), name) == Named(s, name)
  {
    hide Named, InsertByName;
    if s != [] {
      var init, last := s[..|s| - 1], s[|s| - 1];
      SortStable(init, name);
      InsertStable(SortByName(init), last, name);
      NamedSnoc(init, last, name);
      assert s == init + [last];
    }
  }

  lemma {:induction false} NamedMembers(s: seq<Condition>, name: string, c: Condition)
    ensures c in Named(s, name) <==> c in s && c.name == name
    ensures multiset(Named(s, name))[c] == if c.name == name then multiset(s)[c] else 0
  {
    if s != [] {
      var init, last := s[..|s| - 1], s[|s| - 1];
      assert s == init + [last];
      NamedMembers(init, name, c);
    }
  }

  /** Every name has the same conditions in the same order. */
  ghost predicate SamePerName(s: seq<Condition>, t: seq<Condition>) {
    forall n :: Named(s, n) == Named(t, n)
  }

  /** A sorted list is determined by each name's own conditions. */
  lemma {:induction false} SortedDetermined(s: seq<Condition>, t: seq<Condition>)
    requires SortedByName(s) && SortedByName(t)
    requires SamePerName(s, t)
    ensures s == t
  {
    hide Named, Le;
    if s == [] {
      if t != [] { LastNamed(t); LastIsNamed(s, t); }
    } else if t == [] {
      LastNamed(s);
      LastIsNamed(t, s);
    } else {
      var x, y := s[|s| - 1], t[|t| - 1];
      LastNamed(s);
      LastNamed(t);
      LastIsNamed(t, s);
      LastIsNamed(s, t);
      LastGreatest(s, y);
      LastGreatest(t, x);
      LeAntisymmetric(x.name, y.name);
      var s', t' := s[..|s| - 1], t[..|t| - 1];
      assert s == s' + [x] && t == t' + [y];
      forall n ensures Named(s', n) == Named(t', n) {
        NamedSnoc(s', x, n);
        NamedSnoc(t', y, n);
        DropLast(Named(s', n), Named(t', n), x, x.name == n);
      }
      SortedDetermined(s', t');
    }
  }

  lemma DropLast(a: seq<Condition>, b: seq<Condition>, x: Condition, with: bool)
    requires (a + if with then [x] else []) == (b + if with then [x] else [])
    ensures a == b
  {
    if with {
      assert a == (a + [x])[..|a|] && b == (b + [x])[..|b|];
    } else {
      assert a + [] == a && b + [] == b;
    }
  }

  lemma LastNamed(s: seq<Condition>)
    requires s != []
    ensures var l, own := s[|s| - 1], Named(s, s[|s| - 1].name); own != [] && own[|own| - 1] == l
  {
  }

  lemma LastIsNamed(s: seq<Condition>, t: seq<Condition>)
    requires t != [] && Named(s, t[|t| - 1].name) == Named(t, t[|t| - 1].name)
    ensures t[|t| - 1] in s
  {
    LastNamed(t);
    NamedMembers(s, t[|t| - 1].name, t[|t| - 1]);
  }

  lemma LastGreatest(s: seq<Condition>, c: Condition)
    requires SortedByName(s) && c in s
    ensures Le(c.name, s[|s| - 1].name)
  {
    var i :| 0 <= i < |s| && s[i] == c;
    LeTotal(c.name, c.name);
  }

  ghost function Observed(s: seq<Condition>): set<Condition> {
    set c | c in StripAll(s)
  }

  lemma {:induction false} StripSort(s: seq<Condition>)
    ensures StripAll(SortByName(s)) == SortByName(StripAll(s))
  {
    hide Le, InsertByName;
    if s == [] {
      assert StripAll(s) == [];
    } else {
      var init, last := s[..|s| - 1], s[|s| - 1];
      StripSort(init);
      StripInsert(SortByName(init), last);
      assert StripAll(s)[..|s| - 1] == StripAll(init);
    }
  }

  lemma {:induction false} StripInsert(s: seq<Condition>, c: Condition)
    ensures StripAll(InsertByName(s, c)) == InsertByName(StripAll(s), Strip(c))
  {
    hide Le;
    if s == [] || Le(s[|s| - 1].name, c.name) {
      assert StripAll(s + [c]) == StripAll(s) + [Strip(c)];
    } else {
      var init, last := s[..|s| - 1], s[|s| - 1];
      StripInsert(init, c);
      assert StripAll(s)[..|s| - 1] == StripAll(init);
      assert StripAll(InsertByName(init, c) + [last]) == StripAll(InsertByName(init, c)) + [Strip(last)];
    }
  }

  /** Canonicalisation, exactly: sorting and comparing without times accepts two lists if and only if each
      name has the same observed conditions in the same order. */
  lemma CanonicalExactly(a: seq<Condition>, b: seq<Condition>)
    ensures StripAll(SortByName(a)) == StripAll(SortByName(b))
       <==> SamePerName(StripAll(a), StripAll(b))
  {
    hide SortByName, Named, SortedByName;
    StripSort(a);
    StripSort(b);
    var sa, sb := StripAll(a), StripAll(b);
    forall n ensures Named(SortByName(sa), n) == Named(sa, n) && Named(SortByName(sb), n) == Named(sb, n) {
      SortStable(sa, n);
      SortStable(sb, n);
    }
    if SortByName(sa) == SortByName(sb) {
      forall n ensures Named(sa, n) == Named(sb, n) {
        assert Named(SortByName(sa), n) == Named(sa, n) && Named(SortByName(sb), n) == Named(sb, n);
      }
    } else if SamePerName(sa, sb) {
      SortSorted(sa);
      SortSorted(sb);
      SortedDetermined(SortByName(sa), SortByName(sb));
    }
  }

  lemma StripDistinct(s: seq<Condition>)
    requires DistinctNames(s)
    ensures DistinctNames(StripAll(s))
  {
    forall i, j | 0 <= i < j < |s| ensures StripAll(s)[i].name != StripAll(s)[j].name {
      assert s[i].name != s[j].name;
    }
  }

  lemma {:induction false} NamedNone(s: seq<Condition>, name: string)
    requires forall i :: 0 <= i < |s| ==> s[i].name != name
    ensures Named(s, name) == []
  {
    if s != [] {
      NamedNone(s[..|s| - 1], name);
    }
  }

  /** With distinct names every name has at most one condition. */
  lemma {:induction false} NamedOnce(s: seq<Condition>, name: string)
    requires DistinctNames(s)
    ensures |Named(s, name)| <= 1
  {
    if s != [] {
      if s[|s| - 1].name == name {
        NamedNone(s[..|s| - 1], name);
      } else {
        NamedOnce(s[..|s| - 1], name);
      }
    }
  }

  /** Sorting twice is sorting once. */
  lemma SortTwice(s: seq<Condition>)
    ensures SortByName(SortByName(s)) == SortByName(s)
  {
    hide SortByName, Named, SortedByName;
    SortSorted(s);
    SortSorted(SortByName(s));
    forall n ensures Named(SortByName(SortByName(s)), n) == Named(SortByName(s), n) {
      SortStable(SortByName(s), n);
    }
    SortedDetermined(SortByName(SortByName(s)), SortByName(s));
  }

  /** So with distinct names it accepts exactly the same conditions, whatever order `cluster nodes` lists
      them in. */
  lemma CanonicalComparison(a: seq<Condition>, b: seq<Condition>)
    requires DistinctNames(a) && DistinctNames(b)
    ensures StripAll(SortByName(a)) == StripAll(SortByName(b)) <==> Observed(a) == Observed(b)
  {
    hide SortByName, Named, DistinctNames;
    CanonicalExactly(a, b);
    StripDistinct(a);
    StripDistinct(b);
    var sa, sb := StripAll(a), StripAll(b);
    if Observed(a) == Observed(b) {
      forall n ensures Named(sa, n) == Named(sb, n) {
        NamedOnce(sa, n);
        NamedOnce(sb, n);
        SameSingle(Named(sa, n), Named(sb, n)) by {
          forall c ensures c in Named(sa, n) <==> c in Named(sb, n) {
            NamedMembers(sa, n, c);
            NamedMembers(sb, n, c);
            assert c in sa <==> c in Observed(a);
            assert c in sb <==> c in Observed(b);
          }
        }
      }
    } else if StripAll(SortByName(a)) == StripAll(SortByName(b)) {
      forall c ensures c in Observed(a) <==> c in Observed(b) {
        NamedMembers(sa, c.name, c);
        NamedMembers(sb, c.name, c);
        assert Named(sa, c.name) == Named(sb, c.name);
      }
    }
  }

  lemma SameSingle(s: seq<Condition>, t: seq<Condition>)
    requires |s| <= 1 && |t| <= 1 && forall c :: c in s <==> c in t
    ensures s == t
  {
    assert (s != [] ==> s[0] in s) && (t != [] ==> t[0] in t);
  }

  // ---------- exactly when the order does not show ----------

  /** Conditions of equal names are equal but for their times. */
  ghost predicate NamesTell(s: seq<Condition>) {
    forall i, j :: 0 <= i < j < |s| && s[i].name == s[j].name ==> Strip(s[i]) == Strip(s[j])
  }

  lemma {:induction false} NamedStrip(s: seq<Condition>, name: string)
    ensures Named(StripAll(s), name) == StripAll(Named(s, name))
  {
    if s == [] {
      assert StripAll(s) == [];
    } else {
      var init, last := s[..|s| - 1], s[|s| - 1];
      NamedStrip(init, name);
      assert StripAll(s) == StripAll(init) + [Strip(last)];
      NamedSnoc(StripAll(init), Strip(last), name);
      assert StripAll(Named(init, name) + [last]) == StripAll(Named(init, name)) + [Strip(last)];
    }
  }

  /** Among the conditions of one name, any order looks the same if names tell. */
  lemma NamedPermuted(s: seq<Condition>, t: seq<Condition>, name: string)
    requires multiset(s) == multiset(t) && NamesTell(s)
    ensures StripAll(Named(s, name)) == StripAll(Named(t, name))
  {
    hide Named;
    var a, b := Named(s, name), Named(t, name);
    forall c ensures multiset(a)[c] == multiset(b)[c] {
      NamedMembers(s, name, c);
      NamedMembers(t, name, c);
    }
    assert multiset(a) == multiset(b);
    assert |a| == |multiset(a)| == |multiset(b)| == |b|;
    forall i | 0 <= i < |a| ensures Strip(a[i]) == Strip(b[i]) {
      assert a[i] in a && b[i] in multiset(b);
      NamedMembers(s, name, a[i]);
      NamedMembers(s, name, b[i]);
      assert b[i] in a;
      var j :| 0 <= j < |s| && s[j] == a[i];
      var k :| 0 <= k < |s| && s[k] == b[i];
    }
  }

  /** s with the conditions at i and j moved to the end, in either order. */
  lemma TwoLast(s: seq<Condition>, i: nat, j: nat) returns (rest: seq<Condition>)
    requires i < j < |s|
    ensures multiset(rest + [s[i]] + [s[j]]) == multiset(s) == multiset(rest + [s[j]] + [s[i]])
  {
    rest := s[..i] + s[i + 1..j] + s[j + 1..];
    assert s == s[..i] + [s[i]] + s[i + 1..j] + [s[j]] + s[j + 1..];
  }

  /** The comparison does not depend on the order of the listing if and only if conditions of equal names,
      such as the nameless ones of members outside the endpoints, differ in nothing but their times. */
  lemma OrderIndependentExactly(s: seq<Condition>)
    ensures (forall t :: multiset(t) == multiset(s) ==> StripAll(SortByName(t)) == StripAll(SortByName(s)))
       <==> NamesTell(s)
  {
    hide SortByName, Named;
    if NamesTell(s) {
      forall t: seq<Condition> | multiset(t) == multiset(s)
        ensures StripAll(SortByName(t)) == StripAll(SortByName(s))
      {
        forall n ensures Named(StripAll(t), n) == Named(StripAll(s), n) {
          NamedPermuted(s, t, n);
          NamedStrip(s, n);
          NamedStrip(t, n);
        }
        CanonicalExactly(t, s);
      }
    } else {
      var i, j :| 0 <= i < j < |s| && s[i].name == s[j].name && Strip(s[i]) != Strip(s[j]);
      var rest := TwoLast(s, i, j);
      var t, u := rest + [s[i]] + [s[j]], rest + [s[j]] + [s[i]];
      SwappedDiffers(rest, s[i], s[j]);
      assert multiset(t) == multiset(s) && multiset(u) == multiset(s);
    }
  }

  lemma SwappedDiffers(rest: seq<Condition>, c: Condition, d: Condition)
    requires c.name == d.name && Strip(c) != Strip(d)
    ensures StripAll(SortByName(rest + [c] + [d])) != StripAll(SortByName(rest + [d] + [c]))
  {
    hide SortByName, Named;
    var t, u, n := rest + [c] + [d], rest + [d] + [c], c.name;
    CanonicalExactly(t, u);
    NamedSnoc(rest + [c], d, n);
    NamedSnoc(rest, c, n);
    NamedSnoc(rest + [d], c, n);
    NamedSnoc(rest, d, n);
    NamedStrip(t, n);
    NamedStrip(u, n);
    var own := Named(rest, n);
    assert StripAll(own + [c] + [d])[|own|] == Strip(c) && StripAll(own + [d] + [c])[|own|] == Strip(d);
    assert Named(StripAll(t), n) != Named(StripAll(u), n);
  }

  /** It does show for two members outside the endpoints, which are both recorded without a name. */
  lemma NamelessMembersDependOnOrder()
    ensures var a := Condition("", "", "1", "", "", "", "", "", "", "", 0, "", "");
            var b := a.(instance := "2");
            && Observed([a, b]) == Observed([b, a])
            && StripAll(SortByName([a, b])) != StripAll(SortByName([b, a]))
  {
    hide SortByName;
    var a := Condition("", "", "1", "", "", "", "", "", "", "", 0, "", "");
    var b := a.(instance := "2");
    assert a.instance[0] != b.instance[0];
    SwappedDiffers([], a, b);
    assert [] + [a] + [b] == [a, b] && [] + [b] + [a] == [b, a];
    assert StripAll([a, b]) == [a, b] && StripAll([b, a]) == [b, a];
  }
}
