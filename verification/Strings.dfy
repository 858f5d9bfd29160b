/** The string operations the planners rely on: the order of `sort.Strings`, `strings.Contains`
    and `strings.Split(s, ":")[0]`. Strings are sequences of characters, compared left to right. */
module Strings {

  /** Lexicographic order. */
  predicate Le(a: string, b: string) {
    a == [] || (b != [] && (a[0] < b[0] || (a[0] == b[0] && Le(a[1..], b[1..]))))
  }

  predicate Lt(a: string, b: string) {
    Le(a, b) && a != b
  }

  lemma LeTotal(a: string, b: string)
    ensures Le(a, b) || Le(b, a)
  {
  }

  lemma {:induction false} LeAntisymmetric(a: string, b: string)
    requires Le(a, b) && Le(b, a)
    ensures a == b
  {
    if a != [] && b != [] {
      LeAntisymmetric(a[1..], b[1..]);
      assert a == [a[0]] + a[1..] && b == [b[0]] + b[1..];
    }
  }

  lemma {:induction false} LeTransitive(a: string, b: string, c: string)
    requires Le(a, b) && Le(b, c)
    ensures Le(a, c)
  {
    if a != [] && a[0] == b[0] == c[0] {
      LeTransitive(a[1..], b[1..], c[1..]);
    }
  }

  lemma LtTransitive(a: string, b: string, c: string)
    requires Lt(a, b) && Lt(b, c)
    ensures Lt(a, c)
  {
    LeTransitive(a, b, c);
    if a == c {
      LeAntisymmetric(a, b);
    }
  }

  lemma LtAsymmetric(a: string, b: string)
    requires Lt(a, b)
    ensures !Lt(b, a)
  {
    if Lt(b, a) {
      LeAntisymmetric(a, b);
    }
  }

  lemma LtTrichotomy(a: string, b: string)
    ensures a == b || Lt(a, b) || Lt(b, a)
  {
    LeTotal(a, b);
  }

  predicate StrictlySorted(s: seq<string>) {
    forall i, j :: 0 <= i < j < |s| ==> Lt(s[i], s[j])
  }

  /** `strings.Contains(s, sub)`. */
  predicate Contains(s: string, sub: string) {
    sub <= s || (s != [] && Contains(s[1..], sub))
  }

  /** `strings.Split(s, ":")[0]`: everything before the first colon. */
  function BeforeColon(s: string): string {
    if s == [] || s[0] == ':' then [] else [s[0]] + BeforeColon(s[1..])
  }

  lemma {:induction false} BeforeColonOfIpPort(ip: string, rest: string)
    requires ':' !in ip
    requires rest != [] && rest[0] == ':'
    ensures BeforeColon(ip + rest) == ip
  {
    if ip == [] {
      assert ip + rest == rest;
    } else {
      assert (ip + rest)[1..] == ip[1..] + rest;
      BeforeColonOfIpPort(ip[1..], rest);
    }
  }

  // ---------- what the operations mean, by position ----------

  /** a and b agree up to k, where a ends or has the smaller character. */
  predicate SmallerAt(a: string, b: string, k: nat) {
    && k <= |a| && k < |b| && a[..k] == b[..k]
    && (k < |a| ==> a[k] < b[k])
  }

  /** The order is decided at the first difference, and a proper prefix comes first. */
  lemma {:induction false} LtExactly(a: string, b: string)
    ensures Lt(a, b) <==> exists k: nat :: SmallerAt(a, b, k)
  {
    if a != [] && b != [] && a[0] == b[0] {
      LtExactly(a[1..], b[1..]);
      if Lt(a, b) {
        var k: nat :| SmallerAt(a[1..], b[1..], k);
        assert a[..k + 1] == [a[0]] + a[1..][..k] && b[..k + 1] == [b[0]] + b[1..][..k];
        assert SmallerAt(a, b, k + 1);
      }
      if k: nat :| SmallerAt(a, b, k) {
        assert k > 0;
        assert a[1..][..k - 1] == a[..k][1..] && b[1..][..k - 1] == b[..k][1..];
        assert SmallerAt(a[1..], b[1..], k - 1);
      }
      assert a == [a[0]] + a[1..] && b == [b[0]] + b[1..];
    } else if Lt(a, b) {
      assert SmallerAt(a, b, 0);
    }
  }

  predicate OccursAt(s: string, sub: string, i: nat) {
    i + |sub| <= |s| && s[i..i + |sub|] == sub
  }

  lemma OccursFirst(s: string, sub: string)
    ensures OccursAt(s, sub, 0) <==> sub <= s
  {
  }

  /** One string contains another if and only if it occurs somewhere in it. */
  lemma {:induction false} ContainsExactly(s: string, sub: string)
    ensures Contains(s, sub) <==> exists i: nat :: OccursAt(s, sub, i)
  {
    OccursFirst(s, sub);
    if sub <= s {
      assert OccursAt(s, sub, 0);
    } else if s != [] {
      ContainsExactly(s[1..], sub);
      if Contains(s[1..], sub) {
        var i: nat :| OccursAt(s[1..], sub, i);
        assert s[i + 1..i + 1 + |sub|] == s[1..][i..i + |sub|];
        assert OccursAt(s, sub, i + 1);
      }
      if i: nat :| OccursAt(s, sub, i) {
        assert s[1..][i - 1..i - 1 + |sub|] == s[i..i + |sub|];
        assert OccursAt(s[1..], sub, i - 1);
      }
    }
  }

  /** What comes before the first colon: a prefix without one, up to a colon or the end. */
  lemma {:induction false} BeforeColonExactly(s: string)
    ensures var p := BeforeColon(s);
            p <= s && ':' !in p && (p == s || (|p| < |s| && s[|p|] == ':'))
  {
    if s != [] && s[0] != ':' {
      BeforeColonExactly(s[1..]);
      assert s == [s[0]] + s[1..];
    }
  }
}
