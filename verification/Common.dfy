/** Small shared vocabulary: optional values, sums over the entries of a finite map, splitting a text, and pages. */
module Common {

  datatype Option<+T> = None | Some(value: T)

  /** The sum of all values of `m`. */
  ghost function MapSum<K>(m: map<K, int>): int
    decreases |m|
  {
    if m == map[] then 0 else
      var k :| k in m;
      m[k] + MapSum(m - {k})
  }

  /** The sum does not depend on which entry is taken first. */
  lemma {:induction false} MapSumTake<K>(m: map<K, int>, k: K)
    requires k in m
    ensures MapSum(m) == m[k] + MapSum(m - {k})
    decreases |m|
  {
    var c :| c in m && MapSum(m) == m[c] + MapSum(m - {c});
    if c != k {
      MapSumTake(m - {c}, k);
      MapSumTake(m - {k}, c);
      assert m - {c} - {k} == m - {k} - {c};
    }
  }

  /** Writing one entry changes the sum by the difference at that entry. */
  lemma MapSumUpdate<K>(m: map<K, int>, k: K, v: int)
    ensures MapSum(m[k := v]) == MapSum(m) - (if k in m then m[k] else 0) + v
  {
    MapSumTake(m[k := v], k);
    if k in m {
      MapSumTake(m, k);
      assert m[k := v] - {k} == m - {k};
    } else {
      assert m[k := v] - {k} == m;
    }
  }

  /** A text is split in only one way at the last occurrence of a character. */
  lemma LastMarkSplits(c: char, a: string, b: string, m: string, n: string)
    requires c !in m && c !in n
    ensures a + [c] + m == b + [c] + n ==> a == b && m == n
  {
    var s, t := a + [c] + m, b + [c] + n;
    assert s[|a|] == c && t[|b|] == c;
    assert a == s[..|a|] && b == t[..|b|] && m == s[|a| + 1..] && n == t[|b| + 1..];
    if |a| < |b| < |s| {
      assert s[|b|] == m[|b| - |a| - 1];
    } else if |b| < |a| < |t| {
      assert t[|a|] == n[|a| - |b| - 1];
    }
  }

  /** All pages, one after the other. */
  function Flat<T>(pages: seq<seq<T>>): seq<T> {
    if pages == [] then [] else Flat(pages[..|pages| - 1]) + pages[|pages| - 1]
  }

  /** Beyond every number, and every text, of a finite set there is another. */
  lemma {:induction false} FreshNat(used: set<nat>) returns (n: nat)
    ensures forall k :: k in used ==> k < n
    decreases used
  {
    if used == {} {
      n := 0;
    } else {
      var x :| x in used;
      n := FreshNat(used - {x});
      assert used == used - {x} + {x};
      if n <= x { n := x + 1; }
    }
  }

  lemma {:induction false} FreshText(used: set<string>) returns (t: string)
    ensures forall k :: k in used ==> |k| < |t|
    decreases used
  {
    if used == {} {
      t := "";
    } else {
      var x :| x in used;
      t := FreshText(used - {x});
      assert used == used - {x} + {x};
      if |t| <= |x| { t := x + "x"; }
    }
  }
}
