/** Sorting text keys by code point, as `sorted` does. */
module Ordering {

  predicate Leq(a: string, b: string) {
    a == "" || (b != "" && (a[0] < b[0] || (a[0] == b[0] && Leq(a[1..], b[1..]))))
  }

  lemma {:induction false} LeqTotal(a: string, b: string)
    ensures Leq(a, b) || Leq(b, a)
  {
    if a != "" && b != "" {
      LeqTotal(a[1..], b[1..]);
    }
  }

  lemma {:induction false} LeqAntisymmetric(a: string, b: string)
    requires Leq(a, b) && Leq(b, a)
    ensures a == b
  {
    if a != "" {
      LeqAntisymmetric(a[1..], b[1..]);
      assert a == [a[0]] + a[1..] && b == [b[0]] + b[1..];
    }
  }

  lemma {:induction false} LeqTransitive(a: string, b: string, c: string)
    requires Leq(a, b) && Leq(b, c)
    ensures Leq(a, c)
  {
    if a != "" && a[0] == b[0] == c[0] {
      LeqTransitive(a[1..], b[1..], c[1..]);
    }
  }

  predicate IsLeast(m: string, keys: set<string>) {
    m in keys && forall k :: k in keys ==> Leq(m, k)
  }

  lemma {:induction false} LeastExists(keys: set<string>)
    requires keys != {}
    ensures exists m :: IsLeast(m, keys)
    decreases |keys|
  {
    var a :| a in keys;
    var rest := keys - {a};
    LeqTotal(a, a);
    if rest == {} {
      assert keys == {a};
      assert IsLeast(a, keys);
    } else {
      LeastExists(rest);
      var m :| IsLeast(m, rest);
      LeqTotal(a, m);
      if Leq(a, m) {
        forall k | k in keys ensures Leq(a, k) {
          if k in rest { LeqTransitive(a, m, k); }
        }
        assert IsLeast(a, keys);
      } else {
        assert IsLeast(m, keys);
      }
    }
  }

  function Least(keys: set<string>): (m: string)
    requires keys != {}
    ensures IsLeast(m, keys)
  {
    LeastExists(keys);
    LeastUnique(keys);
    var m :| IsLeast(m, keys);
    m
  }

  lemma LeastUnique(keys: set<string>)
    ensures forall x, y :: IsLeast(x, keys) && IsLeast(y, keys) ==> x == y
  {
    forall x, y | IsLeast(x, keys) && IsLeast(y, keys) ensures x == y {
      LeqAntisymmetric(x, y);
    }
  }

  function Sorted(keys: set<string>): (s: seq<string>)
    ensures |s| == |keys| && forall k :: k in s <==> k in keys
    ensures forall i, j :: 0 <= i < j < |s| ==> s[i] != s[j]
  {
    if keys == {} then [] else [Least(keys)] + Sorted(keys - {Least(keys)})
  }

  predicate Ascending(s: seq<string>) {
    forall i, j :: 0 <= i < j < |s| ==> Leq(s[i], s[j])
  }

  /** The enumeration of a set of keys is in code point order. */
  lemma {:induction false} SortedAscends(keys: set<string>)
    ensures Ascending(Sorted(keys))
    decreases |keys|
  {
    hide Leq, Least;
    if keys != {} {
      var least := Least(keys);
      var rest := keys - {least};
      SortedAscends(rest);
      var s, tail := Sorted(keys), Sorted(rest);
      assert s == [least] + tail;
      forall k | 0 <= k < |tail| ensures Leq(least, tail[k]) {
        assert tail[k] in tail && tail[k] in keys;
      }
      AscendsCons(least, tail);
    }
  }

  lemma AscendsCons(first: string, tail: seq<string>)
    requires Ascending(tail) && forall k :: 0 <= k < |tail| ==> Leq(first, tail[k])
    ensures Ascending([first] + tail)
  {
    hide Leq;
    assert forall k :: 0 < k < |tail| + 1 ==> ([first] + tail)[k] == tail[k - 1];
  }
}
