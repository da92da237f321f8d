/** Orderings used by the listing endpoints: a descending sort under any total
    preorder, and the code-point order on strings that orders tags by name. */
module Ordering {

  /** `le` compares every two elements and chains. */
  ghost predicate TotalPreorder<T(!new)>(le: (T, T) -> bool)
  {
    (forall a, b :: le(a, b) || le(b, a)) &&
    (forall a, b, c :: le(a, b) && le(b, c) ==> le(a, c))
  }

  /** `s` runs from greatest to least under `le`. */
  ghost predicate Descending<T>(s: seq<T>, le: (T, T) -> bool)
  {
    forall i, j :: 0 <= i < j < |s| ==> le(s[j], s[i])
  }

  /** Puts `x` in front of the first element it is at least as great as. */
  function Insert<T(!new)>(x: T, s: seq<T>, le: (T, T) -> bool): (r: seq<T>)
    requires TotalPreorder(le) && Descending(s, le)
    ensures multiset(r) == multiset(s) + multiset{x}
    ensures Descending(r, le)
    decreases |s|
  {
    if s == [] || le(s[0], x) then
      [x] + s
    else
      var rest := Insert(x, s[1..], le);
      assert s == [s[0]] + s[1..];
      assert forall k :: 0 <= k < |rest| ==> le(rest[k], s[0]) by {
        forall k | 0 <= k < |rest| ensures le(rest[k], s[0]) {
          assert rest[k] in multiset(rest);
          if rest[k] != x {
            assert rest[k] in multiset(s[1..]);
            var m :| 0 <= m < |s[1..]| && s[1..][m] == rest[k];
            assert s[m + 1] == rest[k];
          }
        }
      }
      [s[0]] + rest
  }

  /** A sorted copy of `s`, greatest first; elements that compare equal may come in any order. */
  function SortDescending<T(!new)>(s: seq<T>, le: (T, T) -> bool): (r: seq<T>)
    requires TotalPreorder(le)
    ensures multiset(r) == multiset(s)
    ensures Descending(r, le)
    decreases |s|
  {
    if s == [] then []
    else
      assert s == [s[0]] + s[1..];
      Insert(s[0], SortDescending(s[1..], le), le)
  }

  /** Lexicographic order on strings, character by character, a proper prefix first. */
  predicate LexLe(a: string, b: string)
    decreases |a|
  {
    if a == [] then true
    else if b == [] then false
    else if a[0] != b[0] then a[0] < b[0]
    else LexLe(a[1..], b[1..])
  }

  lemma {:induction false} LexLeTotal(a: string, b: string)
    ensures LexLe(a, b) || LexLe(b, a)
    decreases |a|
  {
    if a != [] && b != [] && a[0] == b[0] {
      LexLeTotal(a[1..], b[1..]);
    }
  }

  lemma {:induction false} LexLeTransitive(a: string, b: string, c: string)
    requires LexLe(a, b) && LexLe(b, c)
    ensures LexLe(a, c)
    decreases |a|
  {
    if a != [] && b != [] && c != [] && a[0] == b[0] && b[0] == c[0] {
      LexLeTransitive(a[1..], b[1..], c[1..]);
    }
  }

  lemma {:induction false} LexLeAntisymmetric(a: string, b: string)
    requires LexLe(a, b) && LexLe(b, a)
    ensures a == b
    decreases |a|
  {
    if a != [] {
      LexLeAntisymmetric(a[1..], b[1..]);
      assert a == [a[0]] + a[1..] && b == [b[0]] + b[1..];
    }
  }

  /** No two elements of `s` share a key. */
  ghost predicate KeysDistinct<T, K>(s: seq<T>, key: T -> K)
  {
    forall i, j :: 0 <= i < j < |s| ==> key(s[i]) != key(s[j])
  }

  /** Every element of `Insert(x, s, le)` is `x` or an element of `s`. */
  lemma InsertFrom<T(!new)>(x: T, s: seq<T>, le: (T, T) -> bool, k: nat)
    requires TotalPreorder(le) && Descending(s, le)
    requires k < |Insert(x, s, le)|
    ensures Insert(x, s, le)[k] == x || exists m :: 0 <= m < |s| && s[m] == Insert(x, s, le)[k]
  {
    var r := Insert(x, s, le);
    assert r[k] in multiset(r);
    if r[k] != x {
      assert r[k] in multiset(s);
    }
  }

  lemma {:induction false} InsertKeepsKeysDistinct<T(!new), K>(x: T, s: seq<T>, le: (T, T) -> bool, key: T -> K)
    requires TotalPreorder(le) && Descending(s, le)
    requires KeysDistinct([x] + s, key)
    ensures KeysDistinct(Insert(x, s, le), key)
    decreases |s|
  {
    if s != [] && !le(s[0], x) {
      var xs := [x] + s;
      assert KeysDistinct([x] + s[1..], key) by {
        forall i, j | 0 <= i < j < |[x] + s[1..]|
          ensures key(([x] + s[1..])[i]) != key(([x] + s[1..])[j])
        {
          if i == 0 {
            assert xs[0] == x && xs[j + 1] == s[j];
          } else {
            assert xs[i + 1] == s[i] && xs[j + 1] == s[j];
          }
        }
      }
      InsertKeepsKeysDistinct(x, s[1..], le, key);
      var rest := Insert(x, s[1..], le);
      forall k | 0 <= k < |rest| ensures key(rest[k]) != key(s[0]) {
        InsertFrom(x, s[1..], le, k);
        if rest[k] == x {
          assert xs[0] == x && xs[1] == s[0];
        } else {
          var m :| 0 <= m < |s[1..]| && s[1..][m] == rest[k];
          assert xs[1] == s[0] && xs[m + 2] == rest[k];
        }
      }
      assert Insert(x, s, le) == [s[0]] + rest;
    }
  }

  /** Sorting keeps distinct keys distinct. */
  lemma {:induction false} SortKeepsKeysDistinct<T(!new), K>(s: seq<T>, le: (T, T) -> bool, key: T -> K)
    requires TotalPreorder(le)
    requires KeysDistinct(s, key)
    ensures KeysDistinct(SortDescending(s, le), key)
    decreases |s|
  {
    if s != [] {
      var tail := s[1..];
      assert KeysDistinct(tail, key) by {
        forall i, j | 0 <= i < j < |tail| ensures key(tail[i]) != key(tail[j]) {
          assert tail[i] == s[i + 1] && tail[j] == s[j + 1];
        }
      }
      SortKeepsKeysDistinct(tail, le, key);
      var sorted := SortDescending(tail, le);
      forall i, j | 0 <= i < j < |[s[0]] + sorted|
        ensures key(([s[0]] + sorted)[i]) != key(([s[0]] + sorted)[j])
      {
        if i == 0 {
          var y := sorted[j - 1];
          assert y in multiset(sorted);
          assert y in multiset(tail);
          var m :| 0 <= m < |tail| && tail[m] == y;
          assert s[m + 1] == y;
        }
      }
      InsertKeepsKeysDistinct(s[0], sorted, le, key);
    }
  }
}
