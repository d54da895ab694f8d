/** Sequence combinators the application builds its collections and statistics from:
    JavaScript's `filter`, `reduce` (as a sum), `find` and `map` restricted to the
    records whose key matches. */
module Lists {

  import opened Options

  /** `s.filter(p)`: the elements satisfying `p`, in their original order. */
  function Filter<T>(s: seq<T>, p: T -> bool): (r: seq<T>)
    ensures |r| <= |s|
    decreases |s|
  {
    if s == [] then []
    else if p(s[0]) then [s[0]] + Filter(s[1..], p) else Filter(s[1..], p)
  }

  /** The filter keeps exactly the elements that pass, and each of them as
      often as it occurs. */
  lemma {:induction false} FilterMembers<T>(s: seq<T>, p: T -> bool)
    ensures forall i :: 0 <= i < |Filter(s, p)| ==> Filter(s, p)[i] in s && p(Filter(s, p)[i])
    ensures forall i :: 0 <= i < |s| && p(s[i]) ==> s[i] in Filter(s, p)
    ensures multiset(Filter(s, p)) <= multiset(s)
    decreases |s|
  {
    if s != [] {
      FilterMembers(s[1..], p);
      assert s == [s[0]] + s[1..];
      var r := Filter(s, p);
      forall i | 0 <= i < |s| && p(s[i]) ensures s[i] in r {
        if i > 0 {
          assert s[i] == s[1..][i - 1];
        }
      }
    }
  }

  /** Filtering distributes over concatenation, so it keeps the relative order. */
  lemma {:induction false} FilterAppend<T>(a: seq<T>, b: seq<T>, p: T -> bool)
    ensures Filter(a + b, p) == Filter(a, p) + Filter(b, p)
    decreases |a|
  {
    if a == [] {
      assert a + b == b;
    } else {
      assert (a + b)[0] == a[0];
      assert (a + b)[1..] == a[1..] + b;
      FilterAppend(a[1..], b, p);
    }
  }

  /** Each element keeps all of its occurrences or none of them. */
  lemma {:induction false} FilterCount<T>(s: seq<T>, p: T -> bool, x: T)
    ensures multiset(Filter(s, p))[x] == if p(x) then multiset(s)[x] else 0
    decreases |s|
  {
    if s != [] {
      assert s == [s[0]] + s[1..];
      FilterCount(s[1..], p, x);
    }
  }

  lemma FilterCountAll<T>(s: seq<T>, p: T -> bool)
    ensures forall x :: multiset(Filter(s, p))[x] == if p(x) then multiset(s)[x] else 0
  {
    forall x ensures multiset(Filter(s, p))[x] == if p(x) then multiset(s)[x] else 0 {
      FilterCount(s, p, x);
    }
  }

  /** A filter that every element passes changes nothing. */
  lemma {:induction false} FilterKeepsAll<T>(s: seq<T>, p: T -> bool)
    requires forall x :: x in s ==> p(x)
    ensures Filter(s, p) == s
    decreases |s|
  {
    if s != [] {
      FilterKeepsAll(s[1..], p);
    }
  }

  /** A filter that no element passes leaves nothing. */
  lemma {:induction false} FilterNone<T>(s: seq<T>, p: T -> bool)
    requires forall i :: 0 <= i < |s| ==> !p(s[i])
    ensures Filter(s, p) == []
    decreases |s|
  {
    if s != [] {
      FilterNone(s[1..], p);
    }
  }

  /** Splitting a filter into two disjoint filters splits its length. */
  lemma {:induction false} FilterLengthSplit<T>(s: seq<T>, p: T -> bool, q: T -> bool, r: T -> bool)
    requires forall x :: p(x) == (q(x) || r(x))
    requires forall x :: !(q(x) && r(x))
    ensures |Filter(s, p)| == |Filter(s, q)| + |Filter(s, r)|
    decreases |s|
  {
    if s != [] {
      FilterLengthSplit(s[1..], p, q, r);
    }
  }

  /** `s.reduce((sum, x) => sum + f(x), 0)` over integers. */
  function SumOf<T>(s: seq<T>, f: T -> int): int
    decreases |s|
  {
    if s == [] then 0 else f(s[0]) + SumOf(s[1..], f)
  }

  lemma {:induction false} SumAppend<T>(a: seq<T>, b: seq<T>, f: T -> int)
    ensures SumOf(a + b, f) == SumOf(a, f) + SumOf(b, f)
    decreases |a|
  {
    if a == [] {
      assert a + b == b;
    } else {
      assert (a + b)[0] == a[0];
      assert (a + b)[1..] == a[1..] + b;
      SumAppend(a[1..], b, f);
    }
  }

  /** Summing over the filtered elements is summing `g` over all of them, where
      `g` is `f` on the elements that pass and 0 on the others. */
  lemma {:induction false} SumFilterWeighted<T>(s: seq<T>, p: T -> bool, f: T -> int, g: T -> int)
    requires forall x :: g(x) == if p(x) then f(x) else 0
    ensures SumOf(Filter(s, p), f) == SumOf(s, g)
    decreases |s|
  {
    if s != [] {
      SumFilterWeighted(s[1..], p, f, g);
    }
  }

  /** The length of a filter counts, with `g` as the 0/1 indicator of `p`. */
  lemma {:induction false} FilterLengthAsSum<T>(s: seq<T>, p: T -> bool, g: T -> int)
    requires forall x :: g(x) == if p(x) then 1 else 0
    ensures |Filter(s, p)| == SumOf(s, g)
    decreases |s|
  {
    if s != [] {
      FilterLengthAsSum(s[1..], p, g);
    }
  }

  /** Splitting a filter into two disjoint filters splits its sum. */
  lemma {:induction false} SumFilterSplit<T>(s: seq<T>, p: T -> bool, q: T -> bool, r: T -> bool, f: T -> int)
    requires forall x :: p(x) == (q(x) || r(x))
    requires forall x :: !(q(x) && r(x))
    ensures SumOf(Filter(s, p), f) == SumOf(Filter(s, q), f) + SumOf(Filter(s, r), f)
    decreases |s|
  {
    if s != [] {
      SumFilterSplit(s[1..], p, q, r, f);
    }
  }

  /** Two sequences that agree everywhere but at index `k` differ in sum by the
      difference of the two elements at `k`. */
  lemma {:induction false} SumChangeAt<T>(s: seq<T>, t: seq<T>, k: nat, f: T -> int)
    requires |s| == |t| && k < |s|
    requires forall i :: 0 <= i < |s| && i != k ==> s[i] == t[i]
    ensures SumOf(t, f) == SumOf(s, f) - f(s[k]) + f(t[k])
    decreases |s|
  {
    if k == 0 {
      assert s[1..] == t[1..];
    } else {
      SumChangeAt(s[1..], t[1..], k - 1, f);
    }
  }

  /** `s.find(x => key(x) === k)`: the first element with key `k`, if any. */
  function FindFirst<T, K(==)>(s: seq<T>, key: T -> K, k: K): (r: Option<T>)
    ensures r.None? <==> forall i :: 0 <= i < |s| ==> key(s[i]) != k
    ensures r.Some? ==> exists i :: 0 <= i < |s| && s[i] == r.value && key(s[i]) == k
                                    && forall j :: 0 <= j < i ==> key(s[j]) != k
    decreases |s|
  {
    if s == [] then None
    else if key(s[0]) == k then Some(s[0])
    else
      var r := FindFirst(s[1..], key, k);
      assert r.Some? ==> exists i :: 0 <= i < |s| && s[i] == r.value && key(s[i]) == k
                                     && forall j :: 0 <= j < i ==> key(s[j]) != k by {
        if r.Some? {
          var i :| 0 <= i < |s| - 1 && s[1..][i] == r.value && key(s[1..][i]) == k
                   && forall j :: 0 <= j < i ==> key(s[1..][j]) != k;
          assert forall j :: 1 <= j < i + 1 ==> key(s[j]) != k by {
            forall j | 1 <= j < i + 1 ensures key(s[j]) != k {
              assert s[j] == s[1..][j - 1];
            }
          }
        }
      }
      r
  }

  /** `s.map(x => key(x) === k ? upd(x) : x)`: every element with key `k` is
      replaced by its update, every other element stays where it is. */
  function UpdateWhere<T, K(==)>(s: seq<T>, key: T -> K, k: K, upd: T -> T): (r: seq<T>)
    ensures |r| == |s|
    ensures forall i :: 0 <= i < |s| ==> r[i] == if key(s[i]) == k then upd(s[i]) else s[i]
    ensures (forall i :: 0 <= i < |s| ==> key(s[i]) != k) ==> r == s
  {
    seq(|s|, i requires 0 <= i < |s| => if key(s[i]) == k then upd(s[i]) else s[i])
  }

  /** An update that keeps keys leaves the first match in its place, updated. */
  lemma {:induction false} FindFirstUpdated<T, K>(s: seq<T>, key: T -> K, k: K, upd: T -> T)
    requires forall x :: key(upd(x)) == key(x)
    requires FindFirst(s, key, k).Some?
    ensures FindFirst(UpdateWhere(s, key, k, upd), key, k) == Some(upd(FindFirst(s, key, k).value))
    decreases |s|
  {
    var r := UpdateWhere(s, key, k, upd);
    if key(s[0]) != k {
      assert r[1..] == UpdateWhere(s[1..], key, k, upd);
      FindFirstUpdated(s[1..], key, k, upd);
    }
  }

  /** `s.filter(x => key(x) !== k)`: drops exactly the elements with key `k`;
      every other element keeps all of its occurrences, in order
      (`FilterAppend`), and a key no element carries changes nothing. */
  function RemoveWhere<T, K(==)>(s: seq<T>, key: T -> K, k: K): (r: seq<T>)
    ensures forall i :: 0 <= i < |r| ==> key(r[i]) != k
    ensures multiset(r) <= multiset(s)
    ensures forall i :: 0 <= i < |s| && key(s[i]) != k ==> multiset(r)[s[i]] == multiset(s)[s[i]]
    ensures (forall i :: 0 <= i < |s| ==> key(s[i]) != k) ==> r == s
  {
    var keep := (x: T) => key(x) != k;
    FilterMembers(s, keep);
    FilterCountAll(s, keep);
    if forall i :: 0 <= i < |s| ==> key(s[i]) != k then
      FilterKeepsAll(s, keep);
      Filter(s, keep)
    else
      Filter(s, keep)
  }

  /** Removing by key distributes over concatenation: the records that stay
      keep their relative order. */
  lemma RemoveWhereAppend<T, K>(a: seq<T>, b: seq<T>, key: T -> K, k: K)
    ensures RemoveWhere(a + b, key, k) == RemoveWhere(a, key, k) + RemoveWhere(b, key, k)
  {
    FilterAppend(a, b, (x: T) => key(x) != k);
  }
}
