/** Ranking by revenue: `list.sort((a, b) => b.revenue - a.revenue).slice(0, n)`.
    JavaScript's `Array.prototype.sort` is stable, so the sorted order is fully determined:
    higher revenue first, and among equal revenues the original order. The model computes
    it by stable insertion. */
module Leaderboard {
  import Seqs

  /** `s` is non-increasing by `rev`. */
  predicate SortedDesc<T>(s: seq<T>, rev: T -> int) {
    forall i, j :: 0 <= i < j < |s| ==> rev(s[i]) >= rev(s[j])
  }

  /** The elements of `s` whose key is `v`, in their order in `s`. */
  function WithKey<T(==)>(s: seq<T>, rev: T -> int, v: int): seq<T> {
    Seqs.Filter(s, (x: T) => rev(x) == v)
  }

  /** Inserts `x` before the first element whose key is not larger than `x`'s. */
  function Insert<T>(x: T, s: seq<T>, rev: T -> int): seq<T> {
    if |s| == 0 || rev(s[0]) <= rev(x) then [x] + s
    else [s[0]] + Insert(x, s[1..], rev)
  }

  /** The stable sort by descending key, the comparator `(a, b) => rev(b) - rev(a)`. */
  function SortDesc<T>(s: seq<T>, rev: T -> int): seq<T> {
    if |s| == 0 then [] else Insert(s[0], SortDesc(s[1..], rev), rev)
  }

  /** `s.slice(0, n)`. */
  function Top<T>(s: seq<T>, n: nat): seq<T> {
    if |s| <= n then s else s[..n]
  }

  lemma {:induction false} InsertPermutes<T>(x: T, s: seq<T>, rev: T -> int)
    ensures multiset(Insert(x, s, rev)) == multiset(s) + multiset{x}
  {
    if !(|s| == 0 || rev(s[0]) <= rev(x)) {
      InsertPermutes(x, s[1..], rev);
      assert s == [s[0]] + s[1..];
    }
  }

  lemma {:induction false} InsertSorted<T>(x: T, s: seq<T>, rev: T -> int)
    requires SortedDesc(s, rev)
    ensures SortedDesc(Insert(x, s, rev), rev)
  {
    if !(|s| == 0 || rev(s[0]) <= rev(x)) {
      var rest := Insert(x, s[1..], rev);
      InsertSorted(x, s[1..], rev);
      InsertPermutes(x, s[1..], rev);
      forall k | 0 <= k < |rest| ensures rev(rest[k]) <= rev(s[0]) {
        assert rest[k] in multiset(rest);
        if rest[k] != x {
          assert rest[k] in multiset(s[1..]);
          var m :| 0 <= m < |s[1..]| && s[1..][m] == rest[k];
          assert s[m + 1] == rest[k];
        }
      }
      var r := Insert(x, s, rev);
      forall i, j | 0 <= i < j < |r| ensures rev(r[i]) >= rev(r[j]) {
        if i > 0 {
          assert r[i] == rest[i - 1] && r[j] == rest[j - 1];
        } else {
          assert r[j] == rest[j - 1];
        }
      }
    } else if |s| > 0 {
      var r := Insert(x, s, rev);
      forall i, j | 0 <= i < j < |r| ensures rev(r[i]) >= rev(r[j]) {
        if i > 0 {
          assert r[i] == s[i - 1] && r[j] == s[j - 1];
        } else {
          assert r[j] == s[j - 1];
        }
      }
    }
  }

  /** Inserting `x` puts it first among the elements that share its key. */
  lemma {:induction false} InsertStable<T>(x: T, s: seq<T>, rev: T -> int, v: int)
    ensures WithKey(Insert(x, s, rev), rev, v) == (if rev(x) == v then [x] else []) + WithKey(s, rev, v)
  {
    var keep := (y: T) => rev(y) == v;
    if |s| == 0 || rev(s[0]) <= rev(x) {
      assert ([x] + s)[0] == x && ([x] + s)[1..] == s;
    } else {
      InsertStable(x, s[1..], rev, v);
      var r := Insert(x, s, rev);
      assert r[0] == s[0] && r[1..] == Insert(x, s[1..], rev);
    }
  }

  /** The sorted list is non-increasing. */
  lemma {:induction false} SortDescSorted<T>(s: seq<T>, rev: T -> int)
    ensures SortedDesc(SortDesc(s, rev), rev)
  {
    if |s| > 0 {
      SortDescSorted(s[1..], rev);
      InsertSorted(s[0], SortDesc(s[1..], rev), rev);
    }
  }

  /** The sorted list holds exactly the input elements. */
  lemma {:induction false} SortDescPermutes<T>(s: seq<T>, rev: T -> int)
    ensures multiset(SortDesc(s, rev)) == multiset(s)
    ensures |SortDesc(s, rev)| == |s|
  {
    if |s| > 0 {
      SortDescPermutes(s[1..], rev);
      InsertPermutes(s[0], SortDesc(s[1..], rev), rev);
      assert s == [s[0]] + s[1..];
    }
  }

  /** Stability: for every key, the elements carrying it appear in the same order as in the input. */
  lemma {:induction false} SortDescStable<T>(s: seq<T>, rev: T -> int, v: int)
    ensures WithKey(SortDesc(s, rev), rev, v) == WithKey(s, rev, v)
  {
    if |s| > 0 {
      SortDescStable(s[1..], rev, v);
      InsertStable(s[0], SortDesc(s[1..], rev), rev, v);
    }
  }

  /** The first `n` of a list: as many as there are, at most `n`, in the same order. */
  lemma TopShape<T>(s: seq<T>, n: nat, rev: T -> int)
    ensures |Top(s, n)| == if |s| <= n then |s| else n
    ensures Top(s, n) == s[..|Top(s, n)|]
    ensures multiset(Top(s, n)) <= multiset(s)
    ensures SortedDesc(s, rev) ==> SortedDesc(Top(s, n), rev)
  {
    if |s| > n {
      assert s == s[..n] + s[n..];
    }
  }
}
