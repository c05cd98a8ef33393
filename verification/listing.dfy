/** The list queries the handlers send to the store (`findMany` with `where`,
    `orderBy` and `take`, and `count`), as functions over an in-memory
    snapshot of a table. */
module Listing {
  import opened Wrappers

  /** `findMany({ where })`: the rows satisfying `p`, in table order. */
  function Filter<T(!new)>(s: seq<T>, p: T -> bool): (r: seq<T>)
    ensures |r| <= |s|
    ensures forall i :: 0 <= i < |r| ==> p(r[i])
    ensures forall x :: multiset(r)[x] == if p(x) then multiset(s)[x] else 0
    ensures multiset(r) <= multiset(s)
  {
    if s == [] then []
    else
      assert s == [s[0]] + s[1..];
      (if p(s[0]) then [s[0]] else []) + Filter(s[1..], p)
  }

  /** `count({ where })`: the number of rows satisfying `p`. */
  function Count<T>(s: seq<T>, p: T -> bool): (n: nat)
    ensures n <= |s|
  {
    if s == [] then 0 else (if p(s[0]) then 1 else 0) + Count(s[1..], p)
  }

  /** The count is the size of the filtered listing. */
  lemma {:induction false} CountIsFilterSize<T(!new)>(s: seq<T>, p: T -> bool)
    ensures Count(s, p) == |Filter(s, p)|
  {
    if s != [] {
      CountIsFilterSize(s[1..], p);
    }
  }

  /** Appending a row adds one to the count exactly when the row qualifies. */
  lemma {:induction false} CountAppend<T>(s: seq<T>, x: T, p: T -> bool)
    ensures Count(s + [x], p) == Count(s, p) + (if p(x) then 1 else 0)
  {
    if s == [] {
      assert s + [x] == [x];
      assert [x][1..] == [];
    } else {
      assert (s + [x])[0] == s[0];
      assert (s + [x])[1..] == s[1..] + [x];
      CountAppend(s[1..], x, p);
    }
  }

  /** Two conditions that split every row between them split the count. */
  lemma {:induction false} CountPartition<T>(s: seq<T>, p: T -> bool, q: T -> bool)
    requires forall i :: 0 <= i < |s| ==> p(s[i]) != q(s[i])
    ensures Count(s, p) + Count(s, q) == |s|
  {
    if s != [] {
      CountPartition(s[1..], p, q);
    }
  }

  /** `findUnique`: the first row whose key is `k`. */
  function FindBy<T>(s: seq<T>, key: T -> string, k: string): (r: Option<T>)
    ensures r.Some? ==> r.value in s && key(r.value) == k
    ensures r.None? <==> forall i :: 0 <= i < |s| ==> key(s[i]) != k
  {
    if s == [] then None
    else if key(s[0]) == k then Some(s[0])
    else FindBy(s[1..], key, k)
  }

  datatype Direction = Ascending | Descending

  /** `x` may come before `y` under `orderBy: { createdAt: dir }`. */
  predicate Precedes(x: int, y: int, dir: Direction)
  {
    match dir
    case Ascending => x <= y
    case Descending => x >= y
  }

  predicate SortedBy<T>(s: seq<T>, key: T -> int, dir: Direction)
  {
    forall i, j :: 0 <= i < j < |s| ==> Precedes(key(s[i]), key(s[j]), dir)
  }

  function Insert<T>(x: T, s: seq<T>, key: T -> int, dir: Direction): (r: seq<T>)
    requires SortedBy(s, key, dir)
    ensures SortedBy(r, key, dir)
    ensures multiset(r) == multiset(s) + multiset{x}
    ensures |r| == |s| + 1
  {
    if s == [] then [x]
    else if Precedes(key(x), key(s[0]), dir) then [x] + s
    else
      var rest := Insert(x, s[1..], key, dir);
      assert s == [s[0]] + s[1..];
      assert forall y :: y in rest ==> y in s[1..] || y == x by {
        forall y | y in rest ensures y in s[1..] || y == x {
          assert y in multiset(rest);
        }
      }
      assert forall k :: 0 <= k < |rest| ==> Precedes(key(s[0]), key(rest[k]), dir) by {
        forall k | 0 <= k < |rest| ensures Precedes(key(s[0]), key(rest[k]), dir) {
          assert rest[k] in rest;
          if rest[k] != x {
            var j :| 0 <= j < |s[1..]| && s[1..][j] == rest[k];
            assert s[j + 1] == rest[k];
          }
        }
      }
      [s[0]] + rest
  }

  /** `findMany({ orderBy: { <key>: dir } })`: the rows rearranged so that the
      key runs in the given direction. Rows with equal keys, whose relative
      order the store leaves open, keep their table order here. */
  function SortBy<T>(s: seq<T>, key: T -> int, dir: Direction): (r: seq<T>)
    ensures SortedBy(r, key, dir)
    ensures multiset(r) == multiset(s)
    ensures |r| == |s|
  {
    if s == [] then []
    else
      assert s == [s[0]] + s[1..];
      Insert(s[0], SortBy(s[1..], key, dir), key, dir)
  }

  /** `take: n`: the first `n` rows. */
  function Take<T>(s: seq<T>, n: nat): (r: seq<T>)
    ensures |r| == if |s| <= n then |s| else n
    ensures r == s[..|r|]
    ensures forall i :: 0 <= i < |r| ==> r[i] == s[i]
    ensures multiset(r) <= multiset(s)
  {
    if |s| <= n then s
    else
      assert s == s[..n] + s[n..];
      s[..n]
  }

  /** A row of a sorted listing that `take` left out does not precede any row
      it kept. */
  lemma TakeKeepsFirst<T>(s: seq<T>, n: nat, key: T -> int, dir: Direction, x: T, i: nat)
    requires SortedBy(s, key, dir)
    requires multiset(Take(s, n))[x] < multiset(s)[x]
    requires i < |Take(s, n)|
    ensures Precedes(key(Take(s, n)[i]), key(x), dir)
  {
    var page := Take(s, n);
    var rest := s[|page|..];
    assert s == page + rest;
    assert multiset(rest)[x] > 0;
    var k :| 0 <= k < |rest| && rest[k] == x;
    assert s[|page| + k] == x;
  }

  /** A prefix of a sorted listing is sorted. */
  lemma TakeKeepsOrder<T>(s: seq<T>, n: nat, key: T -> int, dir: Direction)
    requires SortedBy(s, key, dir)
    ensures SortedBy(Take(s, n), key, dir)
  {
  }
}
