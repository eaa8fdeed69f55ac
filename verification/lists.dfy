/** Sequence helpers shared by the channel list, the admin list and the rotation. */
module Lists {

  predicate NoDuplicates<T(==)>(s: seq<T>) {
    forall i, j :: 0 <= i < j < |s| ==> s[i] != s[j]
  }

  predicate Ascending(s: seq<int>) {
    forall i, j :: 0 <= i < j < |s| ==> s[i] <= s[j]
  }

  predicate StrictlyAscending(s: seq<int>) {
    forall i, j :: 0 <= i < j < |s| ==> s[i] < s[j]
  }

  /** `list.index` with ValueError turned into -1: the first position of `x`. */
  function IndexOf<T(==)>(s: seq<T>, x: T): (i: int)
    ensures -1 <= i < |s|
    ensures i == -1 <==> x !in s
    ensures 0 <= i ==> s[i] == x && x !in s[..i]
  {
    if |s| == 0 then -1
    else if s[0] == x then 0
    else
      var k := IndexOf(s[1..], x);
      assert k >= 0 ==> s[..k + 1] == [s[0]] + s[1..][..k];
      if k == -1 then -1 else k + 1
  }

  /** `list.remove(x)`: drops the first occurrence of `x`, if any. */
  function RemoveFirst<T(==)>(s: seq<T>, x: T): (r: seq<T>)
    ensures x !in s ==> r == s
    ensures x in s ==> |r| == |s| - 1 && r == s[..IndexOf(s, x)] + s[IndexOf(s, x) + 1..]
    ensures multiset(r) == multiset(s) - multiset{x}
  {
    var i := IndexOf(s, x);
    if i == -1 then s
    else
      assert s == s[..i] + [x] + s[i + 1..];
      s[..i] + s[i + 1..]
  }

  /** Position `k` of `s` with position `i` dropped. */
  lemma DropIndex<T>(s: seq<T>, i: int, k: int)
    requires 0 <= i < |s| && 0 <= k < |s| - 1
    ensures (s[..i] + s[i + 1..])[k] == s[if k < i then k else k + 1]
  {
  }

  /** Appends, in order, each element of `extra` not already present. */
  function AppendAbsent<T(==)>(base: seq<T>, extra: seq<T>): (r: seq<T>)
    ensures |base| <= |r| <= |base| + |extra|
    ensures r[..|base|] == base
  {
    if extra == [] then base
    else
      var last := extra[|extra| - 1];
      var acc := AppendAbsent(base, extra[..|extra| - 1]);
      if last in acc then acc else acc + [last]
  }

  /** The merged list holds exactly the elements of both lists, and stays duplicate-free. */
  lemma {:induction false} AppendAbsentMembers<T>(base: seq<T>, extra: seq<T>)
    ensures forall x :: x in AppendAbsent(base, extra) <==> x in base || x in extra
    ensures NoDuplicates(base) ==> NoDuplicates(AppendAbsent(base, extra))
  {
    if extra != [] {
      var init := extra[..|extra| - 1];
      var last := extra[|extra| - 1];
      assert extra == init + [last];
      AppendAbsentMembers(base, init);
    }
  }

  /** One more element of `extra` is appended exactly when it is not yet present. */
  lemma AppendAbsentSnoc<T>(base: seq<T>, extra: seq<T>, x: T)
    ensures AppendAbsent(base, extra + [x]) ==
            (var acc := AppendAbsent(base, extra); if x in acc then acc else acc + [x])
  {
    assert (extra + [x])[..|extra|] == extra;
  }

  /** Dropping position `i` of a duplicate-free sequence leaves exactly the other values, each once. */
  lemma DropNoDuplicates<T>(s: seq<T>, i: int)
    requires NoDuplicates(s) && 0 <= i < |s|
    ensures NoDuplicates(s[..i] + s[i + 1..])
    ensures s[i] !in s[..i] + s[i + 1..]
    ensures forall y :: y != s[i] ==> (y in s[..i] + s[i + 1..] <==> y in s)
  {
    var r := s[..i] + s[i + 1..];
    forall a, b | 0 <= a < b < |r|
      ensures r[a] != r[b]
    {
      DropIndex(s, i, a);
      DropIndex(s, i, b);
    }
    forall k | 0 <= k < |r|
      ensures r[k] != s[i]
    {
      DropIndex(s, i, k);
    }
    forall y | y != s[i] && y in s
      ensures y in r
    {
      var k :| 0 <= k < |s| && s[k] == y;
      DropIndex(s, i, if k < i then k else k - 1);
    }
  }

  /** Removing one element keeps a duplicate-free list duplicate-free and drops that element entirely. */
  lemma RemoveFirstNoDuplicates<T>(s: seq<T>, x: T)
    requires NoDuplicates(s)
    ensures NoDuplicates(RemoveFirst(s, x))
    ensures x !in RemoveFirst(s, x)
    ensures forall y :: y != x ==> (y in RemoveFirst(s, x) <==> y in s)
  {
    if x in s {
      DropNoDuplicates(s, IndexOf(s, x));
    }
  }

  /** Exchanging two positions keeps the elements, and keeps them distinct. */
  lemma Swapped<T>(s: seq<T>, i: int, j: int)
    requires 0 <= i < |s| && 0 <= j < |s|
    ensures multiset(s[i := s[j]][j := s[i]]) == multiset(s)
    ensures NoDuplicates(s) ==> NoDuplicates(s[i := s[j]][j := s[i]])
  {
    var r := s[i := s[j]][j := s[i]];
    if NoDuplicates(s) {
      forall p, q | 0 <= p < q < |r| ensures r[p] != r[q] {
        var p' := if p == i then j else if p == j then i else p;
        var q' := if q == i then j else if q == j then i else q;
        assert r[p] == s[p'] && r[q] == s[q'] && p' != q';
      }
    }
  }

  /** Duplicate-free sequences hold each value at most once. */
  lemma {:induction false} NoDuplicatesMultiset<T>(s: seq<T>)
    requires NoDuplicates(s)
    ensures forall x :: multiset(s)[x] <= 1
  {
    if s != [] {
      var init := s[..|s| - 1];
      var last := s[|s| - 1];
      assert s == init + [last];
      assert NoDuplicates(init);
      NoDuplicatesMultiset(init);
      assert last !in init by {
        forall k | 0 <= k < |init|
          ensures init[k] != last
        {
          assert init[k] == s[k];
        }
      }
      assert multiset(init)[last] == 0;
    }
  }

  /** Two positions holding the same value make that value occur twice. */
  lemma TwoPositions<T>(s: seq<T>, i: int, j: int)
    requires 0 <= i < j < |s|
    ensures s[i] == s[j] ==> multiset(s)[s[j]] >= 2
  {
    assert s == s[..j] + s[j..];
    assert s[..j][i] == s[i];
    assert s[j..][0] == s[j];
  }

  /** A sorted sequence that holds each value at most once is strictly ascending. */
  lemma AscendingDistinct(s: seq<int>)
    requires Ascending(s)
    requires forall x :: multiset(s)[x] <= 1
    ensures StrictlyAscending(s)
  {
    forall i, j | 0 <= i < j < |s|
      ensures s[i] < s[j]
    {
      TwoPositions(s, i, j);
    }
  }

  /** Every element of a permutation of `base + [x]` is at least a common lower bound of both. */
  lemma LowerBound(b: int, rest: seq<int>, base: seq<int>, x: int)
    requires multiset(rest) == multiset(base) + multiset{x}
    requires forall k :: 0 <= k < |base| ==> b <= base[k]
    requires b <= x
    ensures forall k :: 0 <= k < |rest| ==> b <= rest[k]
  {
    forall k | 0 <= k < |rest|
      ensures b <= rest[k]
    {
      assert rest[k] in multiset(rest);
      if rest[k] != x {
        assert rest[k] in base;
      }
    }
  }

  /** Some element of a non-empty set. */
  lemma Member<T>(s: set<T>) returns (x: T)
    requires s != {}
    ensures x in s
  {
    x :| x in s;
  }

  /** A duplicate-free sequence listing exactly the elements of a set has that set's multiset. */
  lemma {:induction false} DistinctMultiset<T>(s: seq<T>, elems: set<T>)
    requires NoDuplicates(s)
    requires forall x :: x in s <==> x in elems
    ensures multiset(s) == multiset(elems)
    decreases |s|
  {
    if s == [] {
      assert elems == {};
    } else {
      var init := s[..|s| - 1];
      var last := s[|s| - 1];
      assert s == init + [last];
      assert last !in init by {
        forall k | 0 <= k < |init|
          ensures init[k] != last
        {
          assert init[k] == s[k];
        }
      }
      DistinctMultiset(init, elems - {last});
      assert elems == (elems - {last}) + {last};
    }
  }

  /** Places `x` into an ascending sequence. */
  function Insert(s: seq<int>, x: int): (r: seq<int>)
    requires Ascending(s)
    ensures Ascending(r)
    ensures multiset(r) == multiset(s) + multiset{x}
  {
    if s == [] then [x]
    else if x <= s[0] then [x] + s
    else
      assert s == [s[0]] + s[1..];
      var rest := Insert(s[1..], x);
      LowerBound(s[0], rest, s[1..], x);
      [s[0]] + rest
  }

  /** `sorted(xs)` for integers. */
  function Sort(s: seq<int>): (r: seq<int>)
    ensures Ascending(r)
    ensures multiset(r) == multiset(s)
  {
    if s == [] then []
    else
      assert s == s[..|s| - 1] + [s[|s| - 1]];
      Insert(Sort(s[..|s| - 1]), s[|s| - 1])
  }
}
