/** The stable sort `finish` applies to the buffered live items. */
module StableSort {
  import opened Items

  /** `x` joins a sorted run from the right, passing only strictly greater items. */
  function InsertLast(s: seq<Item>, x: Item): seq<Item> {
    if s == [] || !Less(x, s[|s| - 1]) then s + [x]
    else InsertLast(s[..|s| - 1], x) + [s[|s| - 1]]
  }

  function Sort(s: seq<Item>): seq<Item> {
    if s == [] then [] else InsertLast(Sort(s[..|s| - 1]), s[|s| - 1])
  }

  /** The items of `s` with the key of `k`, in the order they stand. */
  function WithKey(s: seq<Item>, k: Item): seq<Item> {
    if s == [] then []
    else WithKey(s[..|s| - 1], k) + if SameKey(s[|s| - 1], k) then [s[|s| - 1]] else []
  }

  /** `t` is a stable rearrangement of `s`: every key's items, in the same order. */
  ghost predicate StableRearrangement(s: seq<Item>, t: seq<Item>) {
    forall k: Item :: WithKey(s, k) == WithKey(t, k)
  }

  lemma WithKeySnoc(s: seq<Item>, x: Item, k: Item)
    ensures WithKey(s + [x], k) == WithKey(s, k) + if SameKey(x, k) then [x] else []
  {
    assert (s + [x])[..|s|] == s;
  }

  lemma {:induction false} WithKeyMember(s: seq<Item>, x: Item)
    ensures x in s <==> x in WithKey(s, x)
  {
    if s != [] {
      WithKeyMember(s[..|s| - 1], x);
      assert s == s[..|s| - 1] + [s[|s| - 1]];
    }
  }

  lemma {:induction false} WithKeyFrom(s: seq<Item>, k: Item)
    ensures forall y :: y in WithKey(s, k) ==> SameKey(y, k) && y in s
  {
    if s != [] {
      WithKeyFrom(s[..|s| - 1], k);
      assert s == s[..|s| - 1] + [s[|s| - 1]];
    }
  }

  lemma {:induction false} InsertLastMembers(s: seq<Item>, x: Item)
    ensures forall y :: y in InsertLast(s, x) <==> y == x || y in s
  {
    if s != [] && Less(x, s[|s| - 1]) {
      InsertLastMembers(s[..|s| - 1], x);
      assert s == s[..|s| - 1] + [s[|s| - 1]];
    }
  }

  lemma {:induction false} InsertLastSorted(s: seq<Item>, x: Item)
    requires Sorted(s)
    ensures Sorted(InsertLast(s, x))
  {
    if s == [] || !Less(x, s[|s| - 1]) {
      forall i | 0 <= i < |s| ensures !Less(x, s[i]) {
        if i < |s| - 1 { NotLessTransitive(s[i], s[|s| - 1], x); }
      }
    } else {
      var init, top := s[..|s| - 1], s[|s| - 1];
      var r := InsertLast(init, x);
      InsertLastSorted(init, x);
      InsertLastMembers(init, x);
      LessTotal(x, top);
      forall i | 0 <= i < |r| ensures !Less(top, r[i]) {
        assert r[i] in r;
        if r[i] != x {
          var m :| 0 <= m < |init| && init[m] == r[i];
          assert s[m] == r[i];
        }
      }
    }
  }

  lemma {:induction false} InsertLastWithKey(s: seq<Item>, x: Item, k: Item)
    ensures WithKey(InsertLast(s, x), k) == WithKey(s, k) + if SameKey(x, k) then [x] else []
  {
    if s == [] || !Less(x, s[|s| - 1]) {
      WithKeySnoc(s, x, k);
    } else {
      var init, top := s[..|s| - 1], s[|s| - 1];
      InsertLastWithKey(init, x, k);
      WithKeySnoc(InsertLast(init, x), top, k);
      LessTotal(x, top);
    }
  }

  /** Sort sorts, and keeps every key's items in arrival order. */
  lemma {:induction false} SortIsStable(s: seq<Item>)
    ensures Sorted(Sort(s))
    ensures StableRearrangement(s, Sort(s))
    ensures forall y :: y in Sort(s) <==> y in s
  {
    if s != [] {
      var init, x := s[..|s| - 1], s[|s| - 1];
      SortIsStable(init);
      InsertLastSorted(Sort(init), x);
      InsertLastMembers(Sort(init), x);
      forall k: Item ensures WithKey(s, k) == WithKey(Sort(s), k) {
        InsertLastWithKey(Sort(init), x, k);
        assert WithKey(init, k) == WithKey(Sort(init), k);
      }
      assert s == init + [x];
    }
  }

  /** There is only one sorted stable rearrangement, so any stable sort, whatever its
      algorithm, returns what Sort returns. */
  lemma {:induction false} StableSortUnique(t: seq<Item>, u: seq<Item>)
    requires Sorted(t) && Sorted(u) && StableRearrangement(t, u)
    ensures t == u
  {
    if t == [] {
    } else {
      var x := t[|t| - 1];
      WithKeyMember(t, x);
      WithKeyMember(u, x);
      assert WithKey(t, x) == WithKey(u, x);
      assert x in u;
      var y := u[|u| - 1];
      WithKeyMember(u, y);
      WithKeyMember(t, y);
      assert WithKey(t, y) == WithKey(u, y);
      assert y in t;
      SameTop(t, u, x, y);
      var t', u' := t[..|t| - 1], u[..|u| - 1];
      forall k: Item ensures WithKey(t', k) == WithKey(u', k) {
        assert WithKey(t, k) == WithKey(u, k);
        var f := WithKey(t, k);
        assert f == WithKey(t', k) + if SameKey(x, k) then [x] else [];
        assert f == WithKey(u', k) + if SameKey(x, k) then [x] else [];
        var n := |WithKey(t', k)|;
        assert WithKey(t', k) == f[..n] == WithKey(u', k);
      }
      StableSortUnique(t', u');
      assert t == t' + [x] && u == u' + [y];
    }
  }

  lemma SameTop(t: seq<Item>, u: seq<Item>, x: Item, y: Item)
    requires Sorted(t) && Sorted(u) && t != [] && u != []
    requires x == t[|t| - 1] && y == u[|u| - 1] && x in u && y in t
    requires WithKey(t, x) == WithKey(u, x)
    ensures x == y
  {
    LessTotal(x, x);
    LessTotal(x, y);
    var i :| 0 <= i < |u| && u[i] == x;
    var j :| 0 <= j < |t| && t[j] == y;
    assert !Less(y, x) && !Less(x, y);
    var f := WithKey(t, x);
    assert f == WithKey(t[..|t| - 1], x) + [x];
    assert f == WithKey(u[..|u| - 1], x) + [y];
    assert f[|f| - 1] == x == y;
  }

  /** Moving the item at `j` one place left of `p[j - 1]` is the next step of InsertLast. */
  lemma {:induction false} InsertLastSplit(p: seq<Item>, x: Item, j: nat)
    requires j <= |p| && forall m :: j <= m < |p| ==> Less(x, p[m])
    ensures InsertLast(p, x) == InsertLast(p[..j], x) + p[j..]
    decreases |p|
  {
    if j == |p| {
      assert p[..j] == p;
    } else {
      var init := p[..|p| - 1];
      InsertLastSplit(init, x, j);
      assert init[..j] == p[..j];
      assert p[j..] == init[j..] + [p[|p| - 1]];
    }
  }

  /** In-place insertion sort of the first `n` cells. */
  method SortInPlace(a: array<Item>, n: nat)
    requires n <= a.Length
    modifies a
    ensures a[..n] == Sort(old(a[..n]))
    ensures forall m :: n <= m < a.Length ==> a[m] == old(a[m])
  {
    ghost var was := a[..n];
    var i := 0;
    while i < n
      invariant 0 <= i <= n
      invariant a[..i] == Sort(was[..i])
      invariant forall m :: i <= m < a.Length ==> a[m] == old(a[m])
    {
      assert was[i] == a[i];
      SinkLast(a, i);
      assert was[..i + 1][..i] == was[..i];
      i := i + 1;
    }
    assert was[..n] == was;
  }

  /** Sinks the item at `i` into the sorted run before it. */
  method SinkLast(a: array<Item>, i: nat)
    requires i < a.Length
    modifies a
    ensures a[..i + 1] == InsertLast(old(a[..i]), old(a[i]))
    ensures forall m :: i < m < a.Length ==> a[m] == old(a[m])
  {
    ghost var p, x := a[..i], a[i];
    var j := i;
    while j > 0 && Less(a[j], a[j - 1])
      invariant 0 <= j <= i
      invariant a[j] == x
      invariant a[..j] == p[..j]
      invariant a[j + 1..i + 1] == p[j..]
      invariant forall m :: i < m < a.Length ==> a[m] == old(a[m])
      invariant forall m :: j <= m < i ==> Less(x, p[m])
    {
      assert a[j - 1] == p[j - 1];
      a[j], a[j - 1] := a[j - 1], a[j];
      j := j - 1;
    }
    InsertLastSplit(p, x, j);
    assert j > 0 ==> a[j - 1] == p[j - 1];
    assert InsertLast(p[..j], x) == p[..j] + [x];
    assert a[..i + 1] == a[..j] + [a[j]] + a[j + 1..i + 1];
  }
}
