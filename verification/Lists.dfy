/** Values that may be absent, and lists without repetitions. */
module Lists {
  datatype Option<+T> = None | Some(value: T)

  predicate Distinct<T(==)>(s: seq<T>) {
    s == [] || (s[|s| - 1] !in s[..|s| - 1] && Distinct(s[..|s| - 1]))
  }

  function Without<T(==)>(s: seq<T>, x: T): seq<T> {
    if s == [] then []
    else
      var rest, last := Without(s[..|s| - 1], x), s[|s| - 1];
      if last == x then rest else rest + [last]
  }

  lemma DistinctMore<T>(s: seq<T>, x: T)
    requires Distinct(s) && x !in s
    ensures Distinct(s + [x])
  {
    assert (s + [x])[..|s|] == s;
  }

  lemma {:induction false} DistinctAt<T>(s: seq<T>, i: nat, j: nat)
    requires Distinct(s) && i < j < |s|
    ensures s[i] != s[j]
  {
    var n := |s| - 1;
    if j == n {
      assert s[..n][i] in s[..n];
    } else {
      DistinctAt(s[..n], i, j);
    }
  }

  /** The first element does not come again. */
  lemma {:induction false} DistinctRest<T>(s: seq<T>)
    requires Distinct(s) && s != []
    ensures s[0] !in s[1..] && Distinct(s[1..])
  {
    var n := |s| - 1;
    if n == 0 {
      assert s[1..] == [];
    } else {
      var init, last := s[..n], s[n];
      assert init[0] in init && init[0] == s[0];
      DistinctRest(init);
      assert s[1..] == init[1..] + [last];
      assert forall x | x in init[1..] :: x in init;
      DistinctMore(init[1..], last);
    }
  }

  lemma {:induction false} NextElement<T>(s: seq<T>, i: nat)
    requires Distinct(s) && i < |s|
    ensures s[i] !in s[..i] && s[..i + 1] == s[..i] + [s[i]]
  {
    var n := |s| - 1;
    if i == n {
      assert s[..i + 1] == s;
    } else {
      NextElement(s[..n], i);
      assert s[..n][..i] == s[..i] && s[..n][..i + 1] == s[..i + 1];
    }
  }

  lemma {:induction false} WithoutMembers<T>(s: seq<T>, x: T)
    ensures forall y :: y in Without(s, x) <==> y in s && y != x
  {
    if s != [] {
      var n := |s| - 1;
      assert s == s[..n] + [s[n]];
      WithoutMembers(s[..n], x);
    }
  }

  lemma {:induction false} WithoutDistinct<T>(s: seq<T>, x: T)
    requires Distinct(s)
    ensures Distinct(Without(s, x)) && |Without(s, x)| == if x in s then |s| - 1 else |s|
  {
    if s != [] {
      var n := |s| - 1;
      var init, last := s[..n], s[n];
      WithoutDistinct(init, x);
      WithoutMembers(init, x);
      if last != x {
        DistinctMore(Without(init, x), last);
      }
      assert s == init + [last];
    }
  }

  lemma {:induction false} Unaffected<T>(s: seq<T>, x: T)
    requires x !in s
    ensures Without(s, x) == s
  {
    if s != [] {
      var n := |s| - 1;
      assert s[n] in s;
      Unaffected(s[..n], x);
    }
  }

  /** The first element leaves. */
  lemma {:induction false} WithoutFirst<T>(s: seq<T>)
    requires Distinct(s) && s != []
    ensures Without(s, s[0]) == s[1..]
  {
    var n := |s| - 1;
    if n == 0 {
      assert s[..0] == [];
      assert Without(s[..0], s[0]) == [];
    } else {
      var init := s[..n];
      assert init[0] in init;
      WithoutFirst(init);
      assert s[1..] == init[1..] + [s[n]];
    }
  }

  // ─── sorting ───

  predicate Ascending(s: seq<nat>) {
    forall i, j | 0 <= i < j < |s| :: s[i] < s[j]
  }

  /** Numbers in ascending order. */
  method Sort(ids: set<nat>) returns (sorted: seq<nat>)
    ensures Ascending(sorted) && forall x :: x in sorted <==> x in ids
  {
    sorted := [];
    var left := ids;
    while left != {}
      invariant left <= ids && Ascending(sorted) && forall x :: x in sorted <==> x in ids && x !in left
      invariant forall x, y | x in sorted && y in left :: x < y
      decreases |left|
    {
      var least := Least(left);
      assert forall i | 0 <= i < |sorted| :: sorted[i] in sorted;
      sorted, left := sorted + [least], left - {least};
    }
  }

  method Least(ids: set<nat>) returns (least: nat)
    requires ids != {}
    ensures least in ids && forall x | x in ids :: least <= x
  {
    least :| least in ids;
    var left := ids - {least};
    while left != {}
      invariant left <= ids && least in ids && forall x | x in ids && x !in left :: least <= x
      decreases |left|
    {
      var x :| x in left;
      least := if x < least then x else least;
      left := left - {x};
    }
  }
}
