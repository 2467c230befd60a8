/** Lists up to order: what a pool collects in completion order, filtered and sorted. */
module Permutations {
  import opened Options

  function Collect<T, U>(f: T -> Option<U>, s: seq<T>): seq<U> {
    if s == [] then []
    else Collect(f, s[..|s| - 1]) + (var last := f(s[|s| - 1]); if last.Some? then [last.value] else [])
  }

  lemma {:induction false} CollectConcat<T, U>(f: T -> Option<U>, a: seq<T>, b: seq<T>)
    ensures Collect(f, a + b) == Collect(f, a) + Collect(f, b)
  {
    if b == [] {
      assert a + b == a;
    } else {
      CollectConcat(f, a, b[..|b| - 1]);
      assert (a + b)[..|a + b| - 1] == a + b[..|b| - 1];
    }
  }

  lemma CollectOne<T, U>(f: T -> Option<U>, x: T)
    ensures Collect(f, [x]) == if f(x).Some? then [f(x).value] else []
  {
    assert [x][..0] == [];
    assert Collect(f, [x][..0]) == [];
  }

  lemma CollectSnoc<T, U>(f: T -> Option<U>, s: seq<T>, x: T)
    ensures Collect(f, s + [x]) == if f(x).Some? then Collect(f, s) + [f(x).value] else Collect(f, s)
  {
    assert (s + [x])[..|s|] == s && (s + [x])[|s|] == x;
    assert Collect(f, s) + [] == Collect(f, s);
  }

  lemma CollectGrows<T, U>(f: T -> Option<U>, s: seq<T>, x: T)
    ensures |Collect(f, s + [x])| == |Collect(f, s)| + if f(x).Some? then 1 else 0
  {
    CollectSnoc(f, s, x);
  }

  lemma {:induction false} CollectMembers<T, U>(f: T -> Option<U>, s: seq<T>)
    ensures forall u :: u in Collect(f, s) <==> exists x :: x in s && f(x) == Some(u)
  {
    if s != [] {
      CollectMembers(f, s[..|s| - 1]);
      assert s == s[..|s| - 1] + [s[|s| - 1]];
    }
  }

  function HowMany<T>(p: T -> bool, s: seq<T>): nat {
    if s == [] then 0 else HowMany(p, s[..|s| - 1]) + if p(s[|s| - 1]) then 1 else 0
  }

  /** Collecting keeps one value for each element it has one for. */
  lemma {:induction false} CollectCounts<T, U>(f: T -> Option<U>, p: T -> bool, s: seq<T>)
    requires forall x :: x in s ==> (f(x).Some? <==> p(x))
    ensures |Collect(f, s)| == HowMany(p, s)
  {
    if s != [] {
      assert s == s[..|s| - 1] + [s[|s| - 1]];
      CollectCounts(f, p, s[..|s| - 1]);
    }
  }

  lemma {:induction false} CollectNone<T, U>(f: T -> Option<U>, s: seq<T>)
    requires forall x :: x in s ==> f(x) == None
    ensures Collect(f, s) == []
  {
    if s != [] {
      assert s == s[..|s| - 1] + [s[|s| - 1]];
      CollectNone(f, s[..|s| - 1]);
      assert s[|s| - 1] in s;
    }
  }

  /** Taking the element at `k` out of a list. */
  function RemoveAt<T>(s: seq<T>, k: nat): seq<T>
    requires k < |s|
  {
    s[..k] + s[k + 1..]
  }

  lemma WithoutOne<T>(s: seq<T>, k: nat)
    requires k < |s|
    ensures multiset(RemoveAt(s, k)) == multiset(s) - multiset{s[k]}
    ensures multiset(s) == multiset(RemoveAt(s, k)) + multiset{s[k]}
    ensures forall x :: x in RemoveAt(s, k) ==> x in s
  {
    assert s == s[..k] + [s[k]] + s[k + 1..];
  }

  /** A collection depends on the order of its input only in its order. */
  lemma {:induction false} CollectPermuted<T, U>(f: T -> Option<U>, a: seq<T>, b: seq<T>)
    requires multiset(a) == multiset(b)
    ensures multiset(Collect(f, a)) == multiset(Collect(f, b))
    decreases |b|
  {
    if b == [] {
      assert |multiset(a)| == 0;
      assert a == [];
    } else {
      var front, last := b[..|b| - 1], b[|b| - 1];
      assert b == front + [last];
      assert last in multiset(a);
      var k :| 0 <= k < |a| && a[k] == last;
      WithoutOne(a, k);
      CollectPermuted(f, RemoveAt(a, k), front);
      CollectRemoveAt(f, a, k);
      CollectConcat(f, front, [last]);
    }
  }

  lemma CollectRemoveAt<T, U>(f: T -> Option<U>, s: seq<T>, k: nat)
    requires k < |s|
    ensures multiset(Collect(f, s)) == multiset(Collect(f, RemoveAt(s, k))) + multiset(Collect(f, [s[k]]))
  {
    Parts(s, k);
    CollectMiddle(f, s, s[..k], s[k], s[k + 1..]);
  }

  lemma Parts<T>(s: seq<T>, k: nat)
    requires k < |s|
    ensures s == s[..k] + [s[k]] + s[k + 1..]
  {
  }

  lemma CollectMiddle<T, U>(f: T -> Option<U>, s: seq<T>, a: seq<T>, x: T, b: seq<T>)
    requires s == a + [x] + b
    ensures multiset(Collect(f, s)) == multiset(Collect(f, a + b)) + multiset(Collect(f, [x]))
  {
    CollectConcat(f, a + [x], b);
    CollectConcat(f, a, [x]);
    CollectConcat(f, a, b);
    CountMiddle(Collect(f, a), Collect(f, [x]), Collect(f, b));
  }

  lemma CountMiddle<T>(a: seq<T>, x: seq<T>, b: seq<T>)
    ensures multiset((a + x) + b) == multiset(a + b) + multiset(x)
  {
  }

  /** Submit items to a pool until it is full. */
  method FillPending<T>(items: seq<T>, start: nat, held: seq<T>, maxPending: nat) returns (next: nat, pending: seq<T>)
    requires start <= |items| && |held| <= maxPending
    ensures start <= next <= |items| && pending == held + items[start..next]
    ensures |pending| <= maxPending && (next == |items| || |pending| == maxPending)
  {
    next, pending := start, held;
    while |pending| < maxPending && next < |items|
      invariant start <= next <= |items| && pending == held + items[start..next] && |pending| <= maxPending
    {
      assert items[start..next + 1] == items[start..next] + [items[next]];
      pending := pending + [items[next]];
      next := next + 1;
    }
  }

  /** What was submitted is pending or done, after a refill too. */
  lemma Refilled<T>(items: seq<T>, start: nat, next: nat, held: seq<T>, done: seq<T>)
    requires start <= next <= |items| && multiset(items[..start]) == multiset(held) + multiset(done)
    ensures multiset(items[..next]) == multiset(held + items[start..next]) + multiset(done)
  {
    assert items[..next] == items[..start] + items[start..next];
  }

  function Least(a: nat, b: nat): nat {
    if a < b then a else b
  }

  /** The larger of the highest number pending so far and the one now, which is never
      the larger once the pool was filled. */
  ghost function Highest<T>(peak: nat, items: seq<T>, next: nat, pending: seq<T>, done: seq<T>): (higher: nat)
    requires next <= |items| && multiset(items[..next]) == multiset(pending) + multiset(done)
    ensures higher >= peak && higher >= |pending|
    ensures peak >= Least(|items|, |pending|) ==> higher == peak
  {
    assert |multiset(items[..next])| == next && |multiset(pending)| == |pending|;
    if |pending| > peak then |pending| else peak
  }

  // ---------- sorting ----------

  ghost predicate SortedBy<T>(key: T -> int, s: seq<T>) {
    forall i, j :: 0 <= i < j < |s| ==> key(s[i]) <= key(s[j])
  }

  ghost predicate DistinctBy<T>(key: T -> int, s: seq<T>) {
    forall i, j :: 0 <= i < j < |s| ==> key(s[i]) != key(s[j])
  }

  lemma SortedSnoc<T>(key: T -> int, s: seq<T>, x: T)
    requires SortedBy(key, s) && forall y :: y in s ==> key(y) <= key(x)
    ensures SortedBy(key, s + [x])
  {
  }

  function Insert<T>(key: T -> int, s: seq<T>, x: T): (r: seq<T>)
    ensures multiset(r) == multiset(s) + multiset{x}
  {
    if s == [] || key(s[|s| - 1]) <= key(x) then s + [x]
    else
      assert s == s[..|s| - 1] + [s[|s| - 1]];
      Insert(key, s[..|s| - 1], x) + [s[|s| - 1]]
  }

  /** A stable sort. */
  function Sort<T>(key: T -> int, s: seq<T>): (r: seq<T>)
    ensures multiset(r) == multiset(s)
  {
    if s == [] then []
    else
      assert s == s[..|s| - 1] + [s[|s| - 1]];
      Insert(key, Sort(key, s[..|s| - 1]), s[|s| - 1])
  }

  lemma SortSnoc<T>(key: T -> int, s: seq<T>, x: T)
    ensures Sort(key, s + [x]) == Insert(key, Sort(key, s), x)
  {
    assert (s + [x])[..|s|] == s && (s + [x])[|s|] == x;
  }

  lemma InsertLast<T>(key: T -> int, s: seq<T>, x: T)
    requires s == [] || key(s[|s| - 1]) <= key(x)
    ensures Insert(key, s, x) == s + [x]
  {
  }

  lemma Within<T>(s: seq<T>, r: seq<T>, x: T)
    requires multiset(s) == multiset(r) && x in s
    ensures x in r
  {
    assert x in multiset(r);
  }

  lemma {:induction false} InsertSorts<T>(key: T -> int, s: seq<T>, x: T)
    requires SortedBy(key, s)
    ensures SortedBy(key, Insert(key, s, x))
  {
    if s != [] && key(s[|s| - 1]) > key(x) {
      var front := s[..|s| - 1];
      InsertSorts(key, front, x);
      forall y | y in Insert(key, front, x) ensures key(y) <= key(s[|s| - 1]) {
        assert y in multiset(Insert(key, front, x));
        if y in front { var i :| 0 <= i < |front| && front[i] == y; }
      }
    }
  }

  lemma {:induction false} SortSorts<T>(key: T -> int, s: seq<T>)
    ensures SortedBy(key, Sort(key, s))
  {
    if s != [] {
      SortSorts(key, s[..|s| - 1]);
      InsertSorts(key, Sort(key, s[..|s| - 1]), s[|s| - 1]);
    }
  }

  lemma DistinctPermuted<T>(key: T -> int, a: seq<T>, b: seq<T>)
    requires multiset(a) == multiset(b) && DistinctBy(key, a)
    ensures forall x, y :: x in b && y in b && key(x) == key(y) ==> x == y
  {
    forall x, y | x in b && y in b && key(x) == key(y) ensures x == y {
      Within(b, a, x);
      Within(b, a, y);
    }
  }

  /** When elements with equal keys are equal, there is only one sorted order. */
  lemma {:induction false} SortedUnique<T>(key: T -> int, a: seq<T>, b: seq<T>)
    requires multiset(a) == multiset(b) && SortedBy(key, a) && SortedBy(key, b)
    requires forall x, y :: x in a && y in a && key(x) == key(y) ==> x == y
    ensures a == b
    decreases |a|
  {
    SameLength(a, b);
    if a != [] {
      LastIsSame(key, a, b);
      FrontsAreSorted(key, a, b);
      SortedUnique(key, a[..|a| - 1], b[..|b| - 1]);
      assert a == a[..|a| - 1] + [a[|a| - 1]] && b == b[..|b| - 1] + [b[|b| - 1]];
    }
  }

  /** A sorted order of the elements of a list. */
  ghost predicate SortOf<T>(key: T -> int, order: seq<T>, s: seq<T>) {
    multiset(order) == multiset(s) && SortedBy(key, order)
  }

  ghost predicate OneOrder<T(!new)>(key: T -> int, s: seq<T>) {
    forall a, b :: SortOf(key, a, s) && SortOf(key, b, s) ==> a == b
  }

  /** Elements with equal keys are equal. */
  ghost predicate NoTies<T(!new)>(key: T -> int, s: seq<T>) {
    forall x, y :: x in s && y in s && key(x) == key(y) ==> x == y
  }

  lemma Swapped<T>(s: seq<T>, i: nat, j: nat)
    requires i < j < |s|
    ensures multiset(s[i := s[j]][j := s[i]]) == multiset(s)
  {
    assert s == s[..i] + [s[i]] + s[i + 1..j] + [s[j]] + s[j + 1..];
    assert s[i := s[j]][j := s[i]] == s[..i] + [s[j]] + s[i + 1..j] + [s[i]] + s[j + 1..];
  }

  /** Two tied elements may stand either way. */
  lemma TieSwaps<T(!new)>(key: T -> int, s: seq<T>, order: seq<T>, i: nat, j: nat)
    requires SortOf(key, order, s) && i < j < |order| && key(order[i]) == key(order[j]) && order[i] != order[j]
    ensures !OneOrder(key, s)
  {
    var other := order[i := order[j]][j := order[i]];
    Swapped(order, i, j);
    forall k, l | 0 <= k < l < |other| ensures key(other[k]) <= key(other[l]) {
      assert key(other[k]) == key(order[k]) && key(other[l]) == key(order[l]);
    }
    assert SortOf(key, other, s) && other[i] != order[i];
  }

  /** A list has one sorted order if and only if it has no ties. */
  lemma OneOrderExactly<T(!new)>(key: T -> int, s: seq<T>)
    ensures OneOrder(key, s) <==> NoTies(key, s)
  {
    if NoTies(key, s) {
      forall a, b | SortOf(key, a, s) && SortOf(key, b, s) ensures a == b {
        AllDone(a, s);
        SortedUnique(key, a, b);
      }
    } else {
      var x, y :| x in s && y in s && key(x) == key(y) && x != y;
      var order := Sort(key, s);
      SortSorts(key, s);
      AllDone(order, s);
      var i :| 0 <= i < |order| && order[i] == x;
      var j :| 0 <= j < |order| && order[j] == y;
      if i < j { TieSwaps(key, s, order, i, j); } else { TieSwaps(key, s, order, j, i); }
    }
  }

  /** Sorting leaves a sorted list as it is. */
  lemma {:induction false} SortedStays<T>(key: T -> int, s: seq<T>)
    requires SortedBy(key, s)
    ensures Sort(key, s) == s
  {
    if s != [] {
      var front, last := s[..|s| - 1], s[|s| - 1];
      assert s == front + [last];
      SortedStays(key, front);
      SortSnoc(key, front, last);
      InsertLast(key, front, last);
    }
  }

  lemma FrontsAreSorted<T>(key: T -> int, a: seq<T>, b: seq<T>)
    requires multiset(a) == multiset(b) && SortedBy(key, a) && SortedBy(key, b)
    requires forall x, y :: x in a && y in a && key(x) == key(y) ==> x == y
    requires a != [] && b != [] && a[|a| - 1] == b[|b| - 1]
    ensures var a', b' := a[..|a| - 1], b[..|b| - 1];
            && multiset(a') == multiset(b') && SortedBy(key, a') && SortedBy(key, b')
            && forall x, y :: x in a' && y in a' && key(x) == key(y) ==> x == y
  {
    FrontCounts(a);
    FrontCounts(b);
    forall x | x in a[..|a| - 1] ensures x in a {}
  }

  lemma FrontCounts<T>(s: seq<T>)
    requires s != []
    ensures multiset(s[..|s| - 1]) == multiset(s) - multiset{s[|s| - 1]}
  {
    assert s == s[..|s| - 1] + [s[|s| - 1]];
  }

  lemma LastIsSame<T>(key: T -> int, a: seq<T>, b: seq<T>)
    requires multiset(a) == multiset(b) && SortedBy(key, a) && SortedBy(key, b)
    requires forall x, y :: x in a && y in a && key(x) == key(y) ==> x == y
    requires a != [] && b != []
    ensures a[|a| - 1] == b[|b| - 1]
  {
    var x, y := a[|a| - 1], b[|b| - 1];
    Within(a, b, x);
    Within(b, a, y);
    var i :| 0 <= i < |b| && b[i] == x;
    var j :| 0 <= j < |a| && a[j] == y;
  }

  lemma DistinctAnyOrder<T>(key: T -> int, a: seq<T>, b: seq<T>)
    requires multiset(a) == multiset(b) && DistinctBy(key, a)
    ensures DistinctBy(key, b)
  {
    forall i, j | 0 <= i < j < |b| ensures key(b[i]) != key(b[j]) {
      DistinctPermuted(key, a, b);
      assert b[i] in b && b[j] in b;
      if b[i] == b[j] {
        Twice(b, i, j);
        Once(key, a, b[i]);
      }
    }
  }

  lemma Twice<T>(s: seq<T>, i: nat, j: nat)
    requires i < j < |s| && s[i] == s[j]
    ensures multiset(s)[s[i]] >= 2
  {
    assert s == s[..j] + [s[j]] + s[j + 1..];
    assert s[..j][i] in s[..j];
    assert s[i] in multiset(s[..j]);
  }

  lemma {:induction false} Once<T>(key: T -> int, s: seq<T>, x: T)
    requires DistinctBy(key, s)
    ensures multiset(s)[x] <= 1
  {
    if s != [] {
      var front, last := s[..|s| - 1], s[|s| - 1];
      assert s == front + [last];
      Once(key, front, x);
      assert x == last ==> x !in multiset(front);
    }
  }

  lemma AllDone<T>(all: seq<T>, done: seq<T>)
    requires multiset(all) == multiset(done)
    ensures forall x :: x in all <==> x in done
  {
    forall x ensures x in all <==> x in done {
      assert x in all <==> x in multiset(all);
    }
  }

  lemma SameLength<T>(a: seq<T>, b: seq<T>)
    requires multiset(a) == multiset(b)
    ensures |a| == |b|
  {
    assert |a| == |multiset(a)| && |b| == |multiset(b)|;
  }

  lemma LastApart<T>(s: seq<T>)
    requires s != []
    ensures s == s[..|s| - 1] + [s[|s| - 1]]
  {
  }

  lemma Peeled<T>(a: seq<T>, b: seq<T>)
    requires b != []
    ensures a + b == (a + b[..|b| - 1]) + [b[|b| - 1]] && b == b[..|b| - 1] + [b[|b| - 1]]
  {
  }

  lemma Associative<T>(a: seq<T>, b: seq<T>, c: seq<T>)
    ensures a + (b + c) == (a + b) + c
  {
  }
}
