/** Filtering and stable sorting, as Array.prototype.filter and Array.prototype.sort do them. */
module Lists {
  import opened Basics

  function Filter<T>(keep: T -> bool, s: seq<T>): seq<T> {
    if s == [] then [] else (if keep(s[0]) then [s[0]] else []) + Filter(keep, s[1..])
  }

  lemma {:induction false} FilterMembers<T(!new)>(keep: T -> bool, s: seq<T>)
    ensures |Filter(keep, s)| <= |s|
    ensures forall x :: x in Filter(keep, s) <==> x in s && keep(x)
  {
    if s != [] {
      FilterMembers(keep, s[1..]);
    }
  }

  lemma {:induction false} FilterConcat<T(!new)>(keep: T -> bool, a: seq<T>, b: seq<T>)
    ensures Filter(keep, a + b) == Filter(keep, a) + Filter(keep, b)
  {
    if a == [] {
      assert a + b == b;
    } else {
      FilterConcat(keep, a[1..], b);
      assert (a + b)[1..] == a[1..] + b;
      Assoc(if keep(a[0]) then [a[0]] else [], Filter(keep, a[1..]), Filter(keep, b));
    }
  }

  lemma {:induction false} FilterDisjoint<T(!new)>(f: T -> bool, g: T -> bool, s: seq<T>)
    requires forall i :: 0 <= i < |s| ==> !(f(s[i]) && g(s[i]))
    ensures Filter(f, Filter(g, s)) == []
  {
    if s != [] {
      FilterDisjoint(f, g, s[1..]);
      FilterConcat(f, if g(s[0]) then [s[0]] else [], Filter(g, s[1..]));
    }
  }

  lemma {:induction false} FilterWider<T(!new)>(f: T -> bool, g: T -> bool, s: seq<T>)
    requires forall i :: 0 <= i < |s| && f(s[i]) ==> g(s[i])
    ensures Filter(f, Filter(g, s)) == Filter(f, s)
  {
    if s != [] {
      FilterWider(f, g, s[1..]);
      FilterConcat(f, if g(s[0]) then [s[0]] else [], Filter(g, s[1..]));
    }
  }

  /** The place in a descending list after every element that is at least as large, from `i` on. */
  function Place<T>(key: T -> int, x: T, s: seq<T>, i: nat): (p: nat)
    requires i <= |s|
    ensures i <= p <= |s|
    decreases |s| - i
  {
    if i == |s| || key(s[i]) < key(x) then i else Place(key, x, s, i + 1)
  }

  /** Larger first, equals in the order they came. */
  function Insert<T>(key: T -> int, x: T, s: seq<T>): (r: seq<T>)
    ensures |r| == |s| + 1
  {
    s[..Place(key, x, s, 0)] + ([x] + s[Place(key, x, s, 0)..])
  }

  function SortTo<T>(key: T -> int, s: seq<T>, n: nat): (r: seq<T>)
    requires n <= |s|
    ensures |r| == n
  {
    if n == 0 then [] else Insert(key, s[n - 1], SortTo(key, s, n - 1))
  }

  /** s.sort((a, b) => key(b) - key(a)). */
  function SortDown<T>(key: T -> int, s: seq<T>): (r: seq<T>)
    ensures |r| == |s|
  {
    SortTo(key, s, |s|)
  }

  predicate Descending<T(!new)>(key: T -> int, s: seq<T>) {
    forall i, j :: 0 <= i < j < |s| ==> key(s[i]) >= key(s[j])
  }

  function WithKey<T(!new)>(key: T -> int, k: int, s: seq<T>): seq<T> {
    if s == [] then [] else (if key(s[0]) == k then [s[0]] else []) + WithKey(key, k, s[1..])
  }

  lemma {:induction false} WithKeyConcat<T(!new)>(key: T -> int, k: int, a: seq<T>, b: seq<T>)
    ensures WithKey(key, k, a + b) == WithKey(key, k, a) + WithKey(key, k, b)
  {
    if a == [] {
      assert a + b == b;
    } else {
      WithKeyConcat(key, k, a[1..], b);
      assert (a + b)[1..] == a[1..] + b;
      Assoc(if key(a[0]) == k then [a[0]] else [], WithKey(key, k, a[1..]), WithKey(key, k, b));
    }
  }

  lemma {:induction false} WithKeyNone<T(!new)>(key: T -> int, k: int, s: seq<T>)
    requires forall i :: 0 <= i < |s| ==> key(s[i]) < k
    ensures WithKey(key, k, s) == []
  {
    if s != [] {
      WithKeyNone(key, k, s[1..]);
    }
  }

  lemma {:induction false} PlaceParts<T(!new)>(key: T -> int, x: T, s: seq<T>, i: nat)
    requires i <= |s| && Descending(key, s)
    ensures var p := Place(key, x, s, i);
            && (forall j :: i <= j < p ==> key(s[j]) >= key(x))
            && (forall j :: p <= j < |s| ==> key(s[j]) < key(x))
    decreases |s| - i
  {
    if i < |s| && key(s[i]) >= key(x) {
      PlaceParts(key, x, s, i + 1);
    }
  }

  lemma InsertKeeps<T(!new)>(key: T -> int, x: T, s: seq<T>)
    requires Descending(key, s)
    ensures Descending(key, Insert(key, x, s))
    ensures forall y :: y in Insert(key, x, s) <==> y == x || y in s
  {
    var p := Place(key, x, s, 0);
    PlaceParts(key, x, s, 0);
    InsertAt(x, s, p);
    InsertDescends(key, x, s, p, Insert(key, x, s));
  }

  lemma {:induction false} InsertDescends<T(!new)>(key: T -> int, x: T, s: seq<T>, p: nat, r: seq<T>)
    requires Descending(key, s) && p <= |s| && |r| == |s| + 1
    requires forall i {:trigger r[i]} :: 0 <= i < |r| ==> r[i] == if i < p then s[i] else if i == p then x else s[i - 1]
    requires forall i :: 0 <= i < p ==> key(s[i]) >= key(x)
    requires forall i :: p <= i < |s| ==> key(s[i]) < key(x)
    ensures Descending(key, r)
  {
    forall i, j | 0 <= i < j < |r| ensures key(r[i]) >= key(r[j]) {
      if j == p {
        assert r[i] == s[i];
      } else if i == p {
        assert r[j] == s[j - 1];
      } else {
        assert r[i] == s[if i < p then i else i - 1] && r[j] == s[if j < p then j else j - 1];
      }
    }
  }

  lemma InsertAt<T(!new)>(x: T, s: seq<T>, p: nat)
    requires p <= |s|
    ensures var r := s[..p] + ([x] + s[p..]);
            && |r| == |s| + 1
            && (forall i :: 0 <= i < |r| ==> r[i] == if i < p then s[i] else if i == p then x else s[i - 1])
            && forall y :: y in r <==> y == x || y in s
  {
    assert s == s[..p] + s[p..];
  }

  lemma {:induction false} InsertKeepsKey<T(!new)>(key: T -> int, x: T, s: seq<T>, k: int)
    requires Descending(key, s)
    ensures WithKey(key, k, Insert(key, x, s)) == WithKey(key, k, s) + (if key(x) == k then [x] else [])
  {
    var p := Place(key, x, s, 0);
    TailIsSmaller(key, x, s, k);
    WithKeyAround(key, k, s[..p], x, s[p..]);
    assert s == s[..p] + s[p..];
  }

  lemma {:induction false} TailIsSmaller<T(!new)>(key: T -> int, x: T, s: seq<T>, k: int)
    requires Descending(key, s)
    ensures key(x) == k ==> WithKey(key, k, s[Place(key, x, s, 0)..]) == []
  {
    PlaceParts(key, x, s, 0);
    if key(x) == k {
      WithKeyNone(key, k, s[Place(key, x, s, 0)..]);
    }
  }

  lemma {:induction false} WithKeyAround<T(!new)>(key: T -> int, k: int, a: seq<T>, x: T, b: seq<T>)
    requires key(x) == k ==> WithKey(key, k, b) == []
    ensures WithKey(key, k, a + ([x] + b)) == WithKey(key, k, a + b) + (if key(x) == k then [x] else [])
  {
    WithKeyConcat(key, k, a, b);
    WithKeyConcat(key, k, a, [x] + b);
    assert ([x] + b)[1..] == b;
    Assoc(WithKey(key, k, a), WithKey(key, k, b), if key(x) == k then [x] else []);
  }

  lemma {:induction false} SortToIsStable<T(!new)>(key: T -> int, s: seq<T>, n: nat, k: int)
    requires n <= |s|
    ensures Descending(key, SortTo(key, s, n)) && WithKey(key, k, SortTo(key, s, n)) == WithKey(key, k, s[..n])
    ensures forall x :: x in SortTo(key, s, n) <==> x in s[..n]
  {
    if n > 0 {
      SortToIsStable(key, s, n - 1, k);
      InsertKeeps(key, s[n - 1], SortTo(key, s, n - 1));
      InsertKeepsKey(key, s[n - 1], SortTo(key, s, n - 1), k);
      assert s[..n] == s[..n - 1] + [s[n - 1]];
      WithKeyConcat(key, k, s[..n - 1], [s[n - 1]]);
    }
  }

  /** The sort orders, and for every key keeps the elements with that key and their order. */
  lemma {:induction false} SortIsStable<T(!new)>(key: T -> int, s: seq<T>, k: int)
    ensures Descending(key, SortDown(key, s)) && WithKey(key, k, SortDown(key, s)) == WithKey(key, k, s)
    ensures forall x :: x in SortDown(key, s) <==> x in s
  {
    SortToIsStable(key, s, |s|, k);
    assert s[..|s|] == s;
  }
}
