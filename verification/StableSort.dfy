/** The stable sort, newest first, that merges several histories; and what survives cutting them short. */
module StableSort {

  /** A row with the time it is ordered by. */
  datatype Keyed<+T> = Keyed(key: int, row: T)

  ghost predicate Newest<T(!new)>(s: seq<Keyed<T>>) {
    forall i, j :: 0 <= i < j < |s| ==> s[i].key >= s[j].key
  }

  /** Of two rows with the same key, the one from `a` comes first. */
  function Merge<T>(a: seq<Keyed<T>>, b: seq<Keyed<T>>): (r: seq<Keyed<T>>)
    ensures |r| == |a| + |b|
    decreases |a| + |b|
  {
    if a == [] then b
    else if b == [] then a
    else if a[0].key >= b[0].key then [a[0]] + Merge(a[1..], b)
    else [b[0]] + Merge(a, b[1..])
  }

  function Sorted<T>(s: seq<Keyed<T>>): (r: seq<Keyed<T>>)
    ensures |r| == |s|
  {
    if s == [] then [] else Merge([s[0]], Sorted(s[1..]))
  }

  /** The rows with a given key, in their order. */
  function WithKey<T>(s: seq<Keyed<T>>, key: int): seq<Keyed<T>> {
    if s == [] then []
    else (if s[0].key == key then [s[0]] else []) + WithKey(s[1..], key)
  }

  // ---- Merge keeps order, rows and ties

  lemma {:induction false} MergeIsOf<T(!new)>(a: seq<Keyed<T>>, b: seq<Keyed<T>>)
    ensures multiset(Merge(a, b)) == multiset(a) + multiset(b)
    decreases |a| + |b|
  {
    hide Merge;
    if a == [] || b == [] {
      MergeWithNone(a, b);
    } else if a[0].key >= b[0].key {
      MergeIsOf(a[1..], b);
      MergeUnfolds(a, b);
      assert a == [a[0]] + a[1..];
    } else {
      MergeIsOf(a, b[1..]);
      MergeUnfolds(a, b);
      assert b == [b[0]] + b[1..];
    }
  }

  lemma MergeWithNone<T(!new)>(a: seq<Keyed<T>>, b: seq<Keyed<T>>)
    requires a == [] || b == []
    ensures Merge(a, b) == a + b
  {
  }

  ghost predicate AtMost<T(!new)>(s: seq<Keyed<T>>, key: int) {
    forall i :: 0 <= i < |s| ==> s[i].key <= key
  }

  lemma {:induction false} MergeAtMost<T(!new)>(a: seq<Keyed<T>>, b: seq<Keyed<T>>, key: int)
    requires AtMost(a, key) && AtMost(b, key)
    ensures AtMost(Merge(a, b), key)
    decreases |a| + |b|
  {
    if a != [] && b != [] {
      if a[0].key >= b[0].key {
        MergeAtMost(a[1..], b, key);
      } else {
        MergeAtMost(a, b[1..], key);
      }
    }
  }

  lemma NewestFirst<T(!new)>(s: seq<Keyed<T>>)
    requires s != []
    ensures Newest(s) <==> AtMost(s[1..], s[0].key) && Newest(s[1..])
  {
    if AtMost(s[1..], s[0].key) && Newest(s[1..]) {
      forall i, j | 0 <= i < j < |s|
        ensures s[i].key >= s[j].key
      {
        assert s[j] == s[1..][j - 1];
        assert i > 0 ==> s[i] == s[1..][i - 1];
      }
    }
  }

  lemma NewestStep<T(!new)>(x: Keyed<T>, a: seq<Keyed<T>>, b: seq<Keyed<T>>)
    requires AtMost(a, x.key) && AtMost(b, x.key) && Newest(Merge(a, b))
    ensures Newest([x] + Merge(a, b))
  {
    MergeAtMost(a, b, x.key);
    assert ([x] + Merge(a, b))[1..] == Merge(a, b);
    NewestFirst([x] + Merge(a, b));
  }

  lemma {:induction false} MergeIsNewest<T(!new)>(a: seq<Keyed<T>>, b: seq<Keyed<T>>)
    requires Newest(a) && Newest(b)
    ensures Newest(Merge(a, b))
    decreases |a| + |b|
  {
    if a != [] && b != [] {
      NewestFirst(a);
      NewestFirst(b);
      if a[0].key >= b[0].key {
        MergeIsNewest(a[1..], b);
        NewestStep(a[0], a[1..], b);
      } else {
        MergeIsNewest(a, b[1..]);
        NewestStep(b[0], a, b[1..]);
      }
      hide Newest;
    }
  }

  lemma {:induction false} NoneAbove<T(!new)>(s: seq<Keyed<T>>, key: int)
    requires forall i :: 0 <= i < |s| ==> s[i].key < key
    ensures WithKey(s, key) == []
  {
    if s != [] {
      NoneAbove(s[1..], key);
    }
  }

  lemma WithKeyCons<T(!new)>(x: Keyed<T>, s: seq<Keyed<T>>, key: int)
    ensures WithKey([x] + s, key) == (if x.key == key then [x] else []) + WithKey(s, key)
  {
    assert ([x] + s)[1..] == s;
  }

  lemma WithKeySplit<T(!new)>(s: seq<Keyed<T>>, key: int)
    requires s != []
    ensures WithKey(s, key) == (if s[0].key == key then [s[0]] else []) + WithKey(s[1..], key)
  {
  }

  lemma MergeUnfolds<T(!new)>(a: seq<Keyed<T>>, b: seq<Keyed<T>>)
    requires a != [] && b != []
    ensures a[0].key >= b[0].key ==> Merge(a, b) == [a[0]] + Merge(a[1..], b)
    ensures a[0].key < b[0].key ==> Merge(a, b) == [b[0]] + Merge(a, b[1..])
  {
  }

  lemma HeadBelow<T(!new)>(s: seq<Keyed<T>>, key: int)
    requires Newest(s) && (s == [] || s[0].key < key)
    ensures WithKey(s, key) == []
  {
    NoneAbove(s, key);
  }

  lemma LeftGoesFirst<T(!new)>(a: seq<Keyed<T>>, b: seq<Keyed<T>>, key: int)
    requires a != [] && b != [] && a[0].key >= b[0].key
    requires WithKey(Merge(a[1..], b), key) == WithKey(a[1..], key) + WithKey(b, key)
    ensures WithKey(Merge(a, b), key) == WithKey(a, key) + WithKey(b, key)
  {
    hide Merge, WithKey;
    MergeUnfolds(a, b);
    WithKeySplit(a, key);
    WithKeyCons(a[0], Merge(a[1..], b), key);
  }

  lemma RightGoesFirst<T(!new)>(a: seq<Keyed<T>>, b: seq<Keyed<T>>, key: int)
    requires a != [] && b != [] && a[0].key < b[0].key
    requires b[0].key == key ==> WithKey(a, key) == []
    requires WithKey(Merge(a, b[1..]), key) == WithKey(a, key) + WithKey(b[1..], key)
    ensures WithKey(Merge(a, b), key) == WithKey(a, key) + WithKey(b, key)
  {
    hide Merge, WithKey;
    MergeUnfolds(a, b);
    WithKeySplit(b, key);
    WithKeyCons(b[0], Merge(a, b[1..]), key);
  }

  lemma {:induction false} MergeIsStable<T(!new)>(a: seq<Keyed<T>>, b: seq<Keyed<T>>, key: int)
    requires Newest(a) && Newest(b)
    ensures WithKey(Merge(a, b), key) == WithKey(a, key) + WithKey(b, key)
    decreases |a| + |b|
  {
    if a != [] && b != [] {
      NewestFirst(a);
      NewestFirst(b);
      if a[0].key >= b[0].key {
        MergeIsStable(a[1..], b, key);
        LeftGoesFirst(a, b, key);
      } else {
        MergeIsStable(a, b[1..], key);
        if b[0].key == key {
          HeadBelow(a, key);
        }
        RightGoesFirst(a, b, key);
      }
    }
  }

  // ---- Sorted is the stable sort, and the only one

  lemma {:induction false} SortedIsNewest<T(!new)>(s: seq<Keyed<T>>)
    ensures Newest(Sorted(s))
  {
    if s != [] {
      SortedIsNewest(s[1..]);
      MergeIsNewest([s[0]], Sorted(s[1..]));
    }
  }

  lemma {:induction false} SortedPermutes<T(!new)>(s: seq<Keyed<T>>)
    ensures multiset(Sorted(s)) == multiset(s)
  {
    if s != [] {
      SortedPermutes(s[1..]);
      MergeIsOf([s[0]], Sorted(s[1..]));
      assert s == [s[0]] + s[1..];
    }
  }

  lemma {:induction false} SortedIsStable<T(!new)>(s: seq<Keyed<T>>, key: int)
    ensures WithKey(Sorted(s), key) == WithKey(s, key)
  {
    if s != [] {
      SortedIsStable(s[1..], key);
      SortedIsNewest(s[1..]);
      MergeIsStable([s[0]], Sorted(s[1..]), key);
      WithKeyCons(s[0], [], key);
      WithKeySplit(s, key);
      assert [s[0]] + [] == [s[0]];
      hide Merge, WithKey, Newest;
    }
  }

  /** Two lists with the same rows under every key, in the same order. */
  ghost predicate SameTies<T(!new)>(s: seq<Keyed<T>>, t: seq<Keyed<T>>) {
    forall key :: WithKey(s, key) == WithKey(t, key)
  }

  lemma HeadOf<T(!new)>(s: seq<Keyed<T>>)
    requires s != []
    ensures WithKey(s, s[0].key) == [s[0]] + WithKey(s[1..], s[0].key)
  {
  }

  lemma HeadNotLater<T(!new)>(s: seq<Keyed<T>>, t: seq<Keyed<T>>)
    requires Newest(t) && SameTies(s, t) && s != []
    ensures t != [] && t[0].key >= s[0].key
  {
    HeadOf(s);
    if t == [] || t[0].key < s[0].key {
      NoneAbove(t, s[0].key);
    }
  }

  lemma HeadsAgree<T(!new)>(s: seq<Keyed<T>>, t: seq<Keyed<T>>)
    requires Newest(s) && Newest(t) && SameTies(s, t) && s != [] && t != []
    ensures s[0] == t[0]
  {
    HeadNotLater(s, t);
    HeadNotLater(t, s);
    HeadOf(s);
    HeadOf(t);
    assert WithKey(s, s[0].key)[0] == WithKey(t, s[0].key)[0];
  }

  lemma TailsAgree<T(!new)>(s: seq<Keyed<T>>, t: seq<Keyed<T>>)
    requires SameTies(s, t) && s != [] && t != [] && s[0] == t[0]
    ensures SameTies(s[1..], t[1..])
  {
    forall key
      ensures WithKey(s[1..], key) == WithKey(t[1..], key)
    {
      var head := if s[0].key == key then [s[0]] else [];
      assert WithKey(s, key) == WithKey(t, key);
      assert WithKey(s[1..], key) == (head + WithKey(s[1..], key))[|head|..];
      assert WithKey(t[1..], key) == (head + WithKey(t[1..], key))[|head|..];
    }
  }

  /** Sorted newest first with every tie in the original order: there is only one such list. */
  lemma {:induction false} StableSortIsUnique<T(!new)>(s: seq<Keyed<T>>, t: seq<Keyed<T>>)
    requires Newest(s) && Newest(t) && SameTies(s, t)
    ensures s == t
  {
    if s == [] {
      if t != [] {
        HeadNotLater(t, s);
      }
    } else {
      HeadNotLater(s, t);
      HeadsAgree(s, t);
      TailsAgree(s, t);
      NewestFirst(s);
      NewestFirst(t);
      StableSortIsUnique(s[1..], t[1..]);
      assert s == [s[0]] + s[1..] && t == [t[0]] + t[1..];
    }
  }

  lemma {:induction false} WithKeyConcat<T(!new)>(a: seq<Keyed<T>>, b: seq<Keyed<T>>, key: int)
    ensures WithKey(a + b, key) == WithKey(a, key) + WithKey(b, key)
  {
    hide WithKey;
    if a == [] {
      assert a + b == b;
      NoRows(a, key);
    } else {
      WithKeyConcat(a[1..], b, key);
      WithKeySplit(a, key);
      WithKeyCons(a[0], a[1..] + b, key);
      assert a + b == [a[0]] + (a[1..] + b);
    }
  }

  lemma NoRows<T(!new)>(s: seq<Keyed<T>>, key: int)
    requires s == []
    ensures WithKey(s, key) == []
  {
  }

  /** Sorting an appended list is merging the sorted halves. */
  lemma SortedConcat<T(!new)>(a: seq<Keyed<T>>, b: seq<Keyed<T>>)
    ensures Sorted(a + b) == Merge(Sorted(a), Sorted(b))
  {
    SortedIsNewest(a);
    SortedIsNewest(b);
    SortedIsNewest(a + b);
    MergeIsNewest(Sorted(a), Sorted(b));
    forall key
      ensures WithKey(Sorted(a + b), key) == WithKey(Merge(Sorted(a), Sorted(b)), key)
    {
      MergeIsStable(Sorted(a), Sorted(b), key);
      SortedIsStable(a, key);
      SortedIsStable(b, key);
      SortedIsStable(a + b, key);
      WithKeyConcat(a, b, key);
    }
    StableSortIsUnique(Sorted(a + b), Merge(Sorted(a), Sorted(b)));
  }

  lemma SortedAlready<T(!new)>(s: seq<Keyed<T>>)
    requires Newest(s)
    ensures Sorted(s) == s
  {
    SortedIsNewest(s);
    forall key {
      SortedIsStable(s, key);
    }
    StableSortIsUnique(Sorted(s), s);
  }

  // ---- Cutting the sources short

  function Take<T>(s: seq<T>, n: nat): seq<T> {
    if n < |s| then s[..n] else s
  }

  lemma TakeCons<T>(x: T, s: seq<T>, n: nat)
    requires n > 0
    ensures Take([x] + s, n) == [x] + Take(s, n - 1)
  {
  }

  lemma TakeTwice<T>(s: seq<T>, n: nat, m: nat)
    requires n <= m
    ensures Take(Take(s, m), n) == Take(s, n)
  {
  }

  lemma TakeTail<T>(s: seq<T>, m: nat)
    requires m > 0 && s != []
    ensures Take(s, m) == [s[0]] + Take(s[1..], m - 1)
  {
  }

  /** The first n of a merge need only the first m of its left side, for any m of at least n. */
  lemma {:induction false} MergeTakeLeft<T(!new)>(a: seq<Keyed<T>>, b: seq<Keyed<T>>, n: nat, m: nat)
    requires n <= m
    ensures Take(Merge(Take(a, m), b), n) == Take(Merge(a, b), n)
    decreases n
  {
    if n == 0 || a == [] {
    } else if b == [] {
      TakeTwice(a, n, m);
    } else if a[0].key >= b[0].key {
      MergeTakeLeft(a[1..], b, n - 1, m - 1);
      TakeTail(a, m);
      TakeCons(a[0], Merge(a[1..], b), n);
      TakeCons(a[0], Merge(Take(a[1..], m - 1), b), n);
    } else {
      MergeTakeLeft(a, b[1..], n - 1, m);
      TakeTail(a, m);
      TakeCons(b[0], Merge(a, b[1..]), n);
      TakeCons(b[0], Merge(Take(a, m), b[1..]), n);
    }
  }

  lemma {:induction false} MergeTakeRight<T(!new)>(a: seq<Keyed<T>>, b: seq<Keyed<T>>, n: nat, m: nat)
    requires n <= m
    ensures Take(Merge(a, Take(b, m)), n) == Take(Merge(a, b), n)
    decreases n
  {
    if n == 0 || b == [] {
    } else if a == [] {
      TakeTwice(b, n, m);
    } else if a[0].key >= b[0].key {
      MergeTakeRight(a[1..], b, n - 1, m);
      TakeTail(b, m);
      TakeCons(a[0], Merge(a[1..], b), n);
      TakeCons(a[0], Merge(a[1..], Take(b, m)), n);
    } else {
      MergeTakeRight(a, b[1..], n - 1, m - 1);
      TakeTail(b, m);
      TakeCons(b[0], Merge(a, b[1..]), n);
      TakeCons(b[0], Merge(a, Take(b[1..], m - 1)), n);
    }
  }

  /** The first n of a merge depend only on the first n of each side. */
  lemma MergeOfPrefixes<T(!new)>(a: seq<Keyed<T>>, b: seq<Keyed<T>>, c: seq<Keyed<T>>, d: seq<Keyed<T>>, n: nat)
    requires Take(a, n) == Take(c, n) && Take(b, n) == Take(d, n)
    ensures Take(Merge(a, b), n) == Take(Merge(c, d), n)
  {
    MergeTakeLeft(a, b, n, n);
    MergeTakeRight(Take(a, n), b, n, n);
    MergeTakeLeft(c, d, n, n);
    MergeTakeRight(Take(c, n), d, n, n);
  }
}
