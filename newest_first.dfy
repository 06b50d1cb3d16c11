/**
 * `.sort({ createdAt: -1 })` as both API routes use it: the documents in
 * descending order of their creation time. Equal times keep store order
 * (the model is a stable insertion sort).
 */
module NewestFirst {

  /** `s` is ordered newest first by `created`. */
  ghost predicate Descending<T>(s: seq<T>, created: T -> int) {
    forall i, j :: 0 <= i < j < |s| ==> created(s[i]) >= created(s[j])
  }

  /** No element of `s` is newer than `bound`. */
  ghost predicate NoneNewerThan<T>(s: seq<T>, created: T -> int, bound: int) {
    forall k :: 0 <= k < |s| ==> created(s[k]) <= bound
  }

  function Insert<T>(x: T, s: seq<T>, created: T -> int): seq<T> {
    if s == [] then [x]
    else if created(x) >= created(s[0]) then [x] + s
    else [s[0]] + Insert(x, s[1..], created)
  }

  function Sort<T>(s: seq<T>, created: T -> int): seq<T> {
    if s == [] then [] else Insert(s[0], Sort(s[1..], created), created)
  }

  lemma {:induction false} InsertPermutes<T>(x: T, s: seq<T>, created: T -> int)
    ensures multiset(Insert(x, s, created)) == multiset(s) + multiset{x}
  {
    if s != [] {
      assert s == [s[0]] + s[1..];
      if created(x) < created(s[0]) {
        InsertPermutes(x, s[1..], created);
      }
    }
  }

  lemma {:induction false} InsertBounded<T>(x: T, s: seq<T>, created: T -> int, bound: int)
    requires NoneNewerThan(s, created, bound) && created(x) <= bound
    ensures NoneNewerThan(Insert(x, s, created), created, bound)
  {
    if s != [] && created(x) < created(s[0]) {
      InsertBounded(x, s[1..], created, bound);
      var rest := Insert(x, s[1..], created);
      assert Insert(x, s, created) == [s[0]] + rest;
    }
  }

  lemma {:induction false} InsertSorted<T>(x: T, s: seq<T>, created: T -> int)
    requires Descending(s, created)
    ensures Descending(Insert(x, s, created), created)
  {
    if s != [] && created(x) < created(s[0]) {
      var rest := Insert(x, s[1..], created);
      InsertSorted(x, s[1..], created);
      InsertBounded(x, s[1..], created, created(s[0]));
      var r := [s[0]] + rest;
      assert Insert(x, s, created) == r;
      forall i, j | 0 <= i < j < |r| ensures created(r[i]) >= created(r[j]) {
        assert r[j] == rest[j - 1];
        if i > 0 { assert r[i] == rest[i - 1]; }
      }
    }
  }

  /** The listing holds exactly the documents it was given, each as often. */
  lemma {:induction false} SortPermutes<T>(s: seq<T>, created: T -> int)
    ensures multiset(Sort(s, created)) == multiset(s)
  {
    if s != [] {
      assert s == [s[0]] + s[1..];
      SortPermutes(s[1..], created);
      InsertPermutes(s[0], Sort(s[1..], created), created);
    }
  }

  /** The listing is newest first. */
  lemma {:induction false} SortSorted<T>(s: seq<T>, created: T -> int)
    ensures Descending(Sort(s, created), created)
  {
    if s != [] {
      SortSorted(s[1..], created);
      InsertSorted(s[0], Sort(s[1..], created), created);
    }
  }

  /** The documents of `s` created at time `at`, in their order in `s`. */
  function SameTime<T>(s: seq<T>, created: T -> int, at: int): seq<T> {
    if s == [] then []
    else (if created(s[0]) == at then [s[0]] else []) + SameTime(s[1..], created, at)
  }

  lemma SameTimeCons<T>(y: T, s: seq<T>, created: T -> int, at: int)
    ensures SameTime([y] + s, created, at) == (if created(y) == at then [y] else []) + SameTime(s, created, at)
  {
    assert ([y] + s)[0] == y && ([y] + s)[1..] == s;
  }

  /** Inserting puts the new document ahead of every document created at the same time. */
  lemma {:induction false} InsertStable<T>(x: T, s: seq<T>, created: T -> int, at: int)
    ensures SameTime(Insert(x, s, created), created, at) ==
      (if created(x) == at then [x] else []) + SameTime(s, created, at)
  {
    if s == [] {
      SameTimeCons(x, [], created, at);
    } else if created(x) >= created(s[0]) {
      SameTimeCons(x, s, created, at);
    } else {
      var rest := Insert(x, s[1..], created);
      assert Insert(x, s, created) == [s[0]] + rest;
      SameTimeCons(s[0], rest, created, at);
      InsertStable(x, s[1..], created, at);
      SameTimeCons(s[0], s[1..], created, at);
      assert [s[0]] + s[1..] == s;
      var head: seq<T> := if created(s[0]) == at then [s[0]] else [];
      var mine: seq<T> := if created(x) == at then [x] else [];
      assert created(x) == at ==> head == [];
      assert head + (mine + SameTime(s[1..], created, at)) == mine + (head + SameTime(s[1..], created, at));
    }
  }

  /** The sort is stable: documents created at the same time keep their store order. */
  lemma {:induction false} SortStable<T>(s: seq<T>, created: T -> int, at: int)
    ensures SameTime(Sort(s, created), created, at) == SameTime(s, created, at)
  {
    if s != [] {
      SortStable(s[1..], created, at);
      InsertStable(s[0], Sort(s[1..], created), created, at);
    }
  }
}
