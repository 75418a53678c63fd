/**
 * A stable sort by a comparator, as `Array.prototype.sort` performs it. The
 * comparator is given as `le(a, b)`, "compare(a, b) <= 0", which must be a
 * total preorder. The sort is an insertion sort; the lemmas prove that its
 * result is sorted, a permutation of the input and stable, and that these
 * three properties determine the result, so any stable sort returns the same.
 */
module StableSort {
  import opened Seqs

  ghost predicate Reflexive<T(!new)>(le: (T, T) -> bool) {
    forall a :: le(a, a)
  }

  ghost predicate Total<T(!new)>(le: (T, T) -> bool) {
    forall a, b :: le(a, b) || le(b, a)
  }

  ghost predicate Transitive<T(!new)>(le: (T, T) -> bool) {
    forall a, b, c :: le(a, b) && le(b, c) ==> le(a, c)
  }

  ghost predicate TotalPreorder<T(!new)>(le: (T, T) -> bool) {
    Reflexive(le) && Total(le) && Transitive(le)
  }

  predicate Sorted<T>(le: (T, T) -> bool, s: seq<T>) {
    forall i, j :: 0 <= i < j < |s| ==> le(s[i], s[j])
  }

  /** The elements of `s` that tie with `p`, in the order `s` lists them. */
  function TiesWith<T(==)>(le: (T, T) -> bool, s: seq<T>, p: T): seq<T> {
    Filter(s, x => le(x, p) && le(p, x))
  }

  /** Puts `x` before the first element it may precede. */
  function Insert<T>(le: (T, T) -> bool, x: T, s: seq<T>): (r: seq<T>)
    ensures multiset(r) == multiset(s) + multiset{x}
  {
    if s == [] then [x]
    else if le(x, s[0]) then [x] + s
    else
      assert s == [s[0]] + s[1..];
      [s[0]] + Insert(le, x, s[1..])
  }

  function InsertionSort<T>(le: (T, T) -> bool, s: seq<T>): (r: seq<T>)
    ensures multiset(r) == multiset(s)
  {
    if s == [] then []
    else
      assert s == [s[0]] + s[1..];
      Insert(le, s[0], InsertionSort(le, s[1..]))
  }

  lemma {:induction false} InsertSorted<T(!new)>(le: (T, T) -> bool, x: T, s: seq<T>)
    requires Total(le) && Transitive(le)
    requires Sorted(le, s)
    ensures Sorted(le, Insert(le, x, s))
    decreases |s|
  {
    if s != [] && !le(x, s[0]) {
      InsertSorted(le, x, s[1..]);
      var rest := Insert(le, x, s[1..]);
      forall j | 0 <= j < |rest| ensures le(s[0], rest[j]) {
        assert rest[j] in multiset(rest);
        if rest[j] != x {
          assert rest[j] in multiset(s[1..]);
          var m :| 0 <= m < |s[1..]| && s[1..][m] == rest[j];
          assert s[m + 1] == rest[j];
        }
      }
    }
  }

  lemma {:induction false} InsertionSortSorted<T(!new)>(le: (T, T) -> bool, s: seq<T>)
    requires Total(le) && Transitive(le)
    ensures Sorted(le, InsertionSort(le, s))
    decreases |s|
  {
    if s != [] {
      InsertionSortSorted(le, s[1..]);
      InsertSorted(le, s[0], InsertionSort(le, s[1..]));
    }
  }

  /** Inserting `x` keeps everything tied with `p` in order, with `x` ahead of them. */
  lemma {:induction false} InsertTies<T(!new)>(le: (T, T) -> bool, x: T, s: seq<T>, p: T)
    requires Transitive(le)
    ensures TiesWith(le, Insert(le, x, s), p) == (if le(x, p) && le(p, x) then [x] else []) + TiesWith(le, s, p)
    decreases |s|
  {
    var tied := y => le(y, p) && le(p, y);
    if s == [] || le(x, s[0]) {
      assert Insert(le, x, s) == [x] + s;
      FilterCons(x, s, tied);
    } else {
      var rest := Insert(le, x, s[1..]);
      assert Insert(le, x, s) == [s[0]] + rest;
      InsertTies(le, x, s[1..], p);
      FilterCons(s[0], rest, tied);
      assert s == [s[0]] + s[1..];
      FilterCons(s[0], s[1..], tied);
    }
  }

  /** Stability: for every `p`, the elements tied with `p` keep their input order. */
  lemma {:induction false} InsertionSortStable<T(!new)>(le: (T, T) -> bool, s: seq<T>, p: T)
    requires Transitive(le)
    ensures TiesWith(le, InsertionSort(le, s), p) == TiesWith(le, s, p)
    decreases |s|
  {
    if s != [] {
      InsertionSortStable(le, s[1..], p);
      InsertTies(le, s[0], InsertionSort(le, s[1..]), p);
      assert s == [s[0]] + s[1..];
      FilterCons(s[0], s[1..], y => le(y, p) && le(p, y));
    }
  }

  /** The first elements of two sorted permutations of each other tie. */
  lemma HeadsTie<T(!new)>(le: (T, T) -> bool, a: seq<T>, b: seq<T>)
    requires Reflexive(le)
    requires Sorted(le, a) && Sorted(le, b)
    requires multiset(a) == multiset(b) && a != []
    ensures b != [] && le(a[0], b[0]) && le(b[0], a[0])
  {
    assert a[0] in multiset(b);
    assert b[0] in multiset(a);
    var i :| 0 <= i < |a| && a[i] == b[0];
    var j :| 0 <= j < |b| && b[j] == a[0];
  }

  /** Equal tie-subsequences for a leading element carry over to the tails. */
  lemma TailTies<T(!new)>(le: (T, T) -> bool, a: seq<T>, b: seq<T>, p: T)
    requires a != [] && b != [] && a[0] == b[0]
    requires TiesWith(le, a, p) == TiesWith(le, b, p)
    ensures TiesWith(le, a[1..], p) == TiesWith(le, b[1..], p)
  {
    var tp := y => le(y, p) && le(p, y);
    assert a == [a[0]] + a[1..] && b == [b[0]] + b[1..];
    FilterCons(a[0], a[1..], tp);
    FilterCons(b[0], b[1..], tp);
    var h := if tp(a[0]) then [a[0]] else [];
    var x, y := TiesWith(le, a[1..], p), TiesWith(le, b[1..], p);
    assert h + x == h + y;
    assert x == (h + x)[|h|..] && y == (h + y)[|h|..];
  }

  /** Two sorted permutations of each other with the same tie-subsequences start with the same element. */
  lemma HeadsEqual<T(!new)>(le: (T, T) -> bool, a: seq<T>, b: seq<T>)
    requires Reflexive(le)
    requires Sorted(le, a) && Sorted(le, b)
    requires multiset(a) == multiset(b) && a != []
    requires TiesWith(le, a, a[0]) == TiesWith(le, b, a[0])
    ensures b != [] && a[0] == b[0]
  {
    HeadsTie(le, a, b);
    var tied := y => le(y, a[0]) && le(a[0], y);
    assert a == [a[0]] + a[1..] && b == [b[0]] + b[1..];
    FilterCons(a[0], a[1..], tied);
    FilterCons(b[0], b[1..], tied);
    assert TiesWith(le, a, a[0])[0] == a[0];
    assert TiesWith(le, b, a[0])[0] == b[0];
  }

  /** Removing a shared first element keeps both the permutation and the tie-subsequences equal. */
  lemma TailsAgree<T(!new)>(le: (T, T) -> bool, a: seq<T>, b: seq<T>)
    requires a != [] && b != [] && a[0] == b[0]
    requires multiset(a) == multiset(b)
    requires forall p :: TiesWith(le, a, p) == TiesWith(le, b, p)
    ensures multiset(a[1..]) == multiset(b[1..])
    ensures forall p :: TiesWith(le, a[1..], p) == TiesWith(le, b[1..], p)
  {
    forall p ensures TiesWith(le, a[1..], p) == TiesWith(le, b[1..], p) {
      TailTies(le, a, b, p);
    }
    assert a == [a[0]] + a[1..] && b == [b[0]] + b[1..];
    assert multiset(a[1..]) == multiset(a) - multiset{a[0]};
    assert multiset(b[1..]) == multiset(b) - multiset{b[0]};
  }

  /** Sorted, a permutation and stable: at most one sequence is all three, so every stable sort agrees. */
  lemma {:induction false} StableSortUnique<T(!new)>(le: (T, T) -> bool, a: seq<T>, b: seq<T>)
    requires Reflexive(le)
    requires Sorted(le, a) && Sorted(le, b)
    requires multiset(a) == multiset(b)
    requires forall p :: TiesWith(le, a, p) == TiesWith(le, b, p)
    ensures a == b
    decreases |a|
  {
    if a != [] {
      HeadsEqual(le, a, b);
      TailsAgree(le, a, b);
      StableSortUnique(le, a[1..], b[1..]);
      assert a == [a[0]] + a[1..] && b == [b[0]] + b[1..];
    }
  }
}
