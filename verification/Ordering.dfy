/** Stable sorting, and why the sorted form is unique; the lexicographic order on strings. */
module Ordering {

  ghost predicate TotalPreorder<T(!new)>(le: (T, T) -> bool) {
    && (forall a, b :: le(a, b) || le(b, a))
    && (forall a, b, c :: le(a, b) && le(b, c) ==> le(a, c))
  }

  /** Within `elements`, only equal values tie. */
  ghost predicate NoTies<T(!new)>(le: (T, T) -> bool, elements: multiset<T>) {
    forall a, b :: a in elements && b in elements && le(a, b) && le(b, a) ==> a == b
  }

  ghost predicate SortedBy<T(!new)>(le: (T, T) -> bool, s: seq<T>) {
    forall i, j :: 0 <= i < j < |s| ==> le(s[i], s[j])
  }

  function Insert<T>(le: (T, T) -> bool, x: T, s: seq<T>): (r: seq<T>)
    ensures multiset(r) == multiset([x]) + multiset(s)
  {
    if s == [] || le(x, s[0]) then
      [x] + s
    else
      assert s == [s[0]] + s[1..];
      [s[0]] + Insert(le, x, s[1..])
  }

  /** Insertion from the right: equal elements keep their relative order. */
  function Sort<T>(le: (T, T) -> bool, s: seq<T>): (r: seq<T>)
    ensures multiset(r) == multiset(s)
    ensures |r| == |s|
  {
    if s == [] then [] else
      assert s == [s[0]] + s[1..];
      var r := Insert(le, s[0], Sort(le, s[1..]));
      assert |multiset(r)| == |multiset(s)|;
      r
  }

  lemma {:induction false} InsertKeepsSorted<T(!new)>(le: (T, T) -> bool, x: T, s: seq<T>)
    requires TotalPreorder(le) && SortedBy(le, s)
    ensures SortedBy(le, Insert(le, x, s))
  {
    if s != [] && !le(x, s[0]) {
      InsertKeepsSorted(le, x, s[1..]);
      var tail := Insert(le, x, s[1..]);
      forall j | 0 <= j < |tail| ensures le(s[0], tail[j]) {
        assert tail[j] in multiset(tail);
        assert tail[j] == x || tail[j] in s[1..];
      }
    } else if s != [] {
      assert forall j :: 0 < j < |s| ==> le(s[0], s[j]);
    }
  }

  lemma {:induction false} SortSorts<T(!new)>(le: (T, T) -> bool, s: seq<T>)
    requires TotalPreorder(le)
    ensures SortedBy(le, Sort(le, s))
  {
    if s != [] {
      SortSorts(le, s[1..]);
      InsertKeepsSorted(le, s[0], Sort(le, s[1..]));
    }
  }

  lemma SameLength<T>(a: seq<T>, b: seq<T>)
    requires multiset(a) == multiset(b)
    ensures |a| == |b|
  {
    assert |multiset(a)| == |multiset(b)|;
  }

  lemma LeastIsFirst<T(!new)>(le: (T, T) -> bool, s: seq<T>, x: T)
    requires TotalPreorder(le) && SortedBy(le, s) && x in multiset(s)
    ensures le(s[0], x)
  {
    var i :| 0 <= i < |s| && s[i] == x;
    assert le(x, x) || le(x, x);
  }

  lemma DropFirst<T>(s: seq<T>)
    requires s != []
    ensures multiset(s[1..]) == multiset(s) - multiset{s[0]}
  {
    assert s == [s[0]] + s[1..];
  }

  lemma FirstsAgree<T(!new)>(le: (T, T) -> bool, a: seq<T>, b: seq<T>)
    requires TotalPreorder(le) && NoTies(le, multiset(a))
    requires SortedBy(le, a) && SortedBy(le, b)
    requires multiset(a) == multiset(b) && a != []
    ensures b != [] && a[0] == b[0]
    ensures multiset(a[1..]) == multiset(b[1..]) && NoTies(le, multiset(a[1..]))
  {
    assert a[0] in multiset(b);
    assert b[0] in multiset(a) && a[0] in multiset(a);
    LeastIsFirst(le, a, b[0]);
    LeastIsFirst(le, b, a[0]);
    DropFirst(a);
    DropFirst(b);
  }

  /** Two sorted arrangements of the same elements are the same arrangement. */
  lemma {:induction false} SortedFormIsUnique<T(!new)>(le: (T, T) -> bool, a: seq<T>, b: seq<T>)
    requires TotalPreorder(le) && NoTies(le, multiset(a))
    requires SortedBy(le, a) && SortedBy(le, b)
    requires multiset(a) == multiset(b)
    ensures a == b
    decreases |a|
  {
    hide TotalPreorder, NoTies;
    if a == [] {
      SameLength(a, b);
    } else {
      FirstsAgree(le, a, b);
      TailIsSorted(le, a);
      TailIsSorted(le, b);
      hide SortedBy;
      SortedFormIsUnique(le, a[1..], b[1..]);
      assert a == [a[0]] + a[1..] && b == [b[0]] + b[1..];
    }
  }

  lemma TailIsSorted<T(!new)>(le: (T, T) -> bool, s: seq<T>)
    requires s != [] && SortedBy(le, s)
    ensures SortedBy(le, s[1..])
  {
  }

  lemma SortIgnoresOrder<T(!new)>(le: (T, T) -> bool, a: seq<T>, b: seq<T>)
    requires TotalPreorder(le) && NoTies(le, multiset(a)) && multiset(a) == multiset(b)
    ensures Sort(le, a) == Sort(le, b)
  {
    SortSorts(le, a);
    SortSorts(le, b);
    SortedFormIsUnique(le, Sort(le, a), Sort(le, b));
  }

  lemma SortedIsFixedBySort<T(!new)>(le: (T, T) -> bool, s: seq<T>)
    requires TotalPreorder(le) && NoTies(le, multiset(s)) && SortedBy(le, s)
    ensures Sort(le, s) == s
  {
    SortSorts(le, s);
    SortedFormIsUnique(le, Sort(le, s), s);
  }

  /** `r` lists the elements of `s`, each once, by `order`. */
  ghost predicate ListedBy<T>(s: seq<T>, r: seq<T>, order: seq<nat>) {
    && |order| == |r| == |s| && NoRepeats(order)
    && (forall k :: 0 <= k < |r| ==> order[k] < |s| && r[k] == s[order[k]])
  }

  /** Ties stay in their original order. */
  ghost predicate TiesKept<T(!new)>(le: (T, T) -> bool, r: seq<T>, order: seq<nat>)
    requires |order| == |r|
  {
    forall i, j :: 0 <= i < j < |r| && le(r[j], r[i]) ==> order[i] < order[j]
  }

  lemma {:induction false} InsertPosition<T(!new)>(le: (T, T) -> bool, x: T, s: seq<T>) returns (k: nat)
    ensures k <= |s| && Insert(le, x, s) == s[..k] + [x] + s[k..]
    ensures forall i :: 0 <= i < k ==> !le(x, s[i])
  {
    if s == [] || le(x, s[0]) {
      k := 0;
    } else {
      k := InsertPosition(le, x, s[1..]);
      k := k + 1;
    }
  }

  /** The positions after one more element at the front, placed at `k`. */
  ghost function Raised(tail: seq<nat>, k: nat): (order: seq<nat>)
    requires k <= |tail|
    ensures |order| == |tail| + 1
    ensures forall i :: 0 <= i < |order| ==> order[i] == if i < k then tail[i] + 1 else if i == k then 0 else tail[i - 1] + 1
  {
    seq(|tail| + 1, i requires 0 <= i < |tail| + 1 => if i < k then tail[i] + 1 else if i == k then 0 else tail[i - 1] + 1)
  }

  ghost function Placed<T>(r: seq<T>, x: T, k: nat): (r': seq<T>)
    requires k <= |r|
    ensures |r'| == |r| + 1 && forall i :: 0 <= i < |r'| ==> r'[i] == if i < k then r[i] else if i == k then x else r[i - 1]
  {
    r[..k] + [x] + r[k..]
  }

  lemma PlacedIsListed<T>(x: T, s: seq<T>, r: seq<T>, tail: seq<nat>, k: nat)
    requires ListedBy(s, r, tail) && k <= |r|
    ensures ListedBy([x] + s, Placed(r, x, k), Raised(tail, k))
  {
    var order := Raised(tail, k);
    forall i, j | 0 <= i < j < |order| ensures order[i] != order[j] {
      assert i < k && j < k ==> tail[i] != tail[j];
      assert i < k && j > k ==> tail[i] != tail[j - 1] || i == j - 1;
      assert i > k && j > k ==> tail[i - 1] != tail[j - 1];
    }
  }

  lemma PlacedKeepsTies<T(!new)>(le: (T, T) -> bool, x: T, r: seq<T>, tail: seq<nat>, k: nat)
    requires |tail| == |r| && TiesKept(le, r, tail) && k <= |r|
    requires forall i :: 0 <= i < k ==> !le(x, r[i])
    ensures TiesKept(le, Placed(r, x, k), Raised(tail, k))
  {
    var r', order := Placed(r, x, k), Raised(tail, k);
    forall i, j | 0 <= i < j < |r'| && le(r'[j], r'[i]) ensures order[i] < order[j] {
      if i != k && j != k {
        var i', j' := if i < k then i else i - 1, if j < k then j else j - 1;
        assert i' < j' && le(r[j'], r[i']);
      }
    }
  }

  ghost predicate Covers(order: seq<nat>, n: nat) { forall i :: 0 <= i < n ==> i in order }

  lemma RaisedCovers(tail: seq<nat>, k: nat, n: nat)
    requires k <= |tail| && Covers(tail, n)
    ensures Covers(Raised(tail, k), n + 1)
  {
    var order := Raised(tail, k);
    assert order[k] == 0;
    forall i | 0 < i < n + 1 ensures i in order {
      assert i - 1 in tail;
      var j :| 0 <= j < |tail| && tail[j] == i - 1;
      assert order[if j < k then j else j + 1] == i;
    }
  }

  /** Sorting lists every element once, ties in their original order. */
  lemma {:induction false} SortIsStable<T(!new)>(le: (T, T) -> bool, s: seq<T>) returns (order: seq<nat>)
    ensures ListedBy(s, Sort(le, s), order) && Covers(order, |s|) && TiesKept(le, Sort(le, s), order)
  {
    if s == [] {
      order := [];
    } else {
      var tail := SortIsStable(le, s[1..]);
      hide ListedBy, TiesKept, Covers, Insert;
      var r := Sort(le, s[1..]);
      var k := InsertPosition(le, s[0], r);
      order := Raised(tail, k);
      PlacedIsListed(s[0], s[1..], r, tail, k);
      PlacedKeepsTies(le, s[0], r, tail, k);
      RaisedCovers(tail, k, |s| - 1);
      assert [s[0]] + s[1..] == s;
    }
  }

  lemma SortKeepsMembers<T>(le: (T, T) -> bool, s: seq<T>)
    ensures forall x :: x in Sort(le, s) <==> x in s
  {
    assert forall x :: x in Sort(le, s) <==> x in multiset(Sort(le, s));
  }

  ghost predicate NoRepeats<T>(s: seq<T>) {
    forall i, j :: 0 <= i < j < |s| ==> s[i] != s[j]
  }

  lemma {:induction false} NoRepeatsCountOne<T>(s: seq<T>, x: T)
    requires NoRepeats(s)
    ensures multiset(s)[x] == if x in s then 1 else 0
  {
    if s != [] {
      NoRepeatsCountOne(s[1..], x);
      assert s == [s[0]] + s[1..];
      assert s[0] !in s[1..];
    }
  }

  /** Sequences without repeats are permutations of each other when they have the same members. */
  lemma SameMembersSameMultiset<T>(a: seq<T>, b: seq<T>)
    requires NoRepeats(a) && NoRepeats(b)
    requires forall x :: x in a <==> x in b
    ensures multiset(a) == multiset(b)
  {
    forall x ensures multiset(a)[x] == multiset(b)[x] {
      NoRepeatsCountOne(a, x);
      NoRepeatsCountOne(b, x);
    }
  }

  lemma {:induction false} CountTwo<T>(s: seq<T>, x: T) returns (i: nat, j: nat)
    requires multiset(s)[x] >= 2
    ensures i < j < |s| && s[i] == x && s[j] == x
  {
    assert s == [s[0]] + s[1..];
    if s[0] == x {
      assert x in multiset(s[1..]);
      i := 0;
      j :| 1 <= j < |s| && s[j] == x;
    } else {
      i, j := CountTwo(s[1..], x);
      i, j := i + 1, j + 1;
    }
  }

  function Mapped<A, B>(f: A -> B, s: seq<A>): (r: seq<B>)
    ensures |r| == |s| && forall i :: 0 <= i < |r| ==> r[i] == f(s[i])
  {
    if s == [] then [] else [f(s[0])] + Mapped(f, s[1..])
  }

  lemma MappedConcat<A, B>(f: A -> B, a: seq<A>, b: seq<A>)
    ensures Mapped(f, a + b) == Mapped(f, a) + Mapped(f, b)
  {
  }

  lemma MoveToFront<T>(s: seq<T>, x: T) returns (j: nat)
    requires x in multiset(s)
    ensures j < |s| && s[j] == x
    ensures s == s[..j] + [x] + s[j + 1..]
    ensures multiset(s) == multiset{x} + multiset(s[..j] + s[j + 1..])
  {
    j :| 0 <= j < |s| && s[j] == x;
    assert s == s[..j] + [x] + s[j + 1..];
  }

  /** Rearranging before or after a map is the same. */
  lemma {:induction false} MappedSameMultiset<A, B>(f: A -> B, a: seq<A>, b: seq<A>)
    requires multiset(a) == multiset(b)
    ensures multiset(Mapped(f, a)) == multiset(Mapped(f, b))
    decreases |a|
  {
    SameLength(a, b);
    if a != [] {
      assert a == [a[0]] + a[1..];
      assert a[0] in multiset(a);
      var j := MoveToFront(b, a[0]);
      DropFirst(a);
      assert multiset(b[..j] + b[j + 1..]) == multiset(b) - multiset{a[0]};
      MappedSameMultiset(f, a[1..], b[..j] + b[j + 1..]);
      MappedConcat(f, b[..j], b[j + 1..]);
      MappedConcat(f, b[..j] + [a[0]], b[j + 1..]);
      MappedConcat(f, b[..j], [a[0]]);
      MappedConcat(f, [a[0]], a[1..]);
    }
  }

  // ---- strings -------------------------------------------------------------------------------

  /** Code-point order, as Python's `<=` on `str` and Rust's `Ord` on `String` define it. */
  predicate TextLe(a: string, b: string) {
    a == [] || (b != [] && (a[0] < b[0] || (a[0] == b[0] && TextLe(a[1..], b[1..]))))
  }

  ghost predicate FirstDifference(a: string, b: string, k: nat) {
    k < |a| && k < |b| && a[..k] == b[..k] && a[k] < b[k]
  }

  lemma NoDifference(a: string, b: string, k: nat)
    requires a == [] || b == [] || a[0] > b[0]
    ensures !FirstDifference(a, b, k)
  {
    if 0 < k <= |a| && k <= |b| { assert a[..k][0] == a[0] && b[..k][0] == b[0]; }
  }

  /** One text comes no later than another exactly when it is a prefix of it or has the smaller character where the
      two first differ. */
  lemma {:induction false} TextLeIs(a: string, b: string)
    ensures TextLe(a, b) <==> a <= b || exists k :: FirstDifference(a, b, k)
  {
    if a != [] && b != [] && a[0] == b[0] {
      TextLeIs(a[1..], b[1..]);
      assert a <= b <==> a[1..] <= b[1..];
      forall k: nat ensures FirstDifference(a[1..], b[1..], k) <==> FirstDifference(a, b, k + 1) {
        if k < |a[1..]| && k < |b[1..]| {
          assert a[..k + 1] == [a[0]] + a[1..][..k] && b[..k + 1] == [b[0]] + b[1..][..k];
          assert a[..k + 1][1..] == a[1..][..k] && b[..k + 1][1..] == b[1..][..k];
        }
      }
      if k: nat :| FirstDifference(a, b, k) { assert FirstDifference(a[1..], b[1..], k - 1); }
    } else if a != [] && b != [] && a[0] < b[0] {
      assert FirstDifference(a, b, 0);
    } else {
      forall k: nat ensures !FirstDifference(a, b, k) { NoDifference(a, b, k); }
    }
  }

  lemma {:induction false} TextLeTotal(a: string, b: string)
    ensures TextLe(a, b) || TextLe(b, a)
  {
    if a != [] && b != [] && a[0] == b[0] { TextLeTotal(a[1..], b[1..]); }
  }

  lemma {:induction false} TextLeTransitive(a: string, b: string, c: string)
    requires TextLe(a, b) && TextLe(b, c)
    ensures TextLe(a, c)
  {
    if a != [] && a[0] == b[0] && b[0] == c[0] { TextLeTransitive(a[1..], b[1..], c[1..]); }
  }

  lemma {:induction false} TextLeAntisymmetric(a: string, b: string)
    requires TextLe(a, b) && TextLe(b, a)
    ensures a == b
  {
    if a != [] {
      TextLeAntisymmetric(a[1..], b[1..]);
      assert a == [a[0]] + a[1..] && b == [b[0]] + b[1..];
    }
  }
}
