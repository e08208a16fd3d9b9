/** The stable `Array.prototype.sort` the pages and the adapter rely on, for
    the keys they sort by: a text (compared by UTF-16 code units, which
    stands in for `localeCompare`) or a number. A descending sort uses the
    negated comparator, so equal keys keep their order in both directions. */
module Sorting {

  datatype SortKey = Text(s: string) | Num(n: real)

  /** An element paired with the key the comparator reads from it. */
  datatype Keyed<T> = Keyed(key: SortKey, value: T)

  /** Strict lexicographic order on code units. */
  predicate TextBelow(a: string, b: string) {
    if a == [] then b != []
    else if b == [] then false
    else a[0] < b[0] || (a[0] == b[0] && TextBelow(a[1..], b[1..]))
  }

  /** A strict total order on keys (texts before numbers, which a single sort
      never mixes). */
  predicate KeyBelow(a: SortKey, b: SortKey) {
    match (a, b)
    case (Text(x), Text(y)) => TextBelow(x, y)
    case (Num(x), Num(y)) => x < y
    case (Text(_), Num(_)) => true
    case (Num(_), Text(_)) => false
  }

  /** `a` belongs strictly before `b` in the chosen direction. */
  predicate Precedes(a: SortKey, b: SortKey, desc: bool) {
    if desc then KeyBelow(b, a) else KeyBelow(a, b)
  }

  lemma {:induction false} TextBelowIrreflexive(a: string)
    ensures !TextBelow(a, a)
  {
    if a != [] { TextBelowIrreflexive(a[1..]); }
  }

  lemma {:induction false} TextBelowTransitive(a: string, b: string, c: string)
    requires TextBelow(a, b) && TextBelow(b, c)
    ensures TextBelow(a, c)
  {
    if a != [] && b != [] && c != [] && a[0] == b[0] == c[0] {
      TextBelowTransitive(a[1..], b[1..], c[1..]);
    }
  }

  lemma {:induction false} TextBelowTotal(a: string, b: string)
    ensures a == b || TextBelow(a, b) || TextBelow(b, a)
  {
    if a != [] && b != [] && a[0] == b[0] {
      TextBelowTotal(a[1..], b[1..]);
      if a[1..] == b[1..] {
        assert a == [a[0]] + a[1..] && b == [b[0]] + b[1..];
      }
    }
  }

  /** `Precedes` is a strict total order in either direction. */
  lemma PrecedesOrder(a: SortKey, b: SortKey, c: SortKey, desc: bool)
    ensures !Precedes(a, a, desc)
    ensures Precedes(a, b, desc) && Precedes(b, c, desc) ==> Precedes(a, c, desc)
    ensures a == b || Precedes(a, b, desc) || Precedes(b, a, desc)
  {
    if a.Text? { TextBelowIrreflexive(a.s); }
    if a.Text? && b.Text? && c.Text? {
      if Precedes(a, b, desc) && Precedes(b, c, desc) {
        if desc { TextBelowTransitive(c.s, b.s, a.s); } else { TextBelowTransitive(a.s, b.s, c.s); }
      }
    }
    if a.Text? && b.Text? { TextBelowTotal(a.s, b.s); }
  }

  /** No element strictly precedes an element before it. */
  ghost predicate Sorted<T>(s: seq<Keyed<T>>, desc: bool) {
    forall i, j :: 0 <= i < j < |s| ==> !Precedes(s[j].key, s[i].key, desc)
  }

  /** Places `x` after every element it does not strictly precede. */
  function Insert<T>(s: seq<Keyed<T>>, x: Keyed<T>, desc: bool): (r: seq<Keyed<T>>)
    ensures |r| == |s| + 1
  {
    if s == [] then [x]
    else if Precedes(x.key, s[0].key, desc) then [x] + s
    else [s[0]] + Insert(s[1..], x, desc)
  }

  /** Insertion sort, inserting the elements from left to right. */
  function StableSort<T>(s: seq<Keyed<T>>, desc: bool): (r: seq<Keyed<T>>)
    ensures |r| == |s|
  {
    if s == [] then [] else Insert(StableSort(s[..|s| - 1], desc), s[|s| - 1], desc)
  }

  /** The elements of `s` with key `k`, in order. */
  function WithKey<T>(s: seq<Keyed<T>>, k: SortKey): seq<Keyed<T>> {
    if s == [] then [] else (if s[0].key == k then [s[0]] else []) + WithKey(s[1..], k)
  }

  lemma {:induction false} WithKeyAppend<T>(a: seq<Keyed<T>>, b: seq<Keyed<T>>, k: SortKey)
    ensures WithKey(a + b, k) == WithKey(a, k) + WithKey(b, k)
  {
    if a != [] {
      WithKeyAppend(a[1..], b, k);
      assert (a + b)[1..] == a[1..] + b;
    } else {
      assert a + b == b;
    }
  }

  lemma {:induction false} InsertMembers<T>(s: seq<Keyed<T>>, x: Keyed<T>, desc: bool)
    ensures forall e :: e in Insert(s, x, desc) <==> e in s || e == x
    ensures multiset(Insert(s, x, desc)) == multiset(s) + multiset{x}
  {
    if s != [] && !Precedes(x.key, s[0].key, desc) {
      InsertMembers(s[1..], x, desc);
      assert s == [s[0]] + s[1..];
    }
  }

  /** A sorted list stays sorted under a new head no later element precedes. */
  lemma SortedCons<T>(h: Keyed<T>, u: seq<Keyed<T>>, desc: bool)
    requires Sorted(u, desc)
    requires forall e :: e in u ==> !Precedes(e.key, h.key, desc)
    ensures Sorted([h] + u, desc)
  {
    var r := [h] + u;
    forall i, j | 0 <= i < j < |r| ensures !Precedes(r[j].key, r[i].key, desc) {
      assert r[j] == u[j - 1];
      if i > 0 { assert r[i] == u[i - 1]; }
    }
  }

  lemma {:induction false} InsertSorted<T>(s: seq<Keyed<T>>, x: Keyed<T>, desc: bool)
    requires Sorted(s, desc)
    ensures Sorted(Insert(s, x, desc), desc)
  {
    if s == [] {
    } else if Precedes(x.key, s[0].key, desc) {
      forall e | e in s ensures !Precedes(e.key, x.key, desc) {
        var m :| 0 <= m < |s| && s[m] == e;
        PrecedesOrder(e.key, x.key, s[0].key, desc);
        if m > 0 { assert !Precedes(s[m].key, s[0].key, desc); }
      }
      SortedCons(x, s, desc);
    } else {
      var t := s[1..];
      InsertSorted(t, x, desc);
      InsertMembers(t, x, desc);
      forall e | e in Insert(t, x, desc) ensures !Precedes(e.key, s[0].key, desc) {
        assert e in multiset(Insert(t, x, desc));
        if e != x {
          assert e in multiset(t);
          var m :| 0 <= m < |t| && t[m] == e;
          assert s[m + 1] == e;
        }
      }
      SortedCons(s[0], Insert(t, x, desc), desc);
    }
  }

  lemma {:induction false} InsertWithKey<T>(s: seq<Keyed<T>>, x: Keyed<T>, desc: bool, k: SortKey)
    requires Sorted(s, desc)
    ensures WithKey(Insert(s, x, desc), k) == WithKey(s, k) + (if x.key == k then [x] else [])
  {
    if s == [] {
      WithKeyCons(x, [], k);
    } else if Precedes(x.key, s[0].key, desc) {
      WithKeyCons(x, s, k);
      if x.key == k { NoneWithKey(s, x, desc); }
    } else {
      var t := s[1..];
      SortedTail(s, desc);
      InsertWithKey(t, x, desc, k);
      assert s == [s[0]] + t;
      ConsKeepsWithKey(s[0], t, Insert(t, x, desc), if x.key == k then [x] else [], k);
    }
  }

  /** Putting the same head on two lists whose groups of key `k` differ by a
      suffix keeps that difference. */
  lemma ConsKeepsWithKey<T>(h: Keyed<T>, t: seq<Keyed<T>>, u: seq<Keyed<T>>, extra: seq<Keyed<T>>, k: SortKey)
    requires WithKey(u, k) == WithKey(t, k) + extra
    ensures WithKey([h] + u, k) == WithKey([h] + t, k) + extra
  {
    WithKeyCons(h, u, k);
    WithKeyCons(h, t, k);
  }

  lemma WithKeyCons<T>(h: Keyed<T>, u: seq<Keyed<T>>, k: SortKey)
    ensures WithKey([h] + u, k) == (if h.key == k then [h] else []) + WithKey(u, k)
  {
    assert ([h] + u)[1..] == u;
  }

  lemma SortedTail<T>(s: seq<Keyed<T>>, desc: bool)
    requires Sorted(s, desc) && s != []
    ensures Sorted(s[1..], desc)
  {
    var t := s[1..];
    forall i, j | 0 <= i < j < |t| ensures !Precedes(t[j].key, t[i].key, desc) {
      assert t[i] == s[i + 1] && t[j] == s[j + 1];
    }
  }

  /** When `x` strictly precedes the head of a sorted list, no element of the
      list shares `x`'s key. */
  lemma NoneWithKey<T>(s: seq<Keyed<T>>, x: Keyed<T>, desc: bool)
    requires Sorted(s, desc) && s != [] && Precedes(x.key, s[0].key, desc)
    ensures WithKey(s, x.key) == []
  {
    var k := x.key;
    forall i | 0 <= i < |s| ensures s[i].key != k {
      PrecedesOrder(k, s[0].key, s[i].key, desc);
      if i > 0 { assert !Precedes(s[i].key, s[0].key, desc); }
    }
    NoKeyNoneWithKey(s, k);
  }

  lemma {:induction false} NoKeyNoneWithKey<T>(s: seq<Keyed<T>>, k: SortKey)
    requires forall i :: 0 <= i < |s| ==> s[i].key != k
    ensures WithKey(s, k) == []
  {
    if s != [] { NoKeyNoneWithKey(s[1..], k); }
  }

  /** The sort returns its input in order: sorted, a permutation, and every
      group of equal keys in its original order. */
  lemma {:induction false} StableSortSpec<T>(s: seq<Keyed<T>>, desc: bool)
    ensures Sorted(StableSort(s, desc), desc)
    ensures multiset(StableSort(s, desc)) == multiset(s)
    ensures forall k :: WithKey(StableSort(s, desc), k) == WithKey(s, k)
  {
    if s != [] {
      var front, x := s[..|s| - 1], s[|s| - 1];
      StableSortSpec(front, desc);
      InsertSorted(StableSort(front, desc), x, desc);
      InsertMembers(StableSort(front, desc), x, desc);
      assert s == front + [x];
      InsertKeepsGroups(front, StableSort(front, desc), x, desc);
    }
  }

  /** Inserting the next element into a sorted list that keeps the groups of
      `front` keeps the groups of `front + [x]`. */
  lemma InsertKeepsGroups<T>(front: seq<Keyed<T>>, sorted: seq<Keyed<T>>, x: Keyed<T>, desc: bool)
    requires Sorted(sorted, desc)
    requires forall k :: WithKey(sorted, k) == WithKey(front, k)
    ensures forall k :: WithKey(Insert(sorted, x, desc), k) == WithKey(front + [x], k)
  {
    forall k ensures WithKey(Insert(sorted, x, desc), k) == WithKey(front + [x], k) {
      InsertWithKey(sorted, x, desc, k);
      WithKeyAppend(front, [x], k);
    }
  }

  /** Where `Insert` puts `x` in a sorted list: after the first `j` elements,
      when it does not precede the `j`-th and precedes all later ones. */
  lemma {:induction false} InsertAt<T>(s: seq<Keyed<T>>, x: Keyed<T>, j: nat, desc: bool)
    requires Sorted(s, desc) && j <= |s|
    requires j > 0 ==> !Precedes(x.key, s[j - 1].key, desc)
    requires forall m :: j <= m < |s| ==> Precedes(x.key, s[m].key, desc)
    ensures Insert(s, x, desc) == s[..j] + [x] + s[j..]
  {
    if j == 0 {
      assert s[..0] == [] && s[0..] == s;
    } else {
      if j > 1 {
        PrecedesOrder(x.key, s[j - 1].key, s[0].key, desc);
        PrecedesOrder(s[j - 1].key, x.key, s[0].key, desc);
        assert !Precedes(s[j - 1].key, s[0].key, desc);
      }
      assert !Precedes(x.key, s[0].key, desc);
      var t := s[1..];
      SortedTail(s, desc);
      InsertAt(t, x, j - 1, desc);
      assert Insert(s, x, desc) == [s[0]] + Insert(t, x, desc);
      assert t[..j - 1] == s[1..j] && t[j - 1..] == s[j..];
      assert s[..j] == [s[0]] + s[1..j];
    }
  }

  /** The elements without their keys. */
  function Values<T>(s: seq<Keyed<T>>): (r: seq<T>)
    ensures |r| == |s| && forall i :: 0 <= i < |s| ==> r[i] == s[i].value
  {
    if s == [] then [] else [s[0].value] + Values(s[1..])
  }

  lemma {:induction false} ValuesInsert<T>(s: seq<Keyed<T>>, x: Keyed<T>, desc: bool)
    ensures multiset(Values(Insert(s, x, desc))) == multiset(Values(s)) + multiset{x.value}
  {
    if s != [] && !Precedes(x.key, s[0].key, desc) {
      ValuesInsert(s[1..], x, desc);
      assert Values(s) == [s[0].value] + Values(s[1..]);
    }
  }

  lemma ValuesSnoc<T>(s: seq<Keyed<T>>, x: Keyed<T>)
    ensures multiset(Values(s + [x])) == multiset(Values(s)) + multiset{x.value}
  {
    assert Values(s + [x]) == Values(s) + [x.value];
  }

  /** Sorting keeps the same values, each as often as before. */
  lemma {:induction false} ValuesSortPermutes<T>(s: seq<Keyed<T>>, desc: bool)
    ensures multiset(Values(StableSort(s, desc))) == multiset(Values(s))
  {
    if s != [] {
      var front, x := s[..|s| - 1], s[|s| - 1];
      var t := StableSort(front, desc);
      assert StableSort(s, desc) == Insert(t, x, desc);
      assert front + [x] == s;
      ValuesSortPermutes(front, desc);
      ValuesInsert(t, x, desc);
      ValuesSnoc(front, x);
    }
  }

  /** Sorting elements keyed by a function of their values yields those
      values, each as often as before, ordered by that function. */
  lemma SortedValues<T>(keyed: seq<Keyed<T>>, desc: bool, keyOf: T -> SortKey)
    requires forall i :: 0 <= i < |keyed| ==> keyed[i].key == keyOf(keyed[i].value)
    ensures var r := Values(StableSort(keyed, desc));
            && multiset(r) == multiset(Values(keyed))
            && forall i, j :: 0 <= i < j < |r| ==> !Precedes(keyOf(r[j]), keyOf(r[i]), desc)
  {
    var sorted := StableSort(keyed, desc);
    StableSortSpec(keyed, desc);
    ValuesSortPermutes(keyed, desc);
    forall i | 0 <= i < |sorted|
      ensures sorted[i].key == keyOf(sorted[i].value)
    {
      assert sorted[i] in multiset(keyed);
    }
  }

  /** Moves `a[i]` left past the elements it strictly precedes, so that the
      sorted prefix `a[..i]` grows by one. */
  method InsertLast<T>(a: array<Keyed<T>>, i: nat, desc: bool)
    requires i < a.Length && Sorted(a[..i], desc)
    modifies a
    ensures a[..i + 1] == Insert(old(a[..i]), old(a[i]), desc)
    ensures a[i + 1..] == old(a[i + 1..])
  {
    var x := a[i];
    ghost var done := a[..i];
    var j := i;
    while j > 0 && Precedes(x.key, a[j - 1].key, desc)
      invariant 0 <= j <= i
      invariant forall m :: 0 <= m < j ==> a[m] == done[m]
      invariant forall m :: j < m <= i ==> a[m] == done[m - 1]
      invariant forall m :: i < m < a.Length ==> a[m] == old(a[m])
      invariant forall m :: j <= m < i ==> Precedes(x.key, done[m].key, desc)
    {
      a[j] := a[j - 1];
      j := j - 1;
    }
    a[j] := x;
    InsertAt(done, x, j, desc);
    ShiftedIn(a[..i + 1], done, x, j);
  }

  /** A list that agrees with `done` before `j`, holds `x` at `j` and
      `done` shifted by one after it is `done` with `x` inserted at `j`. */
  lemma ShiftedIn<T>(cur: seq<Keyed<T>>, done: seq<Keyed<T>>, x: Keyed<T>, j: nat)
    requires |cur| == |done| + 1 && j <= |done|
    requires forall m :: 0 <= m < j ==> cur[m] == done[m]
    requires cur[j] == x
    requires forall m :: j < m < |cur| ==> cur[m] == done[m - 1]
    ensures cur == done[..j] + [x] + done[j..]
  {
    var inserted := done[..j] + [x] + done[j..];
    forall m | 0 <= m < |cur|
      ensures cur[m] == inserted[m]
    {
      if m > j {
        assert inserted[m] == done[j..][m - j - 1];
      }
    }
  }

  /** Sorts `a` in place by insertion, as `Array.prototype.sort` does for a
      consistent comparator. */
  method SortInPlace<T>(a: array<Keyed<T>>, desc: bool)
    modifies a
    ensures a[..] == StableSort(old(a[..]), desc)
  {
    ghost var orig := a[..];
    var i := 0;
    while i < a.Length
      invariant 0 <= i <= a.Length
      invariant a[..i] == StableSort(orig[..i], desc)
      invariant a[i..] == orig[i..]
    {
      StableSortSpec(orig[..i], desc);
      assert a[i + 1..] == a[i..][1..] == orig[i + 1..];
      InsertLast(a, i, desc);
      assert orig[..i + 1][..i] == orig[..i];
      assert orig[i] == orig[i..][0];
      i := i + 1;
    }
    assert a[..] == a[..a.Length] && orig == orig[..a.Length];
  }
}
