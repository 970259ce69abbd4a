/**
 * The sort-then-compact pass that the Go core runs over lists of strings (`slices.Sort`
 * followed by `slices.Compact`). The order is the lexicographic one of the code points.
 */
module SortedText {

  predicate Leq(a: string, b: string) {
    if a == [] then true
    else if b == [] then false
    else if a[0] != b[0] then a[0] < b[0]
    else Leq(a[1..], b[1..])
  }

  lemma {:induction false} LeqTotal(a: string, b: string)
    ensures Leq(a, b) || Leq(b, a)
  {
    if a != [] && b != [] && a[0] == b[0] {
      LeqTotal(a[1..], b[1..]);
    }
  }

  lemma {:induction false} LeqAntisymmetric(a: string, b: string)
    requires Leq(a, b) && Leq(b, a)
    ensures a == b
  {
    if a != [] && b != [] {
      LeqAntisymmetric(a[1..], b[1..]);
      assert a == [a[0]] + a[1..] && b == [b[0]] + b[1..];
    }
  }

  lemma {:induction false} LeqTransitive(a: string, b: string, c: string)
    requires Leq(a, b) && Leq(b, c)
    ensures Leq(a, c)
  {
    if a != [] && b != [] && c != [] && a[0] == b[0] == c[0] {
      LeqTransitive(a[1..], b[1..], c[1..]);
    }
  }

  ghost function Elements(s: seq<string>): set<string> {
    set x | x in s
  }

  ghost predicate Sorted(s: seq<string>) {
    forall i, j | 0 <= i < j < |s| :: Leq(s[i], s[j])
  }

  ghost predicate StrictlySorted(s: seq<string>) {
    Sorted(s) && forall i, j | 0 <= i < j < |s| :: s[i] != s[j]
  }

  function Insert(x: string, s: seq<string>): seq<string> {
    if s == [] then [x]
    else if Leq(x, s[0]) then [x] + s
    else [s[0]] + Insert(x, s[1..])
  }

  lemma {:induction false} InsertAdds(x: string, s: seq<string>)
    ensures multiset(Insert(x, s)) == multiset(s) + multiset{x}
  {
    if s == [] {
    } else {
      InsertAdds(x, s[1..]);
      assert s == [s[0]] + s[1..];
    }
  }

  lemma {:induction false} InsertSorts(x: string, s: seq<string>)
    requires Sorted(s)
    ensures Sorted(Insert(x, s))
  {
    if s == [] {
    } else {
      if Leq(x, s[0]) {
        forall j | 0 < j < |s| ensures Leq(x, s[j]) {
          LeqTransitive(x, s[0], s[j]);
        }
      } else {
        var r := Insert(x, s[1..]);
        InsertSorts(x, s[1..]);
        InsertAdds(x, s[1..]);
        LeqTotal(x, s[0]);
        forall j | 0 <= j < |r| ensures Leq(s[0], r[j]) {
          assert r[j] in multiset(r);
          assert r[j] == x || r[j] in s[1..];
        }
      }
    }
  }

  function Sort(s: seq<string>): seq<string> {
    if s == [] then [] else Insert(s[0], Sort(s[1..]))
  }

  lemma {:induction false} SortSorts(s: seq<string>)
    ensures Sorted(Sort(s)) && multiset(Sort(s)) == multiset(s)
  {
    if s == [] {
    } else {
      SortSorts(s[1..]);
      InsertSorts(s[0], Sort(s[1..]));
      InsertAdds(s[0], Sort(s[1..]));
      assert s == [s[0]] + s[1..];
    }
  }

  /** Drops every element equal to its predecessor. */
  function Compact(s: seq<string>): seq<string> {
    if |s| <= 1 then s
    else if s[0] == s[1] then Compact(s[1..])
    else [s[0]] + Compact(s[1..])
  }

  lemma {:induction false} CompactElements(s: seq<string>)
    ensures Elements(Compact(s)) == Elements(s)
  {
    if |s| > 1 {
      CompactElements(s[1..]);
      assert s == [s[0]] + s[1..];
      var r := Compact(s[1..]);
      assert Elements([s[0]] + r) == {s[0]} + Elements(r);
      assert Elements(s) == {s[0]} + Elements(s[1..]);
      assert s[1] == s[1..][0];
    }
  }

  lemma {:induction false} CompactStrict(s: seq<string>)
    requires Sorted(s)
    ensures StrictlySorted(Compact(s))
  {
    if |s| > 1 {
      var tail, r := s[1..], Compact(s[1..]);
      CompactStrict(tail);
      if s[0] != s[1] {
        forall j | 0 <= j < |r| ensures Leq(s[0], r[j]) && s[0] != r[j] {
          CompactElements(tail);
          assert r[j] in Elements(r);
          var k :| 0 <= k < |tail| && tail[k] == r[j];
          assert s[k + 1] == r[j];
          if s[0] == s[k + 1] {
            LeqAntisymmetric(s[0], s[1]);
          }
        }
      }
    }
  }

  /** Go's `slices.Compact(slices.Sort(s))`. */
  function Canonical(s: seq<string>): seq<string> {
    Compact(Sort(s))
  }

  lemma CanonicalForm(s: seq<string>)
    ensures StrictlySorted(Canonical(s)) && Elements(Canonical(s)) == Elements(s)
  {
    SortSorts(s);
    CompactStrict(Sort(s));
    CompactElements(Sort(s));
    assert forall x :: x in s <==> x in multiset(s);
    assert forall x :: x in Sort(s) <==> x in multiset(Sort(s));
  }

  /** A strictly sorted list is determined by its elements. */
  lemma {:induction false} StrictlySortedUnique(a: seq<string>, b: seq<string>)
    requires StrictlySorted(a) && StrictlySorted(b) && Elements(a) == Elements(b)
    ensures a == b
  {
    if a == [] {
      assert forall i | 0 <= i < |b| :: b[i] in Elements(b);
    } else {
      assert a[0] in Elements(a) && a[0] in Elements(b);
      assert b != [] && b[0] in Elements(b);
      LeastOfSorted(a, b);
      LeastOfSorted(b, a);
      LeqAntisymmetric(a[0], b[0]);
      assert a == [a[0]] + a[1..] && b == [b[0]] + b[1..];
      assert Elements(a[1..]) == Elements(a) - {a[0]};
      assert Elements(b[1..]) == Elements(b) - {b[0]};
      StrictlySortedUnique(a[1..], b[1..]);
    }
  }

  lemma LeastOfSorted(a: seq<string>, b: seq<string>)
    requires Sorted(a) && a != [] && b != [] && Elements(b) <= Elements(a)
    ensures Leq(a[0], b[0])
  {
    assert b[0] in Elements(b);
    var k :| 0 <= k < |a| && a[k] == b[0];
    if k == 0 {
      LeqTotal(a[0], a[0]);
    }
  }

  /** Order and repetition are exactly what sorting and compacting forgets. */
  lemma CanonicalIffSameElements(a: seq<string>, b: seq<string>)
    ensures Canonical(a) == Canonical(b) <==> Elements(a) == Elements(b)
  {
    CanonicalForm(a);
    CanonicalForm(b);
    if Elements(a) == Elements(b) {
      StrictlySortedUnique(Canonical(a), Canonical(b));
    }
  }
}
