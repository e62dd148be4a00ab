/** `sortedKeys` of internal/uploader/uploader.go: the keys of a map, sorted in place. */
module Ordering {

  /** `<` on Go strings. */
  predicate Less(a: string, b: string)
    decreases |a|
  {
    b != "" && (a == "" || a[0] < b[0] || (a[0] == b[0] && Less(a[1..], b[1..])))
  }

  /** b comes after the first k characters of a, which it shares: by its next character, or
      because a has no more. */
  predicate AfterAt(a: string, b: string, k: nat) {
    k <= |a| && k < |b| && a[..k] == b[..k] && (k == |a| || a[k] < b[k])
  }

  /** It is the lexicographic order. */
  lemma {:induction false} LessExactly(a: string, b: string)
    ensures Less(a, b) <==> exists k: nat :: AfterAt(a, b, k)
    decreases |a|
  {
    if b != "" && (a == "" || a[0] < b[0]) {
      assert AfterAt(a, b, 0);
    } else if a != "" && b != "" {
      LessExactly(a[1..], b[1..]);
      if Less(a[1..], b[1..]) && a[0] == b[0] {
        var k: nat :| AfterAt(a[1..], b[1..], k);
        assert a[..k + 1] == [a[0]] + a[1..][..k] && b[..k + 1] == [b[0]] + b[1..][..k];
        assert AfterAt(a, b, k + 1);
      }
      forall k: nat | AfterAt(a, b, k)
        ensures k > 0 && a[0] == b[0] && AfterAt(a[1..], b[1..], k - 1)
      {
        assert k > 0 ==> a[..k][0] == b[..k][0];
        assert k > 0 ==> a[1..][..k - 1] == a[..k][1..] && b[1..][..k - 1] == b[..k][1..];
      }
    }
  }

  lemma {:induction false} LessTotal(a: string, b: string)
    ensures Less(a, b) || Less(b, a) || a == b
    ensures !(Less(a, b) && Less(b, a)) && !Less(a, a)
    decreases |a|
  {
    if a != "" {
      LessTotal(a[1..], a[1..]);
      if b != "" {
        LessTotal(a[1..], b[1..]);
        if a[0] == b[0] {
          assert a == [a[0]] + a[1..] && b == [b[0]] + b[1..];
        }
      }
    }
  }

  lemma {:induction false} LessTransitive(a: string, b: string, c: string)
    requires Less(a, b) && Less(b, c)
    ensures Less(a, c)
    decreases |a|
  {
    if a != "" && a[0] == b[0] && b[0] == c[0] {
      LessTransitive(a[1..], b[1..], c[1..]);
    }
  }

  predicate Ascending(s: seq<string>) {
    forall i, j | 0 <= i < j < |s| :: Less(s[i], s[j])
  }

  /** Where insertion from the right puts x. */
  function Inserted(s: seq<string>, x: string): (t: seq<string>)
    ensures |t| == |s| + 1
  {
    if s == [] || !Less(x, s[|s| - 1]) then s + [x]
    else Inserted(s[..|s| - 1], x) + [s[|s| - 1]]
  }

  function Sorted(s: seq<string>): (t: seq<string>)
    ensures |t| == |s|
  {
    if s == [] then [] else Inserted(Sorted(s[..|s| - 1]), s[|s| - 1])
  }

  lemma {:induction false} InsertedMembers(s: seq<string>, x: string)
    ensures forall y :: y in Inserted(s, x) <==> y in s || y == x
  {
    if s != [] && Less(x, s[|s| - 1]) {
      InsertedMembers(s[..|s| - 1], x);
      assert s == s[..|s| - 1] + [s[|s| - 1]];
    }
  }

  lemma {:induction false} InsertedAscends(s: seq<string>, x: string)
    requires Ascending(s) && x !in s
    ensures Ascending(Inserted(s, x))
  {
    if s == [] {
    } else if Less(x, s[|s| - 1]) {
      var front, last := s[..|s| - 1], s[|s| - 1];
      InsertedAscends(front, x);
      InsertedMembers(front, x);
      forall i | 0 <= i < |s|
        ensures Less(Inserted(front, x)[i], last)
      {
        assert Inserted(front, x)[i] in Inserted(front, x);
      }
    } else {
      LessTotal(x, s[|s| - 1]);
      forall i | 0 <= i < |s|
        ensures Less(s[i], x)
      {
        if i < |s| - 1 {
          LessTransitive(s[i], s[|s| - 1], x);
        }
      }
    }
  }

  predicate Distinct(s: seq<string>) {
    forall i, j | 0 <= i < j < |s| :: s[i] != s[j]
  }

  lemma {:induction false} SortedAscends(s: seq<string>)
    requires Distinct(s)
    ensures Ascending(Sorted(s)) && forall y :: y in Sorted(s) <==> y in s
  {
    if s != [] {
      var front, last := s[..|s| - 1], s[|s| - 1];
      SortedAscends(front);
      assert last !in front;
      InsertedMembers(Sorted(front), last);
      InsertedAscends(Sorted(front), last);
      assert s == front + [last];
    }
  }

  lemma NotEmpty(s: seq<string>)
    ensures s != [] <==> exists y :: y in s
  {
    if s != [] {
      assert s[0] in s;
    }
  }

  lemma HeadOnce(a: seq<string>)
    requires Ascending(a) && a != []
    ensures a[0] !in a[1..] && forall y :: y in a <==> y == a[0] || y in a[1..]
  {
    LessTotal(a[0], a[0]);
    assert a == [a[0]] + a[1..];
  }

  /** Only one sequence of these members ascends. */
  lemma {:induction false} OneOrder(a: seq<string>, b: seq<string>)
    requires Ascending(a) && Ascending(b) && forall y :: y in a <==> y in b
    ensures a == b
    decreases |a|
  {
    NotEmpty(a);
    NotEmpty(b);
    if a == [] {
    } else {
      assert a[0] in b && b != [] && b[0] in a;
      var i :| 0 <= i < |a| && a[i] == b[0];
      var j :| 0 <= j < |b| && b[j] == a[0];
      LessTotal(a[0], b[0]);
      assert a[0] == b[0];
      HeadOnce(a);
      HeadOnce(b);
      OneOrder(a[1..], b[1..]);
    }
  }

  /** The keys in ascending order. */
  ghost function Ordered(keys: set<string>): (out: seq<string>)
    ensures Ascending(out) && forall k :: k in out <==> k in keys
    decreases |keys|
  {
    if keys == {} then []
    else
      var k :| k in keys;
      var rest := Ordered(keys - {k});
      InsertedMembers(rest, k);
      InsertedAscends(rest, k);
      Inserted(rest, k)
  }

  /** No element lies before a smaller one. */
  predicate NonDescending(s: seq<string>) {
    forall i, j | 0 <= i < j < |s| :: !Less(s[j], s[i])
  }

  lemma NotLessTransitive(a: string, b: string, c: string)
    requires !Less(b, a) && !Less(c, b)
    ensures !Less(c, a)
  {
    LessTotal(a, b);
    LessTotal(b, c);
    LessTotal(a, a);
    if Less(a, b) && Less(b, c) {
      LessTransitive(a, b, c);
    }
    LessTotal(a, c);
  }

  lemma {:induction false} InsertedSorts(s: seq<string>, x: string)
    requires NonDescending(s)
    ensures NonDescending(Inserted(s, x)) && multiset(Inserted(s, x)) == multiset(s) + multiset{x}
  {
    if s == [] {
    } else if Less(x, s[|s| - 1]) {
      var front, last := s[..|s| - 1], s[|s| - 1];
      assert s == front + [last];
      InsertedSorts(front, x);
      InsertedMembers(front, x);
      LessTotal(x, last);
      forall i | 0 <= i < |s|
        ensures !Less(last, Inserted(front, x)[i])
      {
        assert Inserted(front, x)[i] in Inserted(front, x);
      }
    } else {
      forall i | 0 <= i < |s|
        ensures !Less(x, s[i])
      {
        if i < |s| - 1 {
          NotLessTransitive(s[i], s[|s| - 1], x);
        }
      }
    }
  }

  /** Whatever the strings, repeated ones included: the result is ascending and a permutation. */
  lemma {:induction false} SortedSorts(s: seq<string>)
    ensures NonDescending(Sorted(s)) && multiset(Sorted(s)) == multiset(s)
  {
    if s != [] {
      var front, last := s[..|s| - 1], s[|s| - 1];
      assert s == front + [last];
      SortedSorts(front);
      InsertedSorts(Sorted(front), last);
    }
  }

  /** The state of one insertion: x is on its way down from position i to position j, the
      elements it has passed moved up by one. */
  ghost predicate Inserting(a: seq<string>, was: seq<string>, i: nat, j: nat) {
    && |a| == |was| && j <= i < |a|
    && a[..j] == was[..j]
    && a[j + 1..i + 1] == was[j..i]
    && a[i + 1..] == was[i + 1..]
    && Inserted(was[..i], was[i]) == Inserted(was[..j], was[i]) + was[j..i]
  }

  lemma ShiftOne(a: seq<string>, was: seq<string>, i: nat, j: nat)
    requires Inserting(a, was, i, j) && 0 < j && Less(was[i], was[j - 1])
    ensures Inserting(a[j := was[j - 1]], was, i, j - 1)
  {
    assert was[..j][..j - 1] == was[..j - 1];
    assert Inserted(was[..j], was[i]) == Inserted(was[..j - 1], was[i]) + [was[j - 1]];
    assert [was[j - 1]] + was[j..i] == was[j - 1..i];
    var b := a[j := was[j - 1]];
    assert b[j..i + 1] == [was[j - 1]] + a[j + 1..i + 1];
  }

  lemma Place(a: seq<string>, was: seq<string>, i: nat, j: nat)
    requires Inserting(a, was, i, j) && (0 < j ==> !Less(was[i], was[j - 1]))
    ensures a[j := was[i]] == Inserted(was[..i], was[i]) + was[i + 1..]
  {
  }

  /** One pass of insertion, in place. */
  method Insert(a: array<string>, i: nat)
    requires i < a.Length
    modifies a
    ensures a[..] == Inserted(old(a[..i]), old(a[i])) + old(a[i + 1..])
  {
    var x := a[i];
    var j := i;
    ghost var was := a[..];
    while j > 0 && Less(x, a[j - 1])
      invariant j <= i && Inserting(a[..], was, i, j)
    {
      ShiftOne(a[..], was, i, j);
      a[j] := a[j - 1];
      j := j - 1;
    }
    Place(a[..], was, i, j);
    a[j] := x;
  }

  /** Every element inserted, one after the other. */
  method InsertAll(a: array<string>)
    modifies a
    ensures a[..] == Sorted(old(a[..]))
  {
    ghost var was := a[..];
    for i := 0 to a.Length
      invariant a[..] == Sorted(was[..i]) + was[i..]
    {
      assert was[..i + 1][..i] == was[..i];
      assert a[..i] == Sorted(was[..i]);
      Insert(a, i);
    }
    assert was[..a.Length] == was;
  }

  /** `sort.Strings`, in place. */
  method Sort(a: array<string>)
    modifies a
    ensures a[..] == Sorted(old(a[..]))
    ensures NonDescending(a[..]) && multiset(a[..]) == multiset(old(a[..]))
  {
    SortedSorts(a[..]);
    InsertAll(a);
  }

  /** `sortedKeys`: whatever order the map yields its keys in, the result is the same. */
  method SortedKeys(m: map<string, string>) returns (out: seq<string>)
    ensures out == Ordered(m.Keys)
  {
    var keys: seq<string> := [];
    var rest := m.Keys;
    while rest != {}
      invariant rest <= m.Keys && Distinct(keys)
      invariant forall k :: k in keys <==> k in m.Keys && k !in rest
      decreases rest
    {
      var k :| k in rest;
      keys := keys + [k];
      rest := rest - {k};
    }
    var a := new string[|keys|](i requires 0 <= i < |keys| => keys[i]);
    assert a[..] == keys;
    Sort(a);
    SortedAscends(keys);
    OneOrder(a[..], Ordered(m.Keys));
    return a[..];
  }
}
