// String order and sorting, as slices.Sort and sort.Strings do it.

module Sorting {
  // a < b, byte by byte
  predicate Less(a: string, b: string) {
    b != [] && (a == [] || a[0] < b[0] || (a[0] == b[0] && Less(a[1..], b[1..])))
  }

  lemma {:induction false} LessIrreflexive(a: string)
    ensures !Less(a, a)
  {
    if a != [] {
      LessIrreflexive(a[1..]);
    }
  }

  lemma {:induction false} LessTransitive(a: string, b: string, c: string)
    requires Less(a, b) && Less(b, c)
    ensures Less(a, c)
  {
    if a != [] && a[0] == b[0] && b[0] == c[0] {
      LessTransitive(a[1..], b[1..], c[1..]);
    }
  }

  lemma {:induction false} LessTotal(a: string, b: string)
    ensures a == b || Less(a, b) || Less(b, a)
  {
    if a != [] && b != [] && a[0] == b[0] {
      LessTotal(a[1..], b[1..]);
      assert a == [a[0]] + a[1..] && b == [b[0]] + b[1..];
    }
  }

  // The texts agree up to position k; there a ends, or has the smaller byte.
  ghost predicate ComesFirstAt(a: string, b: string, k: nat) {
    k <= |a| && k < |b| && a[..k] == b[..k] && (k == |a| || a[k] < b[k])
  }

  ghost predicate ComesFirst(a: string, b: string) {
    exists k: nat :: ComesFirstAt(a, b, k)
  }

  lemma SameHead(a: string, b: string, k: nat)
    requires a != [] && b != [] && a[0] == b[0]
    ensures ComesFirstAt(a, b, k + 1) <==> ComesFirstAt(a[1..], b[1..], k)
    ensures !ComesFirstAt(a, b, 0)
  {
    if k < |a| && k < |b| {
      assert a[..k + 1] == [a[0]] + a[1..][..k];
      assert b[..k + 1] == [b[0]] + b[1..][..k];
      assert a[1..][..k] == a[..k + 1][1..];
      assert b[1..][..k] == b[..k + 1][1..];
    }
  }

  // The order is decided at the first difference.
  lemma {:induction false} LessIffComesFirst(a: string, b: string)
    ensures Less(a, b) <==> ComesFirst(a, b)
    decreases |a|
  {
    if a != [] && b != [] && a[0] == b[0] {
      LessIffComesFirst(a[1..], b[1..]);
      if ComesFirst(a[1..], b[1..]) {
        var k: nat :| ComesFirstAt(a[1..], b[1..], k);
        SameHead(a, b, k);
      }
      if ComesFirst(a, b) {
        var k: nat :| ComesFirstAt(a, b, k);
        SameHead(a, b, 0);
        SameHead(a, b, if k > 0 then k - 1 else 0);
      }
    } else {
      OtherHead(a, b);
    }
  }

  lemma OtherHead(a: string, b: string)
    requires !(a != [] && b != [] && a[0] == b[0])
    ensures ComesFirst(a, b) <==> b != [] && (a == [] || a[0] < b[0])
  {
    if b != [] && (a == [] || a[0] < b[0]) {
      assert ComesFirstAt(a, b, 0);
    }
    if ComesFirst(a, b) {
      var k: nat :| ComesFirstAt(a, b, k);
      SameTake(a, b, k);
    }
  }

  lemma SameTake(a: string, b: string, k: nat)
    requires ComesFirstAt(a, b, k)
    ensures k > 0 ==> a[0] == b[0]
  {
    assert k > 0 ==> a[..k][0] == a[0] && b[..k][0] == b[0];
  }

  // Ascending, byte by byte, and without duplicates.
  ghost predicate InByteOrder(s: seq<string>) {
    forall i, j :: 0 <= i < j < |s| ==> ComesFirst(s[i], s[j])
  }

  lemma SortedIffInByteOrder(s: seq<string>)
    ensures StrictlySorted(s) <==> InByteOrder(s)
  {
    forall i, j | 0 <= i < j < |s| ensures Less(s[i], s[j]) <==> ComesFirst(s[i], s[j]) {
      LessIffComesFirst(s[i], s[j]);
    }
  }

  predicate StrictlySorted(s: seq<string>) {
    forall i, j :: 0 <= i < j < |s| ==> Less(s[i], s[j])
  }

  // There is only one strictly sorted listing of a set, whatever order its elements arrived in.
  lemma {:induction false} SortedListingIsUnique(s: seq<string>, t: seq<string>)
    requires StrictlySorted(s) && StrictlySorted(t)
    requires forall x :: x in s <==> x in t
    ensures s == t
    decreases |s|
  {
    assert t != [] ==> t[0] in t;
    if s != [] {
      assert s[0] in s && s[0] in t;
      assert t[0] in t && t[0] in s;
      var i :| 0 <= i < |t| && t[i] == s[0];
      var j :| 0 <= j < |s| && s[j] == t[0];
      if i > 0 && j > 0 {
        LessTransitive(s[0], t[0], s[0]);
        LessIrreflexive(s[0]);
      }
      assert s[0] == t[0];
      forall x ensures x in s[1..] <==> x in t[1..] {
        TailMembers(s, x);
        TailMembers(t, x);
      }
      SortedListingIsUnique(s[1..], t[1..]);
      assert s == [s[0]] + s[1..] && t == [t[0]] + t[1..];
    }
  }

  lemma TailMembers(s: seq<string>, x: string)
    requires s != [] && StrictlySorted(s)
    ensures x in s[1..] <==> x in s && x != s[0]
  {
    LessIrreflexive(s[0]);
    assert s == [s[0]] + s[1..];
    if x in s[1..] {
      var i :| 0 <= i < |s[1..]| && s[1..][i] == x;
      assert Less(s[0], s[i + 1]);
    }
  }

  lemma PrependSorted(x: string, s: seq<string>)
    requires StrictlySorted(s) && forall y :: y in s ==> Less(x, y)
    ensures StrictlySorted([x] + s)
  {
    forall i, j | 0 <= i < j < |[x] + s| ensures Less(([x] + s)[i], ([x] + s)[j]) {
      assert s[j - 1] in s;
    }
  }

  lemma BelowAll(x: string, s: seq<string>)
    requires s != [] && StrictlySorted(s) && Less(x, s[0])
    ensures StrictlySorted([x] + s)
  {
    forall y | y in s ensures Less(x, y) {
      var j :| 0 <= j < |s| && s[j] == y;
      if j > 0 {
        LessTransitive(x, s[0], s[j]);
      }
    }
    PrependSorted(x, s);
  }

  // Puts x into its place; a string that is already there stays alone.
  function InsertSorted(s: seq<string>, x: string): (r: seq<string>)
    requires StrictlySorted(s)
    ensures StrictlySorted(r)
    ensures forall y :: y in r <==> y in s || y == x
    decreases |s|
  {
    if s == [] then [x]
    else if s[0] == x then s
    else if Less(x, s[0]) then
      BelowAll(x, s);
      [x] + s
    else
      var rest := InsertSorted(s[1..], x);
      assert StrictlySorted([s[0]] + rest) by {
        LessTotal(x, s[0]);
        forall y ensures y in s[1..] ==> Less(s[0], y) {
          if y in s[1..] {
            var i :| 0 <= i < |s[1..]| && s[1..][i] == y;
            assert s[i + 1] == y;
          }
        }
        PrependSorted(s[0], rest);
      }
      assert s == [s[0]] + s[1..];
      [s[0]] + rest
  }

  // Sorts the members of a set that is enumerated in any order, as ranging over a map does.
  method SortedKeys(keys: set<string>) returns (sorted: seq<string>)
    ensures StrictlySorted(sorted) && InByteOrder(sorted)
    ensures forall x :: x in sorted <==> x in keys
  {
    var todo := keys;
    sorted := [];
    while todo != {}
      invariant todo <= keys && StrictlySorted(sorted)
      invariant forall x :: x in sorted <==> x in keys && x !in todo
    {
      var k :| k in todo;
      todo := todo - {k};
      sorted := InsertSorted(sorted, k);
    }
    SortedIffInByteOrder(sorted);
  }
}
