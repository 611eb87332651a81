// Definitions shared by the models of the services.

module Common {
  datatype Option<+T> = None | Some(value: T)

  // The last element of a non-empty sequence.
  function Last<T>(s: seq<T>): T
    requires s != []
  {
    s[|s| - 1]
  }

  // a can be obtained from b by leaving elements out.
  ghost predicate Subsequence<T>(a: seq<T>, b: seq<T>)
    decreases |b|
  {
    a == [] ||
    (b != [] && if Last(a) == Last(b) then Subsequence(a[..|a| - 1], b[..|b| - 1])
                else Subsequence(a, b[..|b| - 1]))
  }

  // A text is split uniquely at its first separator.
  lemma SplitAt<T>(separator: T, a: seq<T>, x: seq<T>, b: seq<T>, y: seq<T>)
    requires separator !in a && separator !in b && a + [separator] + x == b + [separator] + y
    ensures a == b && x == y
  {
    var s, t := a + [separator] + x, b + [separator] + y;
    assert s[|a|] == separator && t[|b|] == separator;
    assert forall k :: 0 <= k < |a| ==> s[k] == a[k] && a[k] in a;
    assert forall k :: 0 <= k < |b| ==> t[k] == b[k] && b[k] in b;
    assert |a| == |b|;
    assert s[..|a|] == a && t[..|b|] == b;
    assert s[|a| + 1..] == x && t[|b| + 1..] == y;
  }
}
