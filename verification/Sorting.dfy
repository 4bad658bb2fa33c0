/** The sorted list of found job names and the binary search that stands for membership in the sweep. */
module Sorting {
  /** Go's order on strings, element by element. */
  predicate Less(a: string, b: string) {
    b != [] && (a == [] || a[0] < b[0] || (a[0] == b[0] && Less(a[1..], b[1..])))
  }

  lemma {:induction false} LessTransitive(a: string, b: string, c: string)
    requires Less(a, b) && Less(b, c)
    ensures Less(a, c)
  {
    if a != [] && a[0] == b[0] == c[0] {
      LessTransitive(a[1..], b[1..], c[1..]);
    }
  }

  lemma {:induction false} LessTotal(a: string, b: string)
    ensures Less(a, b) || Less(b, a) || a == b
    ensures !(Less(a, b) && Less(b, a)) && !Less(a, a)
  {
    if a != [] {
      LessTotal(a[1..], a[1..]);
    }
    if a != [] && b != [] && a[0] == b[0] {
      LessTotal(a[1..], b[1..]);
      if a[1..] == b[1..] {
        assert a == [a[0]] + a[1..] && b == [b[0]] + b[1..];
      }
    }
  }

  /** Not above. */
  predicate Ordered(s: seq<string>) {
    forall i, j | 0 <= i < j < |s| :: !Less(s[j], s[i])
  }

  /** `!Less(b, a)` is transitive. */
  lemma NotAboveTransitive(a: string, b: string, c: string)
    requires !Less(b, a) && !Less(c, b)
    ensures !Less(c, a)
  {
  }

  lemma InsertedOrdered(s: seq<string>, i: nat, x: string)
    requires Ordered(s) && i <= |s|
    requires forall k | 0 <= k < i :: !Less(x, s[k])
    requires forall k | i <= k < |s| :: !Less(s[k], x)
    ensures Ordered(s[..i] + [x] + s[i..])
  {
  }

  /** Puts `x` at its place in an ordered list. */
  method Insert(s: seq<string>, x: string) returns (r: seq<string>)
    requires Ordered(s)
    ensures Ordered(r) && multiset(r) == multiset(s) + multiset{x}
  {
    var i := |s|;
    while i > 0 && Less(x, s[i - 1])
      invariant 0 <= i <= |s|
      invariant forall k | i <= k < |s| :: Less(x, s[k])
    {
      i := i - 1;
    }
    r := s[..i] + [x] + s[i..];
    assert s == s[..i] + s[i..];
    forall k | 0 <= k < i ensures !Less(x, s[k]) {
      if k < i - 1 {
        NotAboveTransitive(s[k], s[i - 1], x);
      }
    }
    forall k | i <= k < |s| ensures !Less(s[k], x) {
      LessTotal(x, s[k]);
    }
    InsertedOrdered(s, i, x);
  }

  method Sort(names: seq<string>) returns (sorted: seq<string>)
    ensures Ordered(sorted) && multiset(sorted) == multiset(names)
  {
    sorted := [];
    for i := 0 to |names|
      invariant Ordered(sorted) && multiset(sorted) == multiset(names[..i])
    {
      assert names[..i + 1] == names[..i] + [names[i]];
      sorted := Insert(sorted, names[i]);
    }
    assert names[..|names|] == names;
  }

  /** Go's `slices.BinarySearch`: the first position not below the target, and whether the target is there. */
  method BinarySearch(x: seq<string>, target: string) returns (position: nat, found: bool)
    requires Ordered(x)
    ensures position <= |x|
    ensures forall k | 0 <= k < position :: Less(x[k], target)
    ensures forall k | position <= k < |x| :: !Less(x[k], target)
    ensures found <==> target in x
  {
    var i, j := 0, |x|;
    while i < j
      invariant 0 <= i <= j <= |x|
      invariant forall k | 0 <= k < i :: Less(x[k], target)
      invariant forall k | j <= k < |x| :: !Less(x[k], target)
    {
      var h := (i + j) / 2;
      if Less(x[h], target) {
        forall k | 0 <= k < h ensures Less(x[k], target) {
          BelowStays(x[k], x[h], target);
        }
        i := h + 1;
      } else {
        forall k | h < k < |x| ensures !Less(x[k], target) {
          NotAboveTransitive(target, x[h], x[k]);
        }
        j := h;
      }
    }
    position := i;
    found := i < |x| && x[i] == target;
    if target in x {
      var k :| 0 <= k < |x| && x[k] == target;
      LessTotal(target, target);
      assert i <= k;
      LessTotal(x[i], target);
    }
  }

  lemma BelowStays(a: string, b: string, c: string)
    requires !Less(b, a) && Less(b, c)
    ensures Less(a, c)
  {
  }
}
