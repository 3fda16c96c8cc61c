/** Does merging a sorted list of changed paths overwrite an ignored path? The fast test
    uses binary searches; the specification looks at every changed path. */
module Collision {
  import opened Basics

  type Path = seq<Byte>

  const SLASH: Byte := 47

  // ---------------------------------------------------------------- byte order

  /** Strings compare byte by byte and a proper prefix comes first. */
  predicate AtMost(a: Path, b: Path) {
    a == [] || (b != [] && (a[0] < b[0] || (a[0] == b[0] && AtMost(a[1..], b[1..]))))
  }

  ghost predicate Sorted(s: seq<Path>) {
    forall i, j :: 0 <= i <= j < |s| ==> AtMost(s[i], s[j])
  }

  lemma {:induction false} Antisymmetric(a: Path, b: Path)
    requires AtMost(a, b) && AtMost(b, a)
    ensures a == b
  {
    if a != [] {
      Antisymmetric(a[1..], b[1..]);
    }
  }

  lemma {:induction false} Transitive(a: Path, b: Path, c: Path)
    requires AtMost(a, b) && AtMost(b, c)
    ensures AtMost(a, c)
  {
    if a != [] && a[0] == b[0] == c[0] {
      Transitive(a[1..], b[1..], c[1..]);
    }
  }

  lemma {:induction false} PrefixFirst(a: Path, b: Path)
    requires a <= b
    ensures AtMost(a, b)
  {
    if a != [] {
      PrefixFirst(a[1..], b[1..]);
    }
  }

  /** Strings with a given prefix are contiguous and start where the prefix sorts:
      whatever lies between the prefix and a string that has it, has it too. */
  lemma {:induction false} PrefixBlock(prefix: Path, between: Path, last: Path)
    requires AtMost(prefix, between) && AtMost(between, last) && prefix <= last
    ensures prefix <= between
  {
    if prefix != [] {
      PrefixBlock(prefix[1..], between[1..], last[1..]);
      assert between == [between[0]] + between[1..] && prefix == [prefix[0]] + prefix[1..];
    }
  }

  // ---------------------------------------------------------------- binary search

  /** `i` is the first position of a sorted list whose element is not below `x`. */
  ghost predicate IsBoundary(s: seq<Path>, x: Path, i: nat) {
    && i <= |s|
    && (forall k :: 0 <= k < i ==> !AtMost(x, s[k]))
    && (forall k :: i <= k < |s| ==> AtMost(x, s[k]))
  }

  method SearchStrings(s: seq<Path>, x: Path) returns (i: nat)
    requires Sorted(s)
    ensures IsBoundary(s, x, i)
  {
    i := 0;
    var j := |s|;
    while i < j
      invariant i <= j <= |s|
      invariant forall k :: 0 <= k < i ==> !AtMost(x, s[k])
      invariant forall k :: j <= k < |s| ==> AtMost(x, s[k])
    {
      var h := (i + j) / 2;
      if AtMost(x, s[h]) {
        forall k | h <= k < j ensures AtMost(x, s[k]) {
          Transitive(x, s[h], s[k]);
        }
        j := h;
      } else {
        forall k | i <= k <= h ensures !AtMost(x, s[k]) {
          if AtMost(x, s[k]) {
            Transitive(x, s[k], s[h]);
          }
        }
        i := h + 1;
      }
    }
  }

  /** The element at the boundary of `x` tells whether `x` occurs. */
  lemma BoundaryFinds(s: seq<Path>, x: Path, i: nat)
    requires Sorted(s) && IsBoundary(s, x, i)
    ensures x in s <==> i < |s| && s[i] == x
  {
    if x in s {
      var k :| 0 <= k < |s| && s[k] == x;
      PrefixFirst(x, x);
      Antisymmetric(x, s[i]);
    }
  }

  /** The element at the boundary of `x` tells whether any element has the prefix `x`. */
  lemma BoundaryFindsPrefix(s: seq<Path>, x: Path, i: nat)
    requires Sorted(s) && IsBoundary(s, x, i)
    ensures (exists k :: 0 <= k < |s| && x <= s[k]) <==> i < |s| && x <= s[i]
  {
    if k :| 0 <= k < |s| && x <= s[k] {
      PrefixFirst(x, s[k]);
      PrefixBlock(x, s[i], s[k]);
    }
  }

  // ---------------------------------------------------------------- collision

  /** `a` is `p` cut before one of its separators. */
  predicate Ancestor(a: Path, p: Path) {
    |a| < |p| && p[|a|] == SLASH && a <= p
  }

  /** Equal to `p`, below `p`, or an ancestor component of `p`. */
  predicate Clashes(changed: Path, p: Path) {
    changed == p || p + [SLASH] <= changed || Ancestor(changed, p)
  }

  method IndexOfSlash(p: Path, offset: nat) returns (end: int)
    requires offset <= |p|
    ensures end < 0 ==> forall e :: offset <= e < |p| ==> p[e] != SLASH
    ensures end >= 0 ==> offset <= end < |p| && p[end] == SLASH
    ensures end >= 0 ==> forall e :: offset <= e < end ==> p[e] != SLASH
  {
    for e := offset to |p|
      invariant forall k :: offset <= k < e ==> p[k] != SLASH
    {
      if p[e] == SLASH {
        return e;
      }
    }
    return -1;
  }

  /** Some ancestor of `p` cut before position `limit` is a changed path. */
  ghost predicate AncestorChanged(changed: seq<Path>, p: Path, limit: nat) {
    exists e :: 0 <= e < limit && e < |p| && p[e] == SLASH && p[..e] in changed
  }

  lemma AncestorByPosition(changed: seq<Path>, p: Path)
    ensures AncestorChanged(changed, p, |p|) <==> exists k :: 0 <= k < |changed| && Ancestor(changed[k], p)
  {
    if k :| 0 <= k < |changed| && Ancestor(changed[k], p) {
      var e := |changed[k]|;
      assert p[..e] == changed[k];
    }
    if AncestorChanged(changed, p, |p|) {
      var e :| 0 <= e < |p| && p[e] == SLASH && p[..e] in changed;
      assert Ancestor(p[..e], p);
    }
  }

  /** The binary-search test agrees with looking at every changed path. */
  method IgnoredPathCollision(changed: seq<Path>, p: Path) returns (collides: bool)
    requires Sorted(changed)
    ensures collides <==> exists k :: 0 <= k < |changed| && Clashes(changed[k], p)
  {
    hide Sorted, AtMost, IsBoundary;
    AncestorByPosition(changed, p);
    var i := SearchStrings(changed, p);
    BoundaryFinds(changed, p, i);
    if i < |changed| && changed[i] == p {
      assert Clashes(changed[i], p);
      return true;
    }
    var prefix := p + [SLASH];
    i := SearchStrings(changed, prefix);
    BoundaryFindsPrefix(changed, prefix, i);
    if i < |changed| && prefix <= changed[i] {
      assert Clashes(changed[i], p);
      return true;
    }
    var offset := 0;
    while offset < |p|
      invariant offset <= |p| && !AncestorChanged(changed, p, offset)
    {
      var end := IndexOfSlash(p, offset);
      if end < 0 {
        assert !AncestorChanged(changed, p, |p|);
        return false;
      }
      var ancestor := p[..end];
      i := SearchStrings(changed, ancestor);
      BoundaryFinds(changed, ancestor, i);
      if i < |changed| && changed[i] == ancestor {
        assert Ancestor(ancestor, p) && Clashes(changed[i], p);
        return true;
      }
      offset := end + 1;
    }
    return false;
  }

  /** Why the components must be searched one by one: the lexical predecessor of a path
      can hide its ancestor. */
  lemma PredecessorHidesAncestor()
    ensures var ancestor, other, p := [97], [97, 45], [97, SLASH, 98];
      && Sorted([ancestor, other]) && AtMost(other, p) && AtMost(ancestor, p)
      && Clashes(ancestor, p) && !Clashes(other, p)
  {
  }
}
