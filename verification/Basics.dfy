/** Vocabulary shared by the models. */
module Basics {
  type Actor = nat
  type Operation = nat

  type Byte = b: nat | b < 256

  datatype Option<+T> = None | Some(value: T)

  datatype Outcome<+T, +C> = Ok(value: T) | Refused(code: C)

  datatype Kind = TypePublish | RecordOpen | RecordRevise | RecordResolve | RecordConvert

  function Lookup<K, V>(m: map<K, V>, k: K): Option<V> {
    if k in m then Some(m[k]) else None
  }

  // ---------------------------------------------------------------- sorted identities

  /** Digests are fixed-width lower-case hex, so string order is numeric order. */
  type Id = nat

  ghost predicate Increasing(s: seq<Id>) {
    forall i, j :: 0 <= i < j < |s| ==> s[i] < s[j]
  }

  function SetOf<T>(s: seq<T>): set<T> {
    set x | x in s
  }

  predicate IsLeast(m: Id, s: set<Id>) {
    m in s && forall x :: x in s ==> m <= x
  }

  function Least(s: set<Id>): (m: Id)
    requires s != {}
    ensures IsLeast(m, s)
  {
    LeastExists(s);
    var m :| IsLeast(m, s);
    m
  }

  lemma {:induction false} LeastExists(s: set<Id>)
    requires s != {}
    ensures exists m :: IsLeast(m, s)
    decreases |s|
  {
    var a :| a in s;
    var rest := s - {a};
    if rest == {} {
      assert s == {a};
      assert IsLeast(a, s);
    } else {
      LeastExists(rest);
      var m :| IsLeast(m, rest);
      var least := if a < m then a else m;
      forall x | x in s ensures least <= x {
        assert x == a || x in rest;
      }
      assert IsLeast(least, s);
    }
  }

  /** The members in increasing order. */
  function Sorted(s: set<Id>): (r: seq<Id>)
    ensures Increasing(r) && SetOf(r) == s
    decreases |s|
  {
    if s == {} then []
    else
      var m := Least(s);
      var rest := Sorted(s - {m});
      PrependLeast(m, rest);
      [m] + rest
  }

  lemma PrependLeast(m: Id, rest: seq<Id>)
    requires Increasing(rest) && IsLeast(m, SetOf(rest) + {m}) && m !in rest
    ensures Increasing([m] + rest) && SetOf([m] + rest) == SetOf(rest) + {m}
  {
    forall i | 0 <= i < |rest| ensures m < rest[i] {
      assert rest[i] in SetOf(rest);
    }
  }

  /** Increasing lists are equal exactly when they hold the same members, so comparing
      them element by element compares sets. */
  lemma {:induction false} SameMembersSameList(a: seq<Id>, b: seq<Id>)
    requires Increasing(a) && Increasing(b) && SetOf(a) == SetOf(b)
    ensures a == b
  {
    assert a != [] ==> a[0] in SetOf(b);
    assert b != [] ==> b[0] in SetOf(a);
    if a != [] {
      assert a[0] in SetOf(a) && b[0] in SetOf(b);
      assert a[0] == b[0];
      forall x ensures x in SetOf(a[1..]) <==> x in SetOf(b[1..]) {
        assert x in a[1..] <==> x in SetOf(a) && x != a[0];
        assert x in b[1..] <==> x in SetOf(b) && x != b[0];
      }
      SameMembersSameList(a[1..], b[1..]);
    }
  }

  lemma {:induction false} IncreasingLength(s: seq<Id>)
    requires Increasing(s)
    ensures |SetOf(s)| == |s|
  {
    if s != [] {
      IncreasingLength(s[1..]);
      assert SetOf(s) == {s[0]} + SetOf(s[1..]);
      assert s[0] !in s[1..];
    }
  }

  lemma {:induction false} Subset<T>(a: set<T>, b: set<T>)
    requires a <= b
    ensures |a| <= |b|
    decreases |a|
  {
    if a != {} {
      var x :| x in a;
      Subset(a - {x}, b - {x});
    }
  }
}
