/** The raw ancestry preflight: which source tips a load may go on to read. */
module Admission {
  import opened Basics
  import H = History

  type Oid = nat

  /** A commit and the signed artifact it holds. `readable` says whether the full reader
      accepts its tree, envelope and signature. */
  datatype Stored = Stored(
    id: Id,
    actor: Actor,
    sequence: nat,
    previous: Option<Id>,
    signature: nat,
    parent: Option<Oid>,
    size: nat,
    readable: bool)

  /** The commits whose raw body can be read and parsed. Nothing rules out a cycle here:
      the reader has to. */
  type Store = map<Oid, Stored>

  datatype Source = Source(actor: Actor, tip: Oid)

  datatype Code =
    | Cyclic | TooMany | TooLarge | Unreadable
    | OwnerMismatch | BrokenChain | Contradictory | Divergent | Invalid

  const OBJECT_BYTES: nat := 8388608

  const TOTAL_BYTES: nat := 268435456

  // ---------------------------------------------------------------- ancestry

  /** Each commit but the last names the next as its parent. */
  ghost predicate Descent(store: Store, path: seq<Oid>) {
    && path != []
    && (forall i :: 0 <= i < |path| ==> path[i] in store)
    && forall i :: 0 <= i < |path| - 1 ==> store[path[i]].parent == Some(path[i + 1])
  }

  /** The whole first-parent ancestry of `tip`, tip first. */
  ghost predicate Ancestry(store: Store, tip: Oid, path: seq<Oid>) {
    Descent(store, path) && path[0] == tip && store[path[|path| - 1]].parent.None?
  }

  ghost predicate Grounded(store: Store, tip: Oid) {
    exists path :: Ancestry(store, tip, path)
  }

  ghost predicate ParentClosed(store: Store, s: set<Oid>) {
    forall o :: o in s ==> o in store && (store[o].parent.Some? ==> store[o].parent.value in s)
  }

  ghost predicate AllGrounded(store: Store, s: set<Oid>) {
    forall o :: o in s ==> Grounded(store, o)
  }

  /** What commits add up to. */
  ghost function TotalBytes(store: Store, s: set<Oid>): nat
    decreases |s|
  {
    if s == {} then 0
    else
      var o := Least(s);
      (if o in store then store[o].size else 0) + TotalBytes(store, s - {o})
  }

  ghost predicate SizesFit(store: Store, s: set<Oid>) {
    && (forall o :: o in s && o in store ==> store[o].size <= OBJECT_BYTES)
    && TotalBytes(store, s) <= TOTAL_BYTES
  }

  /** What the preflight admits: the sources lie in a set of at most 100000 commits,
      within the byte limits, that is closed under parents, every one of them descending
      to a parentless commit. */
  ghost predicate Admits(store: Store, sources: seq<Source>, s: set<Oid>) {
    && ParentClosed(store, s) && AllGrounded(store, s) && |s| <= H.READ_ENTRIES && SizesFit(store, s)
    && forall k :: 0 <= k < |sources| ==> sources[k].tip in s
  }

  /** Parents are unique, so a descent stays on the whole ancestry of its start. */
  lemma {:induction false} DescentInsideAt(store: Store, tip: Oid, whole: seq<Oid>, path: seq<Oid>, i: nat)
    requires Ancestry(store, tip, whole) && Descent(store, path) && path[0] == tip && i < |path|
    ensures i < |whole| && path[i] == whole[i]
  {
    if i > 0 {
      DescentInsideAt(store, tip, whole, path, i - 1);
      assert store[whole[i - 1]].parent == Some(path[i]);
    }
  }

  lemma DescentInside(store: Store, tip: Oid, whole: seq<Oid>, path: seq<Oid>)
    requires Ancestry(store, tip, whole) && Descent(store, path) && path[0] == tip
    ensures path <= whole
  {
    forall i | 0 <= i < |path| ensures i < |whole| && path[i] == whole[i] {
      DescentInsideAt(store, tip, whole, path, i);
    }
    DescentInsideAt(store, tip, whole, path, |path| - 1);
  }

  lemma AncestryUnique(store: Store, tip: Oid, a: seq<Oid>, b: seq<Oid>)
    requires Ancestry(store, tip, a) && Ancestry(store, tip, b)
    ensures a == b
  {
    DescentInside(store, tip, a, b);
    DescentInside(store, tip, b, a);
  }

  /** An ancestry that ends meets no commit twice. */
  lemma AncestryDistinct(store: Store, tip: Oid, path: seq<Oid>, i: nat, j: nat)
    requires Ancestry(store, tip, path) && i <= j < |path| && path[i] == path[j]
    ensures i == j
  {
    SuffixAncestry(store, tip, path, i);
    SuffixAncestry(store, tip, path, j);
    AncestryUnique(store, path[i], path[i..], path[j..]);
  }

  /** A descent that meets a commit again never ends, so its start is not grounded. */
  lemma RepeatIsEndless(store: Store, path: seq<Oid>, j: nat)
    requires Descent(store, path) && j < |path| && store[path[|path| - 1]].parent == Some(path[j])
    ensures !Grounded(store, path[0])
  {
    if whole :| Ancestry(store, path[0], whole) {
      var again := path + [path[j]];
      DescentExtends(store, path, path[j]);
      DescentInside(store, path[0], whole, again);
      assert whole[j] == again[j] && whole[|path|] == again[|path|];
      AncestryDistinct(store, path[0], whole, j, |path|);
    }
  }

  lemma SuffixAncestry(store: Store, tip: Oid, path: seq<Oid>, i: nat)
    requires Ancestry(store, tip, path) && i < |path|
    ensures Ancestry(store, path[i], path[i..])
  {
  }

  /** A parent-closed set holds whatever a descent from one of its members meets. */
  lemma {:induction false} ClosedHolds(store: Store, s: set<Oid>, path: seq<Oid>, i: nat)
    requires ParentClosed(store, s) && Descent(store, path) && path[0] in s && i < |path|
    ensures path[i] in s && (store[path[i]].parent.Some? ==> store[path[i]].parent.value in s)
  {
    if i > 0 {
      ClosedHolds(store, s, path, i - 1);
    }
  }

  lemma DescentExtends(store: Store, path: seq<Oid>, next: Oid)
    requires next in store
    requires path != [] ==> Descent(store, path) && store[path[|path| - 1]].parent == Some(next)
    ensures Descent(store, path + [next])
  {
  }

  // ---------------------------------------------------------------- preflight

  /** Where a walk from `tip` stands: it has met `path` and goes on with `next`. */
  ghost predicate Walking(store: Store, tip: Oid, path: seq<Oid>, next: Option<Oid>) {
    if path == [] then next == Some(tip)
    else Descent(store, path) && path[0] == tip && store[path[|path| - 1]].parent == next
  }

  lemma WalkStays(store: Store, s: set<Oid>, tip: Oid, path: seq<Oid>, next: Option<Oid>)
    requires Walking(store, tip, path, next) && ParentClosed(store, s) && tip in s
    ensures SetOf(path) <= s && (next.Some? ==> next.value in s)
  {
    forall o | o in SetOf(path) ensures o in s {
      var i :| 0 <= i < |path| && path[i] == o;
      ClosedHolds(store, s, path, i);
    }
    if path != [] {
      ClosedHolds(store, s, path, |path| - 1);
    }
  }

  lemma WalkSteps(store: Store, tip: Oid, path: seq<Oid>, next: Oid)
    requires Walking(store, tip, path, Some(next)) && next in store
    ensures Walking(store, tip, path + [next], store[next].parent)
    ensures SetOf(path + [next]) == SetOf(path) + {next}
  {
  }

  lemma WalkRepeats(store: Store, tip: Oid, path: seq<Oid>, next: Oid)
    requires Walking(store, tip, path, Some(next)) && next in path
    ensures !Grounded(store, tip)
  {
    var j :| 0 <= j < |path| && path[j] == next;
    RepeatIsEndless(store, path, j);
  }

  /** No set of commits can be admitted for these sources. */
  ghost predicate Inadmissible(store: Store, sources: seq<Source>) {
    forall s: set<Oid> :: !Admits(store, sources, s)
  }

  /** Every set that could be admitted for these sources contains `part`. */
  ghost predicate Needed(store: Store, sources: seq<Source>, part: set<Oid>) {
    forall s: set<Oid> :: Admits(store, sources, s) ==> part <= s
  }

  lemma WalkStarts(store: Store, done: set<Oid>, tip: Oid)
    ensures Walking(store, tip, [], Some(tip)) && SetOf<Oid>([]) == {} && done + {} == done
  {
  }

  lemma EndlessInadmissible(store: Store, sources: seq<Source>, k: nat, path: seq<Oid>, oid: Oid)
    requires k < |sources| && Walking(store, sources[k].tip, path, Some(oid)) && oid in path
    ensures Inadmissible(store, sources)
  {
    WalkRepeats(store, sources[k].tip, path, oid);
  }

  lemma WalkNeeded(store: Store, sources: seq<Source>, k: nat, path: seq<Oid>, next: Option<Oid>)
    requires k < |sources| && Walking(store, sources[k].tip, path, next)
    ensures Needed(store, sources, SetOf(path))
    ensures next.Some? ==> Needed(store, sources, {next.value})
  {
    forall s: set<Oid> | Admits(store, sources, s)
      ensures SetOf(path) <= s && (next.Some? ==> {next.value} <= s)
    {
      WalkStays(store, s, sources[k].tip, path, next);
    }
  }

  lemma MissingInadmissible(store: Store, sources: seq<Source>, oid: Oid)
    requires Needed(store, sources, {oid}) && oid !in store
    ensures Inadmissible(store, sources)
  {
  }

  lemma CrowdedInadmissible(store: Store, sources: seq<Source>, seen: set<Oid>, oid: Oid)
    requires Needed(store, sources, seen) && Needed(store, sources, {oid})
    requires oid !in seen && |seen| >= H.READ_ENTRIES
    ensures Inadmissible(store, sources)
  {
    forall s: set<Oid> ensures !Admits(store, sources, s) {
      if seen + {oid} <= s {
        Subset(seen + {oid}, s);
      }
    }
  }

  lemma {:induction false} TotalWithout(store: Store, s: set<Oid>, o: Oid)
    requires o in s
    ensures TotalBytes(store, s) == (if o in store then store[o].size else 0) + TotalBytes(store, s - {o})
    decreases |s|
  {
    var m := Least(s);
    if o != m {
      TotalWithout(store, s - {m}, o);
      TotalWithout(store, s - {o}, m);
      assert s - {m} - {o} == s - {o} - {m};
    }
  }

  lemma {:induction false} TotalGrows(store: Store, a: set<Oid>, b: set<Oid>)
    requires a <= b
    ensures TotalBytes(store, a) <= TotalBytes(store, b)
    decreases |a|
  {
    if a != {} {
      var o :| o in a;
      TotalWithout(store, a, o);
      TotalWithout(store, b, o);
      TotalGrows(store, a - {o}, b - {o});
    }
  }

  lemma TotalWith(store: Store, s: set<Oid>, o: Oid)
    requires o !in s && o in store
    ensures TotalBytes(store, s + {o}) == TotalBytes(store, s) + store[o].size
    ensures
      (SizesFit(store, s) && store[o].size <= OBJECT_BYTES && TotalBytes(store, s) + store[o].size <= TOTAL_BYTES) ==>
      SizesFit(store, s + {o})
  {
    TotalWithout(store, s + {o}, o);
    assert s + {o} - {o} == s;
  }

  lemma LargeInadmissible(store: Store, sources: seq<Source>, seen: set<Oid>, oid: Oid)
    requires Needed(store, sources, seen) && Needed(store, sources, {oid}) && oid !in seen && oid in store
    requires store[oid].size > OBJECT_BYTES || TotalBytes(store, seen) + store[oid].size > TOTAL_BYTES
    ensures Inadmissible(store, sources)
  {
    TotalWith(store, seen, oid);
    forall s: set<Oid> ensures !Admits(store, sources, s) {
      if seen + {oid} <= s {
        TotalGrows(store, seen + {oid}, s);
      }
    }
  }

  lemma NeededUnion(store: Store, sources: seq<Source>, a: set<Oid>, b: set<Oid>)
    requires Needed(store, sources, a) && Needed(store, sources, b)
    ensures Needed(store, sources, a + b)
  {
  }

  lemma OneMore(done: set<Oid>, path: seq<Oid>, oid: Oid)
    requires SetOf(path) !! done && oid !in done && oid !in path
    ensures SetOf(path + [oid]) !! done && |done + SetOf(path + [oid])| == |done + SetOf(path)| + 1
    ensures oid !in done + SetOf(path) && done + SetOf(path + [oid]) == done + SetOf(path) + {oid}
  {
    assert SetOf(path + [oid]) == SetOf(path) + {oid};
    assert done + SetOf(path + [oid]) == done + SetOf(path) + {oid};
  }

  /** What a finished commit is: grounded, with its parent finished too. */
  ghost predicate Finished(store: Store, done: set<Oid>) {
    ParentClosed(store, done) && AllGrounded(store, done)
  }

  lemma {:induction false} PathGrounded(store: Store, tip: Oid, path: seq<Oid>, next: Option<Oid>, i: nat)
    requires Walking(store, tip, path, next) && i < |path|
    requires next.Some? ==> Grounded(store, next.value)
    ensures Grounded(store, path[i])
  {
    if next.None? {
      assert Ancestry(store, path[i], path[i..]);
    } else {
      var rest :| Ancestry(store, next.value, rest);
      assert Ancestry(store, path[i], path[i..] + rest);
    }
  }

  /** A walk that ended, or met a finished commit, finishes the commits it met. */
  lemma WalkFinishes(store: Store, done: set<Oid>, tip: Oid, path: seq<Oid>, next: Option<Oid>)
    requires Finished(store, done) && Walking(store, tip, path, next)
    requires next.Some? ==> next.value in done
    ensures Finished(store, done + SetOf(path)) && tip in done + SetOf(path)
  {
    var all := done + SetOf(path);
    forall o | o in all
      ensures o in store && (store[o].parent.Some? ==> store[o].parent.value in all) && Grounded(store, o)
    {
      if o !in done {
        var i :| 0 <= i < |path| && path[i] == o;
        PathGrounded(store, tip, path, next, i);
        assert i + 1 < |path| ==> store[path[i]].parent == Some(path[i + 1]) && path[i + 1] in all;
      }
    }
  }

  /** Walk one source down to a finished commit or to the end, charging each new commit
      against the limits. Finished commits are in `done`, visited ones in the path. */
  method PreflightSource(store: Store, sources: seq<Source>, k: nat, done: set<Oid>, used: nat)
      returns (r: Outcome<seq<Oid>, Code>, total: nat)
    requires k < |sources| && Finished(store, done) && |done| <= H.READ_ENTRIES
    requires Needed(store, sources, done) && SizesFit(store, done) && used == TotalBytes(store, done)
    ensures r.Refused? ==> Inadmissible(store, sources)
    ensures r.Ok? ==> var seen := done + SetOf(r.value);
      && Finished(store, seen) && sources[k].tip in seen
      && |seen| <= H.READ_ENTRIES && Needed(store, sources, seen)
      && SizesFit(store, seen) && total == TotalBytes(store, seen)
  {
    hide *;
    var tip := sources[k].tip;
    var path: seq<Oid> := [];
    var next := Some(tip);
    total := used;
    WalkStarts(store, done, tip);
    while next.Some? && next.value !in done
      invariant Walking(store, tip, path, next)
      invariant SetOf(path) !! done && |done + SetOf(path)| == |done| + |path| <= H.READ_ENTRIES
      invariant SizesFit(store, done + SetOf(path)) && total == TotalBytes(store, done + SetOf(path))
      invariant SetOf(path) <= store.Keys
      decreases store.Keys - SetOf(path)
    {
      var oid := next.value;
      if oid in path {
        EndlessInadmissible(store, sources, k, path, oid);
        return Refused(Cyclic), total;
      }
      WalkNeeded(store, sources, k, path, next);
      NeededUnion(store, sources, done, SetOf(path));
      OneMore(done, path, oid);
      if oid !in store {
        MissingInadmissible(store, sources, oid);
        return Refused(Unreadable), total;
      }
      if store[oid].size > OBJECT_BYTES || store[oid].size > TOTAL_BYTES - total {
        LargeInadmissible(store, sources, done + SetOf(path), oid);
        return Refused(TooLarge), total;
      }
      if |done| + |path| >= H.READ_ENTRIES {
        CrowdedInadmissible(store, sources, done + SetOf(path), oid);
        return Refused(TooMany), total;
      }
      TotalWith(store, done + SetOf(path), oid);
      total := total + store[oid].size;
      WalkSteps(store, tip, path, oid);
      path := path + [oid];
      next := store[oid].parent;
    }
    WalkNeeded(store, sources, k, path, next);
    NeededUnion(store, sources, done, SetOf(path));
    WalkFinishes(store, done, tip, path, next);
    r := Ok(path);
  }

  /** The preflight over all sources: a pass admits them, a refusal means that nothing
      could. */
  method Preflight(store: Store, sources: seq<Source>) returns (r: Outcome<set<Oid>, Code>)
    ensures r.Ok? ==> Admits(store, sources, r.value)
    ensures r.Refused? ==> Inadmissible(store, sources)
  {
    hide Inadmissible, Grounded, Needed, SizesFit;
    var done: set<Oid> := {};
    var total := 0;
    NothingNeeded(store, sources);
    for k := 0 to |sources|
      invariant Finished(store, done) && |done| <= H.READ_ENTRIES && Needed(store, sources, done)
      invariant SizesFit(store, done) && total == TotalBytes(store, done)
      invariant forall j :: 0 <= j < k ==> sources[j].tip in done
    {
      var walk;
      walk, total := PreflightSource(store, sources, k, done, total);
      if walk.Refused? {
        return Refused(walk.code);
      }
      done := done + SetOf(walk.value);
    }
    r := Ok(done);
  }

  lemma NothingNeeded(store: Store, sources: seq<Source>)
    ensures Needed(store, sources, {}) && SizesFit(store, {}) && TotalBytes(store, {}) == 0
  {
  }
}
