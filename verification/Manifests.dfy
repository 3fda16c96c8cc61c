/** Contribution commits: the records they retain, the Git objects they consist of and
    reach, and the limits that reading one and installing one must respect. */
module Manifests {
  import opened Basics
  import opened Depth

  datatype Cost = Cost(wire: nat, decoded: nat, objects: nat, events: nat, depth: nat)

  /** A commit of one actor's contribution ref: the records it retains, in ID order, and
      the commit it extends. Commits are content hashes, hence values here. */
  datatype Manifest = Manifest(actor: Actor, records: seq<Id>, parent: Option<Manifest>)

  datatype GitObject =
    | ManifestBlob(actor: Actor, records: seq<Id>)
    | Payload(id: Id)
    | Signature(id: Id)
    | Tree(actor: Actor, records: seq<Id>)
    | CommitObject(head: Manifest)

  /** What digests determine: the actor and intent of a signed record; the digest of a
      Git object, its length and that of its header line; and whether the tree, names,
      schema, signatures and single-object ceilings of a contribution commit are right. */
  datatype Universe = Universe(
    actor: Id -> Actor,
    intent: Id -> nat,
    digest: GitObject -> Id,
    size: Id -> nat,
    header: Id -> nat,
    canonical: Manifest -> bool)

  // ---------------------------------------------------------------- objects

  function RecordsAt(head: Option<Manifest>): set<Id> {
    if head.Some? then SetOf(head.value.records) else {}
  }

  /** The commit that adds `wanted` to what `expected` retains; `expected` itself when
      nothing is new. */
  function HeadFor(actor: Actor, expected: Option<Manifest>, wanted: seq<Id>): (head: Manifest)
    ensures SetOf(head.records) == RecordsAt(expected) + SetOf(wanted)
  {
    var all := RecordsAt(expected) + SetOf(wanted);
    if expected.Some? && all == RecordsAt(expected) then expected.value
    else Manifest(actor, Sorted(all), expected)
  }

  function Blobs(ids: seq<Id>): (r: seq<GitObject>)
    ensures |r| == 2 * |ids|
  {
    if ids == [] then []
    else Blobs(ids[..|ids| - 1]) + [Payload(ids[|ids| - 1]), Signature(ids[|ids| - 1])]
  }

  /** The objects one commit consists of: three plus two for each record. */
  function ObjectList(head: Manifest): seq<GitObject> {
    [ManifestBlob(head.actor, head.records)] + Blobs(head.records)
    + [Tree(head.actor, head.records), CommitObject(head)]
  }

  /** The objects that installing `head` over `expected` has to write. */
  function ObjectsFor(expected: Option<Manifest>, head: Manifest): seq<GitObject> {
    if expected == Some(head) then [] else ObjectList(head)
  }

  /** Object length with Git's header and the compression allowance. */
  function Charge(u: Universe, objects: seq<GitObject>): nat {
    if objects == [] then 0
    else
      var n := u.size(u.digest(objects[|objects| - 1]));
      Charge(u, objects[..|objects| - 1]) + n + n / 1000 + 256
  }

  // ---------------------------------------------------------------- reachable objects

  /** Everything reachable from a commit, over its whole history. */
  function Reach(head: Manifest): set<GitObject> {
    SetOf(ObjectList(head)) + if head.parent.Some? then Reach(head.parent.value) else {}
  }

  /** Commits reachable from a contribution head. */
  function HistoryDepth(head: Manifest): nat {
    if head.parent.Some? then HistoryDepth(head.parent.value) + 1 else 1
  }

  function Digests(u: Universe, head: Manifest): set<Id> {
    set o | o in Reach(head) :: u.digest(o)
  }

  function Bytes(u: Universe, ids: seq<Id>): nat {
    if ids == [] then 0 else Bytes(u, ids[..|ids| - 1]) + u.size(ids[|ids| - 1])
  }

  /** The whole reachable history fits the object and byte limits. */
  predicate ClosureFits(u: Universe, head: Manifest, limits: Cost) {
    |Digests(u, head)| <= limits.objects && Bytes(u, Sorted(Digests(u, head))) <= limits.decoded
  }

  lemma {:induction false} BytesGrow(u: Universe, ids: seq<Id>, k: nat)
    requires k <= |ids|
    ensures Bytes(u, ids[..k]) <= Bytes(u, ids)
    decreases |ids| - k
  {
    if k < |ids| {
      assert ids[..k + 1][..k] == ids[..k];
      BytesGrow(u, ids, k + 1);
    } else {
      assert ids[..k] == ids;
    }
  }

  /** Enumerate what a commit reaches, in digest order, within the limits. */
  method TraverseObjects(u: Universe, head: Manifest, limits: Cost) returns (ids: Option<seq<Id>>)
    ensures ids.Some? <==> ClosureFits(u, head, limits)
    ensures ids.Some? ==> ids.value == Sorted(Digests(u, head))
  {
    hide Digests, Sorted;
    var all := Sorted(Digests(u, head));
    IncreasingLength(all);
    if |all| > limits.objects {
      return None;
    }
    var total := 0;
    for i := 0 to |all|
      invariant total == Bytes(u, all[..i]) <= limits.decoded
    {
      assert all[..i + 1][..i] == all[..i];
      var n := u.size(all[i]);
      if n > limits.decoded || n > limits.decoded - total {
        BytesGrow(u, all, i + 1);
        return None;
      }
      total := total + n;
    }
    assert all[..|all|] == all;
    return Some(all);
  }

  // ---------------------------------------------------------------- framed material

  const SCHEMA_BYTES: nat := 17

  const FRAME_ALLOWANCE: nat := 256

  /** Length of the material that frames these objects one after another. */
  function FramedLength(u: Universe, ids: seq<Id>): nat {
    if ids == [] then SCHEMA_BYTES
    else
      var last := ids[|ids| - 1];
      FramedLength(u, ids[..|ids| - 1]) + u.header(last) + u.size(last) + 1
  }

  /** Before each object the material, an allowance and the object fit the limit. */
  ghost predicate FramesFit(u: Universe, ids: seq<Id>, limit: nat) {
    forall i :: 0 <= i < |ids| ==> FramedLength(u, ids[..i]) + FRAME_ALLOWANCE + u.size(ids[i]) <= limit
  }

  method FrameObjects(u: Universe, ids: seq<Id>, limit: nat) returns (ok: bool)
    ensures ok <==> FramesFit(u, ids, limit)
  {
    var length := SCHEMA_BYTES;
    for i := 0 to |ids|
      invariant length == FramedLength(u, ids[..i])
      invariant forall k :: 0 <= k < i ==> FramedLength(u, ids[..k]) + FRAME_ALLOWANCE + u.size(ids[k]) <= limit
    {
      assert ids[..i + 1][..i] == ids[..i];
      var n := u.size(ids[i]);
      if limit < length + FRAME_ALLOWANCE || n > limit - length - FRAME_ALLOWANCE {
        return false;
      }
      length := length + u.header(ids[i]) + n + 1;
    }
    return true;
  }

  lemma {:induction false} FramedGrows(u: Universe, ids: seq<Id>, i: nat, j: nat)
    requires i < j <= |ids|
    ensures FramedLength(u, ids[..i]) + u.size(ids[i]) < FramedLength(u, ids[..j])
    decreases j
  {
    assert ids[..j][..j - 1] == ids[..j - 1];
    if i < j - 1 {
      FramedGrows(u, ids, i, j - 1);
    }
  }

  /** Checking before every object comes to checking before the last one. */
  lemma OnlyLastFrameMatters(u: Universe, ids: seq<Id>, limit: nat)
    requires ids != []
    ensures FramesFit(u, ids, limit) <==>
      FramedLength(u, ids[..|ids| - 1]) + FRAME_ALLOWANCE + u.size(ids[|ids| - 1]) <= limit
  {
    var last := |ids| - 1;
    forall i | 0 <= i < last
      ensures FramedLength(u, ids[..i]) + u.size(ids[i]) < FramedLength(u, ids[..last])
    {
      FramedGrows(u, ids, i, last);
    }
  }

  // ---------------------------------------------------------------- depth of the history

  /** A commit names its tree and its parent, a tree its blobs. */
  function Dependencies(o: GitObject): seq<GitObject> {
    match o
    case CommitObject(m) =>
      [Tree(m.actor, m.records)] + if m.parent.Some? then [CommitObject(m.parent.value)] else []
    case Tree(actor, records) => [ManifestBlob(actor, records)] + Blobs(records)
    case _ => []
  }

  function ObjectGraph(head: Manifest): Graph<GitObject> {
    map o | o in Reach(head) :: Dependencies(o)
  }

  /** The longest path from an object: blob, tree, then one more for each commit. */
  function Rank(o: GitObject): nat {
    match o
    case CommitObject(m) => HistoryDepth(m) + 2
    case Tree(_, _) => 2
    case _ => 1
  }

  lemma {:induction false} BlobsAreBlobs(ids: seq<Id>, o: GitObject)
    requires o in Blobs(ids)
    ensures o.Payload? || o.Signature?
  {
    var n := |ids| - 1;
    if o !in [Payload(ids[n]), Signature(ids[n])] {
      BlobsAreBlobs(ids[..n], o);
    }
  }

  lemma DependencyRank(o: GitObject, d: GitObject)
    requires d in Dependencies(o)
    ensures Rank(d) < Rank(o)
  {
    if o.Tree? && d in Blobs(o.records) {
      BlobsAreBlobs(o.records, d);
    }
  }

  lemma OwnObjects(head: Manifest)
    ensures CommitObject(head) in Reach(head) && Tree(head.actor, head.records) in Reach(head)
    ensures ManifestBlob(head.actor, head.records) in Reach(head)
    ensures forall o :: o in Blobs(head.records) ==> o in Reach(head)
  {
    var list := ObjectList(head);
    var n := |list|;
    assert list[0] in list && list[n - 2] in list && list[n - 1] in list;
    forall o | o in Blobs(head.records) ensures o in list {
      var i :| 0 <= i < |Blobs(head.records)| && Blobs(head.records)[i] == o;
      assert list[i + 1] == o;
    }
  }

  lemma {:induction false} ReachClosed(head: Manifest, o: GitObject, d: GitObject)
    requires o in Reach(head) && d in Dependencies(o)
    ensures d in Reach(head) && Rank(o) <= HistoryDepth(head) + 2
  {
    OwnObjects(head);
    if o in ObjectList(head) {
      OwnObject(head, o);
      if head.parent.Some? {
        OwnObjects(head.parent.value);
      }
    } else {
      ReachClosed(head.parent.value, o, d);
    }
  }

  lemma OwnObject(head: Manifest, o: GitObject)
    requires o in ObjectList(head)
    ensures o == CommitObject(head) || o == Tree(head.actor, head.records) || Dependencies(o) == []
    ensures Rank(o) <= HistoryDepth(head) + 2
  {
    if o in Blobs(head.records) {
      BlobsAreBlobs(head.records, o);
    }
  }

  lemma {:induction false} ReachRank(head: Manifest, o: GitObject)
    requires o in Reach(head)
    ensures Rank(o) <= HistoryDepth(head) + 2
  {
    if o in ObjectList(head) {
      OwnObject(head, o);
    } else {
      ReachRank(head.parent.value, o);
    }
  }

  lemma {:induction false} PathWithinRank(head: Manifest, p: seq<GitObject>)
    requires Path(ObjectGraph(head), p)
    ensures |p| <= Rank(p[0])
  {
    if |p| > 1 {
      PathHead(ObjectGraph(head), p);
      DependencyRank(p[0], p[1]);
      PathWithinRank(head, p[1..]);
    }
  }

  lemma {:induction false} DeepestPath(head: Manifest) returns (p: seq<GitObject>)
    ensures Path(ObjectGraph(head), p) && p[0] == CommitObject(head) && |p| == HistoryDepth(head) + 2
  {
    OwnObjects(head);
    var g := ObjectGraph(head);
    if head.parent.None? {
      p := [CommitObject(head), Tree(head.actor, head.records), ManifestBlob(head.actor, head.records)];
    } else {
      var parent := head.parent.value;
      var rest := DeepestPath(parent);
      forall i | 0 <= i < |rest| - 1 ensures rest[i] in g && rest[i + 1] in g[rest[i]] {
        assert rest[i] in ObjectGraph(parent) && rest[i] in Reach(parent);
      }
      assert Path(g, rest);
      PathCons(g, CommitObject(head), rest);
      p := [CommitObject(head)] + rest;
    }
  }

  /** The object graph of a history is closed, and its longest path runs through every
      commit to a blob of the first. */
  lemma GraphOfHistory(head: Manifest)
    ensures DependencyClosed(ObjectGraph(head))
    ensures IsDepth(ObjectGraph(head), HistoryDepth(head) + 2)
  {
    var g := ObjectGraph(head);
    forall o, d | o in g && d in g[o] ensures d in g {
      ReachClosed(head, o, d);
    }
    forall p | Path(g, p) && p[0] in g ensures |p| <= HistoryDepth(head) + 2 {
      PathWithinRank(head, p);
      ReachRank(head, p[0]);
    }
    OwnObjects(head);
    var p := DeepestPath(head);
    assert CommitObject(head) in g;
  }

  // ---------------------------------------------------------------- reading a commit

  /** The manifest itself: this actor's records, at least one, in increasing order. */
  ghost predicate WellFormed(u: Universe, actor: Actor, head: Manifest, limits: Cost) {
    && head.actor == actor && 0 < |head.records| <= limits.events
    && (forall i, j :: 0 <= i < j < |head.records| ==> head.records[i] < head.records[j])
    && (forall i :: 0 <= i < |head.records| ==> u.actor(head.records[i]) == actor)
    && u.canonical(head)
  }

  /** What reading a contribution ref demands of its commit and whole history. */
  ghost predicate Readable(u: Universe, actor: Actor, head: Manifest, limits: Cost) {
    && ClosureFits(u, head, limits)
    && FramesFit(u, Sorted(Digests(u, head)), limits.decoded)
    && HistoryDepth(head) + 2 <= limits.depth
    && WellFormed(u, actor, head, limits)
  }

  /** Read the commit a contribution ref names: the raw closure, its framing, its
      dependency depth, then the manifest. */
  method ReadManifest(u: Universe, actor: Actor, head: Manifest, limits: Cost) returns (ok: bool)
    ensures ok <==> Readable(u, actor, head, limits)
  {
    hide ClosureFits, FramesFit, WellFormed, ObjectGraph, Digests, Sorted;
    var ids := TraverseObjects(u, head, limits);
    if ids.None? {
      return false;
    }
    var framed := FrameObjects(u, ids.value, limits.decoded);
    if !framed {
      return false;
    }
    GraphOfHistory(head);
    var depth := GraphDepth(ObjectGraph(head), limits.depth);
    DepthDecides(ObjectGraph(head), HistoryDepth(head) + 2, limits.depth);
    if depth.None? {
      return false;
    }
    ok := CheckManifest(u, actor, head, limits);
  }

  method CheckManifest(u: Universe, actor: Actor, head: Manifest, limits: Cost) returns (ok: bool)
    ensures ok <==> WellFormed(u, actor, head, limits)
  {
    if head.actor != actor || |head.records| == 0 || |head.records| > limits.events {
      return false;
    }
    for k := 0 to |head.records|
      invariant forall i :: 0 <= i < k ==> u.actor(head.records[i]) == actor
      invariant forall i, j :: 0 <= i < j < k ==> head.records[i] < head.records[j]
    {
      if u.actor(head.records[k]) != actor || (k > 0 && head.records[k - 1] >= head.records[k]) {
        return false;
      }
    }
    ok := u.canonical(head);
  }

  lemma DepthDecides(g: Graph<GitObject>, d: nat, limit: nat)
    requires IsDepth(g, d) && |g| > 0
    ensures ShortPaths(g, limit) <==> d <= limit
  {
  }

  /** What installing a commit demands once its objects are written. */
  predicate Installable(u: Universe, head: Manifest, limits: Cost) {
    ClosureFits(u, head, limits) && HistoryDepth(head) + 1 <= limits.depth
  }
}
