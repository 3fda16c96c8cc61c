/** Signed artifacts, Git commits and actor streams.

    Digests are injective here: an artifact is its own ID, a commit its own object
    ID and a request its own request digest, so each value contains the values its
    content names. Ancestry is therefore acyclic by construction, as it is for
    content hashes. */
module Streams {
  import opened Basics

  /** The seven semantic fields; `payload` stands for the rest of the payload bytes.
      Parents are a strictly increasing list in the source, hence a set here. */
  datatype Request = Request(
    actor: Actor,
    operation: Operation,
    kind: Kind,
    record: Option<Artifact>,
    parents: set<Artifact>,
    payload: nat)

  datatype Artifact = Artifact(
    request: Request,
    timestamp: nat,
    sequence: nat,
    previous: Option<Artifact>)

  datatype Commit = Commit(artifact: Artifact, parent: Option<Commit>)

  /** The commits from genesis to `head`. */
  function Stream(head: Option<Commit>): (s: seq<Commit>)
    ensures head.Some? ==> s != [] && s[|s| - 1] == head.value
  {
    match head
    case None => []
    case Some(c) => Stream(c.parent) + [c]
  }

  /** Every commit belongs to `actor`, and sequence and predecessor agree with the
      Git parent all the way to genesis. */
  predicate ValidCommit(c: Commit, actor: Actor) {
    && c.artifact.request.actor == actor
    && match c.parent
       case None => c.artifact.sequence == 1 && c.artifact.previous == None
       case Some(p) =>
         && ValidCommit(p, actor)
         && c.artifact.sequence == p.artifact.sequence + 1
         && c.artifact.previous == Some(p.artifact)
  }

  predicate ValidHead(head: Option<Commit>, actor: Actor) {
    head.Some? ==> ValidCommit(head.value, actor)
  }

  ghost predicate Uses(s: seq<Commit>, operation: Operation) {
    exists c :: c in s && c.artifact.request.operation == operation
  }

  ghost predicate DistinctOperations(s: seq<Commit>) {
    forall i, j :: 0 <= i < j < |s| ==>
      s[i].artifact.request.operation != s[j].artifact.request.operation
  }

  /** A commit on a stream has its whole stream as a prefix of that stream. */
  lemma OnStreamIsPrefix(c: Commit, head: Option<Commit>)
    requires c in Stream(head)
    ensures Stream(Some(c)) <= Stream(head)
  {
  }

  lemma {:induction false} ValidOnStream(c: Commit, head: Option<Commit>, actor: Actor)
    requires ValidHead(head, actor) && c in Stream(head)
    ensures ValidCommit(c, actor)
  {
    if c != head.value {
      ValidOnStream(c, head.value.parent, actor);
    }
  }

  lemma {:induction false} SequenceIsPosition(head: Option<Commit>, actor: Actor)
    requires ValidHead(head, actor)
    ensures head.Some? ==> head.value.artifact.sequence == |Stream(head)|
  {
    if head.Some? {
      SequenceIsPosition(head.value.parent, actor);
    }
  }
}
