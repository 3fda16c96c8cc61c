/** Loaded artifact histories: what validation accepts, current record heads, and the
    dependencies that a portable closure must carry. */
module History {
  import opened Basics

  datatype Mode = Logical | Revision

  datatype Link = Link(target: Id, mode: Mode, required: bool)

  /** One verified envelope. `fields` and `schema` stand for structured field values and
      for the values a declaration accepts; `typeRevision`, `fields`, `conversions` and
      `links` belong to records, `version` and `schema` to type declarations. */
  datatype Artifact = Artifact(
    actor: Actor,
    operation: Operation,
    kind: Kind,
    previous: Option<Id>,
    record: Option<Id>,
    parents: seq<Id>,
    typeId: nat,
    shape: nat,
    version: nat,
    schema: set<nat>,
    typeRevision: Id,
    fields: nat,
    conversions: seq<Id>,
    links: seq<Link>)
  {
    predicate IsRecord() { kind != TypePublish }
  }

  datatype History = History(byId: map<Id, Artifact>, chains: map<Actor, seq<Id>>)

  const READ_ENTRIES: nat := 100000

  // ---------------------------------------------------------------- validation

  /** What verifying one envelope alone establishes about its lineage fields. */
  ghost predicate EnvelopeOk(a: Artifact) {
    && Increasing(a.parents) && Increasing(a.conversions)
    && (a.record.None? <==> a.kind in {TypePublish, RecordOpen})
    && match a.kind
       case TypePublish => |a.parents| <= 1 && a.conversions == [] && a.links == []
       case RecordOpen => a.parents == [] && a.conversions == []
       case RecordRevise => |a.parents| == 1 && a.conversions == []
       case RecordConvert => |a.parents| == 1 && a.conversions == a.parents
       case RecordResolve => a.parents != [] && SetOf(a.conversions) <= SetOf(a.parents)
  }

  ghost predicate EnvelopesOk(h: History) {
    forall id :: id in h.byId ==> EnvelopeOk(h.byId[id])
  }

  predicate SameType(a: Artifact, b: Artifact) {
    a.typeId == b.typeId && a.shape == b.shape
  }

  /** A required target is present, and a present target has the right lineage. */
  ghost predicate LinkOk(h: History, l: Link) {
    if l.target !in h.byId then !l.required
    else h.byId[l.target].IsRecord() && (l.mode == Logical ==> h.byId[l.target].kind == RecordOpen)
  }

  ghost predicate LinksOk(h: History, a: Artifact) {
    forall l :: l in a.links ==> LinkOk(h, l)
  }

  /** The parent is a declaration of the same type and shape with a lower version. */
  ghost predicate EvolvesFrom(h: History, a: Artifact, p: Id) {
    && p in h.byId && h.byId[p].kind == TypePublish
    && SameType(h.byId[p], a) && h.byId[p].version < a.version
  }

  ghost predicate DeclarationOk(h: History, a: Artifact) {
    forall p :: p in a.parents ==> EvolvesFrom(h, a, p)
  }

  /** The rules for one parent of a successor of record `logical`, conversions aside. */
  ghost predicate Kin(h: History, a: Artifact, logical: Id, p: Id) {
    && p in h.byId && h.byId[p].IsRecord() && SameType(a, h.byId[p])
    && (if h.byId[p].kind == RecordOpen then p == logical else h.byId[p].record == Some(logical))
    && (a.kind == RecordRevise ==> h.byId[p].typeRevision == a.typeRevision)
    && (a.kind == RecordConvert ==> h.byId[p].typeRevision != a.typeRevision)
  }

  ghost predicate ParentOk(h: History, a: Artifact, logical: Id, p: Id) {
    Kin(h, a, logical, p) && (p in a.conversions <==> h.byId[p].typeRevision != a.typeRevision)
  }

  ghost predicate RecordOk(h: History, a: Artifact) {
    && a.typeRevision in h.byId && h.byId[a.typeRevision].kind == TypePublish
    && SameType(a, h.byId[a.typeRevision]) && a.fields in h.byId[a.typeRevision].schema
    && (a.record.Some? ==>
          && a.record.value in h.byId && h.byId[a.record.value].kind == RecordOpen
          && SameType(a, h.byId[a.record.value])
          && forall p :: p in a.parents ==> ParentOk(h, a, a.record.value, p))
    && LinksOk(h, a)
  }

  ghost predicate ArtifactOk(h: History, a: Artifact) {
    if a.IsRecord() then RecordOk(h, a) else DeclarationOk(h, a)
  }

  ghost predicate Validates(h: History) {
    && (forall id :: id in h.byId ==> ArtifactOk(h, h.byId[id]))
    && forall i, j :: i in h.byId && j in h.byId && i != j ==>
         (h.byId[i].actor, h.byId[i].operation) != (h.byId[j].actor, h.byId[j].operation)
  }

  /** Every artifact lies on its actor's chain, and each chain is linked by `previous`. */
  ghost predicate Chained(h: History) {
    && (forall id :: id in h.byId ==>
          h.byId[id].actor in h.chains && id in h.chains[h.byId[id].actor])
    && forall a :: a in h.chains ==> h.chains[a] != [] && Linked(h, a, h.chains[a])
  }

  ghost predicate Linked(h: History, actor: Actor, chain: seq<Id>) {
    forall i :: 0 <= i < |chain| ==>
      && chain[i] in h.byId && h.byId[chain[i]].actor == actor
      && h.byId[chain[i]].previous == if i == 0 then None else Some(chain[i - 1])
  }

  lemma LinkedAt(h: History, a: Actor, chain: seq<Id>, i: nat)
    requires Linked(h, a, chain) && i < |chain|
    ensures chain[i] in h.byId && h.byId[chain[i]].actor == a
    ensures h.byId[chain[i]].previous == if i == 0 then None else Some(chain[i - 1])
  {
  }

  /** What a successful load guarantees. */
  ghost predicate Loaded(h: History) {
    && EnvelopesOk(h) && Validates(h) && Chained(h) && |h.byId| <= READ_ENTRIES
  }

  /** IDs are content hashes, so some rank falls from each artifact to its parents. */
  ghost predicate Ranked(h: History, rank: map<Id, nat>) {
    && h.byId.Keys <= rank.Keys
    && forall id, p :: id in h.byId && p in h.byId[id].parents && p in h.byId ==> rank[p] < rank[id]
  }

  // ---------------------------------------------------------------- heads

  predicate InRecord(h: History, id: Id, opening: Id)
    requires id in h.byId
  {
    (h.byId[id].kind == RecordOpen && id == opening) || h.byId[id].record == Some(opening)
  }

  function Revisions(h: History, opening: Id): set<Id> {
    set id | id in h.byId && InRecord(h, id, opening)
  }

  /** Some revision of the record names `id` as a parent. */
  ghost predicate Superseded(h: History, id: Id, opening: Id) {
    exists c :: c in h.byId && h.byId[c].record == Some(opening) && id in h.byId[c].parents
  }

  ghost function Heads(h: History, opening: Id): set<Id> {
    set id | id in Revisions(h, opening) && !Superseded(h, id, opening)
  }

  /** Walking up from a revision reaches a head: ranks are bounded, so it ends. */
  lemma {:induction false} ReachesHead(h: History, rank: map<Id, nat>, id: Id, opening: Id, bound: nat)
      returns (head: Id, path: seq<Id>)
    requires Ranked(h, rank) && id in Revisions(h, opening)
    requires forall x :: x in h.byId ==> rank[x] <= bound
    ensures head in Heads(h, opening)
    ensures path != [] && path[0] == id && path[|path| - 1] == head
    ensures forall i :: 0 <= i < |path| ==> path[i] in h.byId
    ensures forall i :: 0 <= i < |path| - 1 ==> path[i] in h.byId[path[i + 1]].parents
    decreases bound - rank[id]
  {
    if Superseded(h, id, opening) {
      var c :| c in h.byId && h.byId[c].record == Some(opening) && id in h.byId[c].parents;
      var rest;
      head, rest := ReachesHead(h, rank, c, opening, bound);
      path := [id] + rest;
    } else {
      head, path := id, [id];
    }
  }

  lemma {:induction false} RankBound(h: History, rank: map<Id, nat>, ids: set<Id>) returns (bound: nat)
    requires ids <= rank.Keys
    ensures forall x :: x in ids ==> rank[x] <= bound
    decreases |ids|
  {
    bound := 0;
    if ids != {} {
      var a :| a in ids;
      var rest := RankBound(h, rank, ids - {a});
      bound := if rank[a] < rest then rest else rank[a];
    }
  }
}
