/** History validation, check by check, and what an accepted history guarantees along its
    ancestry. */
module Validation {
  import opened Basics
  import opened History
  import opened Catalog

  // ---------------------------------------------------------------- the checks

  method ValidateDeclaration(h: History, a: Artifact) returns (ok: bool)
    ensures ok <==> DeclarationOk(h, a)
  {
    for i := 0 to |a.parents|
      invariant forall p :: p in a.parents[..i] ==> EvolvesFrom(h, a, p)
    {
      var id := a.parents[i];
      assert id in a.parents;
      if id !in h.byId || h.byId[id].kind != TypePublish {
        return false;
      }
      var prior := h.byId[id];
      if prior.typeId != a.typeId || prior.shape != a.shape || prior.version >= a.version {
        return false;
      }
    }
    return true;
  }

  method ValidateParent(h: History, a: Artifact, logical: Id, id: Id) returns (ok: bool, different: bool)
    ensures ok <==> Kin(h, a, logical, id)
    ensures ok ==> (different <==> h.byId[id].typeRevision != a.typeRevision)
  {
    if id !in h.byId || h.byId[id].kind == TypePublish {
      return false, false;
    }
    var p := h.byId[id];
    if p.typeId != a.typeId || p.shape != a.shape {
      return false, false;
    }
    if (p.kind == RecordOpen && id != logical) || (p.kind != RecordOpen && p.record != Some(logical)) {
      return false, false;
    }
    different := p.typeRevision != a.typeRevision;
    ok := !(a.kind == RecordRevise && different) && !(a.kind == RecordConvert && !different);
  }

  /** Parents in the first part of the list whose type revision differs. */
  ghost predicate ChangedAmong(h: History, a: Artifact, parents: seq<Id>, conversions: seq<Id>) {
    && Increasing(conversions)
    && forall p :: p in conversions <==> p in parents && p in h.byId && h.byId[p].typeRevision != a.typeRevision
  }

  lemma ChangedNext(h: History, a: Artifact, i: nat, conversions: seq<Id>)
    requires Increasing(a.parents) && i < |a.parents| && ChangedAmong(h, a, a.parents[..i], conversions)
    requires a.parents[i] in h.byId
    ensures
      var different := h.byId[a.parents[i]].typeRevision != a.typeRevision;
      ChangedAmong(h, a, a.parents[..i + 1], if different then conversions + [a.parents[i]] else conversions)
  {
    assert a.parents[..i + 1] == a.parents[..i] + [a.parents[i]];
    forall k | 0 <= k < |conversions| ensures conversions[k] < a.parents[i] {
      assert conversions[k] in conversions;
    }
  }

  /** The parents of a successor, and its list of conversion sources against the parents
      whose type revision differs. */
  method ValidateParents(h: History, a: Artifact, logical: Id) returns (ok: bool)
    requires EnvelopeOk(a) && a.record == Some(logical)
    ensures ok <==> forall p :: p in a.parents ==> ParentOk(h, a, logical, p)
  {
    hide ChangedAmong;
    var conversions := [];
    assert ChangedAmong(h, a, [], []) by {
      NoneChanged(h, a);
    }
    for i := 0 to |a.parents|
      invariant forall p :: p in a.parents[..i] ==> Kin(h, a, logical, p)
      invariant ChangedAmong(h, a, a.parents[..i], conversions)
    {
      var id := a.parents[i];
      assert id in a.parents;
      var kin, different := ValidateParent(h, a, logical, id);
      if !kin {
        return false;
      }
      ChangedNext(h, a, i, conversions);
      if different {
        conversions := conversions + [id];
      }
    }
    assert a.parents[..|a.parents|] == a.parents;
    ok := SameIds(a.conversions, conversions);
    ListedIsChanged(h, a, logical, conversions);
  }

  lemma NoneChanged(h: History, a: Artifact)
    ensures ChangedAmong(h, a, [], [])
  {
  }

  /** Comparing the lists element by element decides the rule for every parent. */
  lemma ListedIsChanged(h: History, a: Artifact, logical: Id, conversions: seq<Id>)
    requires EnvelopeOk(a) && a.record.Some? && ChangedAmong(h, a, a.parents, conversions)
    requires forall p :: p in a.parents ==> Kin(h, a, logical, p)
    ensures a.conversions == conversions <==> forall p :: p in a.parents ==> ParentOk(h, a, logical, p)
  {
    if forall p :: p in a.parents ==> ParentOk(h, a, logical, p) {
      forall p ensures p in a.conversions <==> p in conversions {
        if p in a.conversions {
          assert p in SetOf(a.conversions) && p in SetOf(a.parents);
        }
      }
      SameMembersSameList(a.conversions, conversions);
    }
  }

  method ValidateLinks(h: History, links: seq<Link>) returns (ok: bool)
    ensures ok <==> forall l :: l in links ==> LinkOk(h, l)
  {
    for i := 0 to |links|
      invariant forall l :: l in links[..i] ==> LinkOk(h, l)
    {
      var l := links[i];
      assert l in links;
      if l.target !in h.byId {
        if l.required {
          return false;
        }
      } else {
        var kind := h.byId[l.target].kind;
        if kind == TypePublish || (l.mode == Logical && kind != RecordOpen) {
          return false;
        }
      }
    }
    return true;
  }

  method ValidateRecord(h: History, a: Artifact) returns (ok: bool)
    requires EnvelopeOk(a)
    ensures ok <==> RecordOk(h, a)
  {
    hide LinkOk, ParentOk, EnvelopeOk;
    if a.typeRevision !in h.byId || h.byId[a.typeRevision].kind != TypePublish {
      return false;
    }
    var declaration := h.byId[a.typeRevision];
    if a.typeId != declaration.typeId || a.shape != declaration.shape || a.fields !in declaration.schema {
      return false;
    }
    if a.record.Some? {
      if a.record.value !in h.byId || h.byId[a.record.value].kind != RecordOpen {
        return false;
      }
      var opening := h.byId[a.record.value];
      if a.typeId != opening.typeId || a.shape != opening.shape {
        return false;
      }
      var parents := ValidateParents(h, a, a.record.value);
      if !parents {
        return false;
      }
    }
    ok := ValidateLinks(h, a.links);
  }

  /** One pass in any order, refusing a second artifact for an actor's operation. */
  method Validate(h: History) returns (ok: bool)
    requires EnvelopesOk(h)
    ensures ok <==> Validates(h)
  {
    hide RecordOk, DeclarationOk, EnvelopeOk;
    var ops: set<(Actor, Operation)> := {};
    var rest := h.byId.Keys;
    while rest != {}
      invariant rest <= h.byId.Keys
      invariant forall id :: id in h.byId && id !in rest ==> ArtifactOk(h, h.byId[id])
      invariant forall o :: o in ops <==>
        exists id :: id in h.byId && id !in rest && o == (h.byId[id].actor, h.byId[id].operation)
      invariant forall i, j :: i in h.byId && j in h.byId && i != j && i !in rest && j !in rest ==>
        (h.byId[i].actor, h.byId[i].operation) != (h.byId[j].actor, h.byId[j].operation)
      decreases |rest|
    {
      var id :| id in rest;
      var a := h.byId[id];
      if (a.actor, a.operation) in ops {
        return false;
      }
      var fine;
      if a.kind == TypePublish {
        fine := ValidateDeclaration(h, a);
      } else {
        fine := ValidateRecord(h, a);
      }
      if !fine {
        assert !ArtifactOk(h, h.byId[id]);
        return false;
      }
      ops, rest := ops + {(a.actor, a.operation)}, rest - {id};
    }
    return true;
  }

  // ---------------------------------------------------------------- along the ancestry

  /** Each artifact of the path is a parent of the next. */
  ghost predicate Descent(h: History, path: seq<Id>) {
    && path != [] && (forall k :: 0 <= k < |path| ==> path[k] in h.byId)
    && forall k :: 0 < k < |path| ==> path[k - 1] in h.byId[path[k]].parents
  }

  lemma DescentPrefix(h: History, path: seq<Id>)
    requires Descent(h, path) && |path| > 1
    ensures Descent(h, path[..|path| - 1]) && path[|path| - 2] in h.byId[path[|path| - 1]].parents
  {
  }

  /** Up to a declaration everything is a declaration of one type and shape, and the schema
      version rises with every step. */
  lemma {:induction false} DeclarationsRise(h: History, path: seq<Id>, i: nat)
    requires Validates(h) && Descent(h, path) && i < |path| && h.byId[path[|path| - 1]].kind == TypePublish
    ensures
      var first, last := h.byId[path[i]], h.byId[path[|path| - 1]];
      && first.kind == TypePublish && first.typeId == last.typeId && first.shape == last.shape
      && first.version + (|path| - 1 - i) <= last.version
    decreases |path|
  {
    hide Validates;
    var n := |path| - 1;
    if i < n {
      DescentPrefix(h, path);
      DeclarationEdge(h, path[n], path[n - 1]);
      DeclarationsRise(h, path[..n], i);
    }
  }

  lemma DeclarationEdge(h: History, id: Id, p: Id)
    requires Validates(h) && id in h.byId && h.byId[id].kind == TypePublish && p in h.byId[id].parents
    ensures p in h.byId && h.byId[p].kind == TypePublish
    ensures h.byId[p].typeId == h.byId[id].typeId && h.byId[p].shape == h.byId[id].shape
    ensures h.byId[p].version < h.byId[id].version
  {
    assert ArtifactOk(h, h.byId[id]);
  }

  /** A revision of a record is a record of the opening's type and shape, and so is every
      artifact it descends from, down to the opening itself. */
  lemma {:induction false} RevisionsKeepType(h: History, path: seq<Id>, i: nat, opening: Id)
    requires EnvelopesOk(h) && Validates(h) && Descent(h, path) && i < |path|
    requires path[|path| - 1] in Revisions(h, opening)
    ensures opening in h.byId && h.byId[opening].kind == RecordOpen && path[i] in Revisions(h, opening)
    ensures h.byId[path[i]].typeId == h.byId[opening].typeId && h.byId[path[i]].shape == h.byId[opening].shape
    ensures h.byId[path[i]].kind == RecordOpen ==> path[i] == opening && i == 0
    decreases |path|
  {
    hide Validates, EnvelopesOk, Revisions;
    var n := |path| - 1;
    RevisionOf(h, path[n], opening);
    if i < n {
      DescentPrefix(h, path);
      RecordEdge(h, path[n], path[n - 1], opening);
      RevisionsKeepType(h, path[..n], i, opening);
    } else if h.byId[path[n]].kind == RecordOpen && n > 0 {
      DescentPrefix(h, path);
      NoParents(h, path[n], path[n - 1]);
    }
  }

  lemma NoParents(h: History, id: Id, p: Id)
    requires EnvelopesOk(h) && id in h.byId && p in h.byId[id].parents
    ensures h.byId[id].kind != RecordOpen
  {
    assert EnvelopeOk(h.byId[id]);
  }

  lemma RevisionOf(h: History, id: Id, opening: Id)
    requires EnvelopesOk(h) && Validates(h) && id in Revisions(h, opening)
    ensures opening in h.byId && h.byId[opening].kind == RecordOpen
    ensures h.byId[id].typeId == h.byId[opening].typeId && h.byId[id].shape == h.byId[opening].shape
    ensures h.byId[id].kind == RecordOpen ==> id == opening
  {
    hide LinkOk, ParentOk;
    assert EnvelopeOk(h.byId[id]) && ArtifactOk(h, h.byId[id]);
  }

  /** A parent of a revision is a revision of the same record. A plain revision keeps its
      parent's type revision and a conversion changes it; whatever the kind, the edge
      changes it exactly when the parent is listed as a conversion source. */
  lemma RecordEdge(h: History, id: Id, p: Id, opening: Id)
    requires EnvelopesOk(h) && Validates(h) && id in Revisions(h, opening) && p in h.byId[id].parents
    ensures p in Revisions(h, opening)
    ensures h.byId[id].kind == RecordRevise ==> h.byId[p].typeRevision == h.byId[id].typeRevision
    ensures h.byId[id].kind == RecordConvert ==> h.byId[p].typeRevision != h.byId[id].typeRevision
    ensures p in h.byId[id].conversions <==> h.byId[p].typeRevision != h.byId[id].typeRevision
  {
    hide LinkOk, LinksOk;
    var a := h.byId[id];
    assert EnvelopeOk(a) && ArtifactOk(h, a);
    assert a.record == Some(opening);
    assert ParentOk(h, a, opening, p);
  }

  /** Every record's fields lie in the schema of a present declaration of its own type. */
  lemma FieldsFitSchema(h: History, id: Id)
    requires Validates(h) && id in h.byId && h.byId[id].kind != TypePublish
    ensures
      var a := h.byId[id];
      && a.typeRevision in h.byId && h.byId[a.typeRevision].kind == TypePublish
      && h.byId[a.typeRevision].typeId == a.typeId && h.byId[a.typeRevision].shape == a.shape
      && a.fields in h.byId[a.typeRevision].schema
  {
    hide LinkOk, LinksOk, ParentOk;
    assert ArtifactOk(h, h.byId[id]);
  }

  /** The edge from a parent is listed as a conversion. */
  ghost predicate Converts(h: History, path: seq<Id>, k: int)
    requires Descent(h, path)
  {
    0 < k < |path| && path[k - 1] in h.byId[path[k]].conversions
  }

  /** Between two revisions that differ in type revision lies a listed conversion: without
      one, every revision on the way is read with the same declaration. */
  lemma {:induction false} OnlyConversionsChange(h: History, path: seq<Id>, i: nat, opening: Id)
    requires EnvelopesOk(h) && Validates(h) && Descent(h, path) && i < |path|
    requires path[|path| - 1] in Revisions(h, opening)
    requires forall k :: i < k < |path| ==> !Converts(h, path, k)
    ensures h.byId[path[i]].typeRevision == h.byId[path[|path| - 1]].typeRevision
    decreases |path|
  {
    hide Validates, EnvelopesOk, Revisions;
    var n := |path| - 1;
    if i < n {
      DescentPrefix(h, path);
      RecordEdge(h, path[n], path[n - 1], opening);
      assert !Converts(h, path, n);
      forall k | i < k < n ensures !Converts(h, path[..n], k) {
        assert !Converts(h, path, k);
      }
      OnlyConversionsChange(h, path[..n], i, opening);
    }
  }
}
