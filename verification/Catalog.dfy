/** The record catalog: the one-pass head index against the
    per-record scan. */
module Catalog {
  import opened Basics
  import opened History

  // ---------------------------------------------------------------- per-record scan

  /** Collect the revisions of one record, then delete every parent they name. */
  method ScanHeads(h: History, opening: Id) returns (heads: set<Id>)
    ensures heads == Heads(h, opening)
  {
    heads := Revisions(h, opening);
    var rest := h.byId.Keys;
    while rest != {}
      invariant rest <= h.byId.Keys
      invariant heads == set id | id in Revisions(h, opening) &&
        !(exists c :: c in h.byId.Keys - rest && h.byId[c].record == Some(opening) && id in h.byId[c].parents)
      decreases |rest|
    {
      var c :| c in rest;
      if h.byId[c].record == Some(opening) {
        heads := heads - SetOf(h.byId[c].parents);
      }
      rest := rest - {c};
    }
  }

  method RecordHeads(h: History, opening: Id) returns (r: seq<Id>)
    ensures Increasing(r) && SetOf(r) == Heads(h, opening)
  {
    var heads := ScanHeads(h, opening);
    r := Sorted(heads);
  }

  method RecordHeadCount(h: History, opening: Id) returns (n: nat)
    ensures n == |Heads(h, opening)|
  {
    var heads := ScanHeads(h, opening);
    n := |heads|;
  }

  // ---------------------------------------------------------------- successor freshness

  method SameIds(a: seq<Id>, b: seq<Id>) returns (same: bool)
    ensures same <==> a == b
  {
    if |a| != |b| {
      return false;
    }
    for i := 0 to |a|
      invariant a[..i] == b[..i]
    {
      if a[i] != b[i] {
        return false;
      }
    }
    return true;
  }

  datatype Freshness = Current | ResourceConflict | StaleRevision

  /** A successor is current exactly when its parents are all the heads of its record,
      and only a resolution may have several. */
  method CheckHeads(h: History, kind: Kind, opening: Id, parents: seq<Id>) returns (r: Freshness)
    requires Increasing(parents)
    ensures r == ResourceConflict <==> kind != RecordResolve && |Heads(h, opening)| > 1
    ensures r == Current <==>
      SetOf(parents) == Heads(h, opening) && (kind == RecordResolve || |Heads(h, opening)| <= 1)
  {
    var heads := RecordHeads(h, opening);
    IncreasingLength(heads);
    if kind != RecordResolve && |heads| > 1 {
      return ResourceConflict;
    }
    var same := SameIds(parents, heads);
    if SetOf(parents) == Heads(h, opening) {
      SameMembersSameList(parents, heads);
    }
    return if same then Current else StaleRevision;
  }

  // ---------------------------------------------------------------- one-pass index

  datatype Catalog = Catalog(records: map<Id, seq<Id>>, heads: map<Id, seq<Id>>)

  /** The lineage conditions the catalog re-checks for one record artifact. */
  ghost predicate Catalogued(h: History, id: Id)
    requires id in h.byId
  {
    var a := h.byId[id];
    var logical := if a.kind == RecordOpen then Some(id) else a.record;
    && logical.Some? && logical.value in h.byId
    && h.byId[logical.value].kind == RecordOpen
    && SameType(a, h.byId[logical.value])
    && forall p :: p in a.parents ==>
         && p in h.byId && h.byId[p].IsRecord()
         && (if h.byId[p].kind == RecordOpen then Some(p) else h.byId[p].record) == logical
  }

  function Openings(h: History): set<Id> {
    set id | id in h.byId && h.byId[id].kind == RecordOpen
  }

  /** Revisions that nothing in the history, of whatever record or kind, has as parent. */
  ghost function IndexHeads(h: History, opening: Id): set<Id> {
    set id | id in Revisions(h, opening) && !(exists c :: c in h.byId && id in h.byId[c].parents)
  }

  ghost predicate Indexable(h: History) {
    && |h.byId| <= READ_ENTRIES
    && AllCatalogued(h, h.byId.Keys)
    && forall o :: o in Openings(h) ==> IndexHeads(h, o) != {}
  }

  /** The record an artifact is filed under. */
  function Filed(h: History, id: Id): Option<Id>
    requires id in h.byId
  {
    if h.byId[id].kind == RecordOpen then Some(id) else h.byId[id].record
  }

  ghost function FiledUnder(h: History, ids: set<Id>, opening: Id): set<Id> {
    set id | id in ids && id in h.byId && Filed(h, id) == Some(opening)
  }

  ghost predicate Grouped(h: History, records: map<Id, set<Id>>, done: set<Id>) {
    && (forall o: Id :: o in records <==> FiledUnder(h, done, o) != {})
    && forall o :: o in records ==> records[o] == FiledUnder(h, done, o)
  }

  function Insert(records: map<Id, set<Id>>, o: Id, id: Id): map<Id, set<Id>> {
    records[o := (if o in records then records[o] else {}) + {id}]
  }

  lemma GroupedNext(h: History, records: map<Id, set<Id>>, done: set<Id>, id: Id)
    requires Grouped(h, records, done) && id in h.byId
    ensures Filed(h, id).None? ==> Grouped(h, records, done + {id})
    ensures Filed(h, id).Some? ==> Grouped(h, Insert(records, Filed(h, id).value, id), done + {id})
  {
  }

  ghost predicate AllCatalogued(h: History, done: set<Id>) {
    forall id :: id in done && id in h.byId && h.byId[id].IsRecord() ==> Catalogued(h, id)
  }

  lemma NothingGrouped(h: History)
    ensures Grouped(h, map[], {})
  {
  }

  /** Once everything is filed, the groups are the records' revisions. */
  lemma GroupsAreRevisions(h: History, records: map<Id, set<Id>>)
    requires EnvelopesOk(h) && AllCatalogued(h, h.byId.Keys) && Grouped(h, records, h.byId.Keys)
    ensures records.Keys == Openings(h)
    ensures forall o :: o in records ==> records[o] == Revisions(h, o)
  {
    forall o: Id
      ensures FiledUnder(h, h.byId.Keys, o) == Revisions(h, o)
      ensures o in Openings(h) <==> Revisions(h, o) != {}
    {
      if o in Openings(h) {
        assert o in Revisions(h, o);
      }
      forall id | id in Revisions(h, o) ensures o in Openings(h) {
        assert EnvelopeOk(h.byId[id]);
      }
    }
  }

  lemma AllCataloguedNone(h: History)
    ensures AllCatalogued(h, {})
  {
  }

  lemma AllCataloguedNext(h: History, done: set<Id>, id: Id)
    requires AllCatalogued(h, done) && id in h.byId && (h.byId[id].kind != TypePublish ==> Catalogued(h, id))
    ensures AllCatalogued(h, done + {id})
  {
    hide Catalogued;
  }

  lemma NotCatalogued(h: History, id: Id)
    requires id in h.byId && h.byId[id].kind != TypePublish && !Catalogued(h, id)
    ensures !AllCatalogued(h, h.byId.Keys)
  {
    hide Catalogued;
  }

  lemma RecordsAreFiled(h: History, id: Id)
    requires EnvelopesOk(h) && id in h.byId
    ensures Filed(h, id).Some? <==> h.byId[id].kind != TypePublish
  {
    assert EnvelopeOk(h.byId[id]);
  }

  method CheckCatalogued(h: History, id: Id) returns (ok: bool)
    requires id in h.byId
    ensures ok <==> Catalogued(h, id)
  {
    var a := h.byId[id];
    var logical := if a.kind == RecordOpen then Some(id) else a.record;
    if logical == None || logical.value !in h.byId || h.byId[logical.value].kind != RecordOpen {
      return false;
    }
    var opening := h.byId[logical.value];
    if a.typeId != opening.typeId || a.shape != opening.shape {
      return false;
    }
    for i := 0 to |a.parents|
      invariant forall p :: p in a.parents[..i] ==>
        p in h.byId && h.byId[p].IsRecord() && Filed(h, p) == logical
    {
      var p := a.parents[i];
      if p !in h.byId || h.byId[p].kind == TypePublish {
        return false;
      }
      if (h.byId[p].kind == RecordOpen && p != logical.value)
         || (h.byId[p].kind != RecordOpen && h.byId[p].record != logical)
      {
        return false;
      }
    }
    return true;
  }

  /** Group record artifacts by logical record, or refuse. */
  method IndexRecords(h: History) returns (ok: bool, records: map<Id, set<Id>>)
    requires EnvelopesOk(h)
    ensures ok <==> AllCatalogued(h, h.byId.Keys)
    ensures ok ==> records.Keys == Openings(h)
    ensures ok ==> forall o :: o in records ==> records[o] == Revisions(h, o)
  {
    hide Catalogued, Grouped, Insert, EnvelopesOk, AllCatalogued, Openings, Revisions, Filed;
    records := map[];
    var rest := h.byId.Keys;
    ghost var done: set<Id> := {};
    NothingGrouped(h);
    AllCataloguedNone(h);
    while rest != {}
      invariant rest <= h.byId.Keys && done == h.byId.Keys - rest
      invariant AllCatalogued(h, done) && Grouped(h, records, done)
      decreases |rest|
    {
      var id :| id in rest;
      if h.byId[id].kind != TypePublish {
        var fine := CheckCatalogued(h, id);
        if !fine {
          NotCatalogued(h, id);
          return false, records;
        }
      }
      GroupedNext(h, records, done, id);
      AllCataloguedNext(h, done, id);
      RecordsAreFiled(h, id);
      if h.byId[id].kind != TypePublish {
        records := Insert(records, Filed(h, id).value, id);
      }
      rest, done := rest - {id}, done + {id};
    }
    assert done == h.byId.Keys;
    GroupsAreRevisions(h, records);
    ok := true;
  }

  /** Delete every parent named anywhere from the active revisions. */
  method ActiveRevisions(h: History, revisions: set<Id>) returns (active: set<Id>)
    ensures active == set id | id in revisions && !(exists c :: c in h.byId && id in h.byId[c].parents)
  {
    active := revisions;
    var rest := h.byId.Keys;
    while rest != {}
      invariant rest <= h.byId.Keys
      invariant active == set id | id in revisions &&
        !(exists c :: c in h.byId.Keys - rest && id in h.byId[c].parents)
      decreases |rest|
    {
      var c :| c in rest;
      active, rest := active - SetOf(h.byId[c].parents), rest - {c};
    }
  }

  /** List revisions and active revisions of every record, or find one without any. */
  method ListHeads(records: map<Id, set<Id>>, active: set<Id>) returns (r: Option<Catalog>)
    ensures r.Some? <==> forall o :: o in records ==> records[o] * active != {}
    ensures r.Some? ==> r.value.records.Keys == r.value.heads.Keys == records.Keys
    ensures r.Some? ==> forall o :: o in records ==>
      && r.value.records[o] == Sorted(records[o])
      && r.value.heads[o] == Sorted(records[o] * active)
  {
    hide Sorted, SetOf, Increasing;
    var sorted, heads: map<Id, seq<Id>> := map[], map[];
    var rest := records.Keys;
    while rest != {}
      invariant rest <= records.Keys
      invariant sorted.Keys == heads.Keys == records.Keys - rest
      invariant forall o :: o in sorted ==>
        && records[o] * active != {}
        && sorted[o] == Sorted(records[o]) && heads[o] == Sorted(records[o] * active)
      decreases |rest|
    {
      var o :| o in rest;
      if records[o] * active == {} {
        return None;
      }
      sorted, heads := sorted[o := Sorted(records[o])], heads[o := Sorted(records[o] * active)];
      rest := rest - {o};
    }
    r := Some(Catalog(sorted, heads));
  }

  lemma ActiveIsIndex(h: History, records: map<Id, set<Id>>, all: set<Id>, active: set<Id>, o: Id)
    requires o in records && records[o] == Revisions(h, o) && records[o] <= all
    requires active == set id | id in all && !(exists c :: c in h.byId && id in h.byId[c].parents)
    ensures records[o] * active == IndexHeads(h, o)
  {
  }

  /** Build the catalog, or refuse; every edge of the history is visited once. */
  method BuildCatalog(h: History) returns (r: Option<Catalog>)
    requires EnvelopesOk(h)
    ensures r.Some? <==> Indexable(h)
    ensures r.Some? ==> r.value.records.Keys == r.value.heads.Keys == Openings(h)
    ensures r.Some? ==> forall o :: o in Openings(h) ==>
      && r.value.records[o] == Sorted(Revisions(h, o))
      && r.value.heads[o] == Sorted(IndexHeads(h, o))
  {
    hide *;
    if |h.byId| > READ_ENTRIES {
      IndexableMeans(h);
      return None;
    }
    var ok, records := IndexRecords(h);
    IndexableMeans(h);
    if !ok {
      return None;
    }
    var active := IndexActive(h, records);
    r := ListHeads(records, active);
  }

  lemma IndexableMeans(h: History)
    ensures Indexable(h) <==>
      && |h.byId| <= READ_ENTRIES && AllCatalogued(h, h.byId.Keys)
      && forall o :: o in Openings(h) ==> IndexHeads(h, o) != {}
  {
  }

  /** The active ones among the revisions of each record are its heads. */
  method IndexActive(h: History, records: map<Id, set<Id>>) returns (active: set<Id>)
    requires forall o :: o in records ==> records[o] == Revisions(h, o)
    ensures forall o :: o in records ==> records[o] * active == IndexHeads(h, o)
  {
    hide Revisions, IndexHeads;
    var all := set o, id | o in records && id in records[o] :: id;
    active := ActiveRevisions(h, all);
    forall o | o in records ensures records[o] * active == IndexHeads(h, o) {
      ActiveIsIndex(h, records, all, active, o);
    }
  }

  // ---------------------------------------------------------------- the two forms agree

  /** On a validated history a parent of any artifact belongs to that artifact's own
      record, so the global index and the per-record scan see the same heads. */
  lemma IndexEqualsScan(h: History, opening: Id)
    requires EnvelopesOk(h) && Validates(h)
    ensures IndexHeads(h, opening) == Heads(h, opening)
  {
  }

  /** Acyclic ancestry leaves every record a head. */
  lemma EveryRecordHasHead(h: History, rank: map<Id, nat>, opening: Id)
    requires Ranked(h, rank) && opening in Openings(h)
    ensures Heads(h, opening) != {}
  {
    var bound := RankBound(h, rank, h.byId.Keys);
    var head, _ := ReachesHead(h, rank, opening, opening, bound);
  }

  lemma ValidIsCatalogued(h: History, id: Id)
    requires EnvelopesOk(h) && Validates(h) && id in h.byId && h.byId[id].IsRecord()
    ensures Catalogued(h, id)
  {
  }

  /** A loaded history always has a catalog: no refusal of its construction, the
      no-head one included, is reachable. */
  lemma LoadedIsIndexable(h: History, rank: map<Id, nat>)
    requires Loaded(h) && Ranked(h, rank)
    ensures Indexable(h)
  {
    forall id | id in h.byId && h.byId[id].IsRecord() ensures Catalogued(h, id) {
      ValidIsCatalogued(h, id);
    }
    forall o | o in Openings(h) ensures IndexHeads(h, o) != {} {
      IndexEqualsScan(h, o);
      EveryRecordHasHead(h, rank, o);
    }
  }

  /** For every record of a loaded history the catalog's heads are the very list the
      per-record scan returns, and the counter counts them. */
  method HeadsBothWays(h: History, opening: Id, ghost rank: map<Id, nat>)
      returns (index: seq<Id>, scan: seq<Id>, count: nat)
    requires Loaded(h) && Ranked(h, rank) && opening in Openings(h)
    ensures index == scan && Increasing(index) && SetOf(index) == Heads(h, opening)
    ensures count == |index| && count >= 1
  {
    hide Sorted, Heads, IndexHeads, Validates, Chained;
    LoadedIsIndexable(h, rank);
    IndexEqualsScan(h, opening);
    EveryRecordHasHead(h, rank, opening);
    var c := BuildCatalog(h);
    index := c.value.heads[opening];
    scan := RecordHeads(h, opening);
    SameMembersSameList(index, scan);
    count := RecordHeadCount(h, opening);
    IncreasingLength(index);
  }
}
