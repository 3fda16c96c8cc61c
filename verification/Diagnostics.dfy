/** Diagnostics of a record view: the walk over required links from its heads, and the
    notes it takes about absent and conflicting targets. */
module Diagnostics {
  import opened Basics
  import opened History
  import opened Catalog
  import opened Closure
  import opened Export

  /** Everything the links of the given artifacts are noted for. */
  ghost function NotesOver(h: History, s: set<Id>): set<Note> {
    set id, n | id in s && id in h.byId && n in NotesOn(h, h.byId[id].links) :: n
  }

  ghost predicate LinkClosed(h: History, s: set<Id>) {
    forall id :: id in s ==> id in h.byId && LinksNeed(h, h.byId[id].links) <= s
  }

  ghost predicate LinkWithin(h: History, roots: set<Id>, s: set<Id>) {
    forall t: set<Id> :: roots <= t && LinkClosed(h, t) ==> s <= t
  }

  /** The least set that contains the roots and is closed under required links. */
  ghost predicate IsReach(h: History, roots: set<Id>, s: set<Id>) {
    roots <= s && LinkClosed(h, s) && LinkWithin(h, roots, s)
  }

  // ---------------------------------------------------------------- the walk

  lemma ReachNeeds(h: History, roots: set<Id>, s: set<Id>, id: Id)
    requires LinkWithin(h, roots, s) && id in s && id in h.byId
    ensures LinkWithin(h, roots, s + LinksNeed(h, h.byId[id].links))
  {
  }

  ghost predicate Visited(h: History, ids: seq<Id>, offset: nat, seen: set<Id>)
    requires offset <= |ids|
  {
    forall k :: 0 <= k < offset ==> ids[k] in h.byId && LinksNeed(h, h.byId[ids[k]].links) <= seen
  }

  lemma VisitedNext(h: History, before: seq<Id>, offset: nat, seen: set<Id>, after: seq<Id>, more: set<Id>)
    requires offset < |before| && Visited(h, before, offset, seen) && Continues(before, after) && seen <= more
    requires before[offset] in h.byId && LinksNeed(h, h.byId[before[offset]].links) <= more
    ensures offset + 1 <= |after| && Visited(h, after, offset + 1, more)
  {
  }

  lemma NotesOverNext(h: History, before: seq<Id>, offset: nat, after: seq<Id>)
    requires offset < |before| && Continues(before, after) && before[offset] in h.byId
    ensures offset + 1 <= |after| && after[..offset + 1] == before[..offset] + [before[offset]]
    ensures NotesOver(h, SetOf(after[..offset + 1])) ==
      NotesOver(h, SetOf(before[..offset])) + NotesOn(h, h.byId[before[offset]].links)
  {
  }

  lemma ReachIs(h: History, roots: set<Id>, ids: seq<Id>, seen: set<Id>)
    requires SetOf(ids) == seen && roots <= seen && LinkWithin(h, roots, seen) && Visited(h, ids, |ids|, seen)
    ensures IsReach(h, roots, seen) && ids[..|ids|] == ids
  {
  }

  /** A history has one reach of given roots, so the notes are determined. */
  lemma ReachUnique(h: History, roots: set<Id>, s: set<Id>, t: set<Id>)
    requires IsReach(h, roots, s) && IsReach(h, roots, t)
    ensures s == t
  {
  }

  /** The diagnostics of a loaded history always come out, however its links cycle: one
      note for each link that deserves one on the artifacts that required links reach. */
  method Diagnose(h: History, heads: map<Id, seq<Id>>, roots: seq<Id>)
      returns (notes: set<Note>)
    requires Loaded(h) && HeadsListed(h, heads) && SetOf(roots) <= h.byId.Keys
    ensures exists reach :: IsReach(h, SetOf(roots), reach)
    ensures forall reach :: IsReach(h, SetOf(roots), reach) ==> notes == NotesOver(h, reach)
  {
    hide Loaded, LinksNeed, LinkOk, HeadLists, HeadsListed, LinkClosed, LinkWithin, SetOf, IsReach, NotesOver,
         NotesOn, Visited, Direct;
    Limited(h);
    ListsOf(h, heads);
    var q := new Queue();
    var refusal := EnqueueAll(h, q, roots);
    StartsWithin(h, SetOf(roots), q.ids);
    notes := {};
    var offset := 0;
    while offset < |q.ids|
      invariant q.Valid() && SetOf(roots) <= q.seen <= h.byId.Keys && offset <= |q.ids|
      invariant Visited(h, q.ids, offset, q.seen) && LinkWithin(h, SetOf(roots), q.seen)
      invariant notes == NotesOver(h, SetOf(q.ids[..offset]))
      decreases |h.byId| - offset
    {
      Subset(q.seen, h.byId.Keys);
      ghost var ids, seen := q.ids, q.seen;
      var id := q.ids[offset];
      Queued(q.ids, offset);
      NeedsPresent(h, id);
      ReachNeeds(h, SetOf(roots), seen, id);
      var links := h.byId[id].links;
      var more := NoteLinks(h, heads, links);
      refusal := EnqueueLinks(h, heads, q, links);
      VisitedNext(h, ids, offset, seen, q.ids, q.seen);
      NotesOverNext(h, ids, offset, q.ids);
      notes := notes + more;
      offset := offset + 1;
    }
    ReachIs(h, SetOf(roots), q.ids, q.seen);
    forall reach | IsReach(h, SetOf(roots), reach) ensures notes == NotesOver(h, reach) {
      ReachUnique(h, SetOf(roots), q.seen, reach);
    }
  }

  lemma StartsWithin(h: History, roots: set<Id>, ids: seq<Id>)
    ensures LinkWithin(h, roots, {} + roots) && Visited(h, ids, 0, roots)
    ensures NotesOver(h, SetOf(ids[..0])) == {}
  {
  }

  /** The diagnostics of one record of a loaded history, from its current heads. */
  method RecordDiagnostics(h: History, opening: Id, ghost rank: map<Id, nat>)
      returns (notes: set<Note>)
    requires Loaded(h) && Ranked(h, rank) && opening in Openings(h)
    ensures exists reach :: IsReach(h, Heads(h, opening), reach)
    ensures forall reach :: IsReach(h, Heads(h, opening), reach) ==> notes == NotesOver(h, reach)
  {
    hide Heads, IndexHeads, Validates, IsReach, NotesOver, Ranked, HeadsListed;
    LoadedIsIndexable(h, rank);
    var c := BuildCatalog(h);
    IndexEqualsScan(h, opening);
    CatalogLists(h, c.value.heads);
    HeadsInside(h, opening);
    notes := Diagnose(h, c.value.heads, c.value.heads[opening]);
  }

  lemma HeadsInside(h: History, opening: Id)
    ensures Heads(h, opening) <= h.byId.Keys
  {
  }

  // ---------------------------------------------------------------- what notes mean

  /** On a loaded history no required target is ever missing. */
  lemma NothingRequiredIsMissing(h: History, s: set<Id>, n: Note)
    requires Loaded(h) && n in NotesOver(h, s)
    ensures n.code != MissingRequired
  {
    hide Loaded, LinkOk, Heads, Direct;
    var id :| id in s && id in h.byId && n in NotesOn(h, h.byId[id].links);
    NeedsPresent(h, id);
    var l :| l in h.byId[id].links && Noted(h, l).Some? && n == Noted(h, l).value;
    RequiredPresent(h, l);
  }

  lemma RequiredPresent(h: History, l: Link)
    requires LinkOk(h, l)
    ensures l.required ==> l.target in h.byId
  {
  }

  /** Exporting does not change what a required link is noted for: the re-read closure
      reports the same conflicts on required targets as the full history. */
  lemma RequiredNotesKept(h: History, rank: map<Id, nat>, s: set<Id>, id: Id, l: Link)
    requires Loaded(h) && Ranked(h, rank) && Closed(h, s)
    requires id in s && l in h.byId[id].links && l.required
    ensures Noted(Restrict(h, s), l) == Noted(h, l)
  {
    hide Loaded, Restrict, Heads, Ranked;
    LoadedEnvelopes(h);
    TargetInside(h, s, id, l);
    if l.mode == Logical {
      TargetHeadsKept(h, rank, s, id, l);
    }
  }

  lemma TargetInside(h: History, s: set<Id>, id: Id, l: Link)
    requires Closed(h, s) && id in s && l in h.byId[id].links && l.required
    ensures l.target in h.byId && l.target in Restrict(h, s).byId
  {
    assert l.target in LinkNeeds(h, l) && l.target in LinksNeed(h, h.byId[id].links);
    assert Needs(h, id) <= s;
  }
}
