/** The dependency closure used for export: worklist, least closed set, actor prefixes,
    and what the exported part of a history keeps. */
module Closure {
  import opened Basics
  import opened History
  import opened Catalog

  datatype Code = InvalidInput | NotFound | IncompleteDependency | InvalidHistory | ResourceLimit

  // ---------------------------------------------------------------- dependencies

  /** Parents, previous, record, type revision and conversion sources. */
  function Direct(a: Artifact): seq<Id> {
    a.parents
    + (if a.previous.Some? then [a.previous.value] else [])
    + (if a.record.Some? then [a.record.value] else [])
    + (if a.IsRecord() then [a.typeRevision] + a.conversions else [])
  }

  /** What one link adds: a required target and, when logical, all its current heads. */
  ghost function LinkNeeds(h: History, l: Link): set<Id> {
    if !l.required then {}
    else {l.target} + if l.mode == Logical then Heads(h, l.target) else {}
  }

  ghost function Needs(h: History, id: Id): set<Id>
    requires id in h.byId
  {
    SetOf(Direct(h.byId[id])) + LinksNeed(h, h.byId[id].links)
  }

  ghost function LinksNeed(h: History, links: seq<Link>): set<Id> {
    set l, x | l in links && x in LinkNeeds(h, l) :: x
  }

  ghost predicate Closed(h: History, s: set<Id>) {
    forall id :: id in s ==> id in h.byId && Needs(h, id) <= s
  }

  /** The least set that contains the roots and everything its members need. */
  ghost predicate IsClosure(h: History, roots: set<Id>, s: set<Id>) {
    && roots <= s && Closed(h, s)
    && forall t: set<Id> :: roots <= t && Closed(h, t) ==> s <= t
  }

  lemma DirectMembers(a: Artifact, x: Id)
    ensures x in SetOf(Direct(a)) <==>
      || x in a.parents || a.previous == Some(x) || a.record == Some(x)
      || (a.IsRecord() && (x == a.typeRevision || x in a.conversions))
  {
  }

  lemma PreviousPresent(h: History, id: Id)
    requires Chained(h) && id in h.byId && h.byId[id].previous.Some?
    ensures h.byId[id].previous.value in h.byId
  {
    var chain := h.chains[h.byId[id].actor];
    var i :| 0 <= i < |chain| && chain[i] == id;
    LinkedAt(h, h.byId[id].actor, chain, i);
    if i > 0 {
      LinkedAt(h, h.byId[id].actor, chain, i - 1);
    }
  }

  lemma DirectPresent(h: History, id: Id, x: Id)
    requires Loaded(h) && id in h.byId && x in SetOf(Direct(h.byId[id]))
    ensures x in h.byId
  {
    var a := h.byId[id];
    DirectMembers(a, x);
    assert EnvelopeOk(a) && ArtifactOk(h, a);
    if a.previous == Some(x) {
      PreviousPresent(h, id);
    } else if x in SetOf(a.parents) && a.IsRecord() {
      assert ParentOk(h, a, a.record.value, x);
    } else if x in SetOf(a.conversions) {
      assert x in SetOf(a.parents);
    }
  }

  /** Every member of a loaded history finds its needs in that history. */
  lemma NeedsPresent(h: History, id: Id)
    requires Loaded(h) && id in h.byId
    ensures SetOf(Direct(h.byId[id])) <= h.byId.Keys
    ensures forall l :: l in h.byId[id].links ==> LinkOk(h, l)
  {
    hide Direct, DeclarationOk, Chained;
    forall x | x in SetOf(Direct(h.byId[id])) ensures x in h.byId {
      DirectPresent(h, id, x);
    }
    assert EnvelopeOk(h.byId[id]) && ArtifactOk(h, h.byId[id]);
  }

  // ---------------------------------------------------------------- worklist

  ghost predicate Continues(before: seq<Id>, after: seq<Id>) {
    before <= after
  }

  lemma ContinuesOn(a: seq<Id>, b: seq<Id>, c: seq<Id>)
    requires Continues(a, b) && Continues(b, c)
    ensures Continues(a, c)
  {
  }

  class Queue {
    var ids: seq<Id>
    var seen: set<Id>

    ghost predicate Valid()
      reads this
    {
      SetOf(ids) == seen && |ids| == |seen|
    }

    constructor ()
      ensures Valid() && ids == []
    {
      ids, seen := [], {};
    }

    /** Append an unseen ID, refusing beyond the read limit. */
    method Add(id: Id) returns (ok: bool)
      requires Valid()
      modifies this
      ensures Valid() && Continues(old(ids), ids)
      ensures ok <==> id in seen
      ensures seen == if ok then old(seen) + {id} else old(seen)
      ensures !ok ==> |seen| >= READ_ENTRIES
    {
      if id in seen {
        return true;
      }
      if |seen| >= READ_ENTRIES {
        return false;
      }
      seen := seen + {id};
      ids := ids + [id];
      return true;
    }
  }

  /** Enqueue one ID, which the history must hold. Within the read limit that is the
      only refusal. */
  method Enqueue(h: History, q: Queue, id: Id) returns (refusal: Option<Code>)
    requires q.Valid() && q.seen <= h.byId.Keys && |h.byId| <= READ_ENTRIES
    modifies q
    ensures q.Valid() && Continues(old(q.ids), q.ids) && q.seen <= h.byId.Keys
    ensures refusal == if id in h.byId then None else Some(IncompleteDependency)
    ensures q.seen == if id in h.byId then old(q.seen) + {id} else old(q.seen)
  {
    if id !in h.byId {
      return Some(IncompleteDependency);
    }
    if id !in q.seen {
      BelowLimit(h, q.seen, id);
    }
    var ok := q.Add(id);
    refusal := if ok then None else Some(ResourceLimit);
  }

  method EnqueueAll(h: History, q: Queue, wanted: seq<Id>) returns (refusal: Option<Code>)
    requires q.Valid() && q.seen <= h.byId.Keys && |h.byId| <= READ_ENTRIES
    modifies q
    ensures q.Valid() && Continues(old(q.ids), q.ids) && q.seen <= h.byId.Keys
    ensures refusal == None <==> SetOf(wanted) <= h.byId.Keys
    ensures refusal == None ==> q.seen == old(q.seen) + SetOf(wanted)
  {
    hide *;
    SetOfNone(wanted);
    NothingQueued(q.ids);
    refusal := None;
    for i := 0 to |wanted|
      invariant q.Valid() && Continues(old(q.ids), q.ids) && q.seen <= h.byId.Keys
      invariant q.seen == old(q.seen) + SetOf(wanted[..i])
      invariant refusal == None && SetOf(wanted[..i]) <= h.byId.Keys
    {
      SetOfNext(wanted, i);
      ghost var before := q.ids;
      refusal := Enqueue(h, q, wanted[i]);
      ContinuesOn(old(q.ids), before, q.ids);
      if refusal.Some? {
        return;
      }
    }
    assert wanted[..|wanted|] == wanted;
  }

  lemma NothingQueued(ids: seq<Id>)
    ensures Continues(ids, ids)
  {
  }

  lemma SetOfNone(s: seq<Id>)
    ensures SetOf(s[..0]) == {}
  {
  }

  lemma SetOfNext(s: seq<Id>, i: nat)
    requires i < |s|
    ensures SetOf(s[..i + 1]) == SetOf(s[..i]) + {s[i]} && s[i] in SetOf(s)
  {
  }

  lemma BelowLimit(h: History, seen: set<Id>, id: Id)
    requires seen <= h.byId.Keys && |h.byId| <= READ_ENTRIES && id in h.byId && id !in seen
    ensures |seen| < READ_ENTRIES
  {
    Subset(seen + {id}, h.byId.Keys);
  }

  ghost predicate HeadLists(h: History, heads: map<Id, seq<Id>>) {
    forall o :: o in Openings(h) ==> o in heads && SetOf(heads[o]) == Heads(h, o)
  }

  /** Follow one link; an optional one adds nothing. */
  method EnqueueLink(h: History, heads: map<Id, seq<Id>>, q: Queue, l: Link)
      returns (refusal: Option<Code>)
    requires q.Valid() && q.seen <= h.byId.Keys && |h.byId| <= READ_ENTRIES && HeadLists(h, heads)
    modifies q
    ensures q.Valid() && Continues(old(q.ids), q.ids) && q.seen <= h.byId.Keys
    ensures refusal == None <==> LinkOk(h, l)
    ensures refusal == None ==> q.seen == old(q.seen) + LinkNeeds(h, l)
  {
    if l.target !in h.byId {
      return if l.required then Some(IncompleteDependency) else None;
    }
    var kind := h.byId[l.target].kind;
    if kind == TypePublish || (l.mode == Logical && kind != RecordOpen) {
      return Some(InvalidHistory);
    }
    if !l.required {
      return None;
    }
    var wanted := [l.target] + if l.mode == Logical then heads[l.target] else [];
    assert SetOf(wanted) == LinkNeeds(h, l) <= h.byId.Keys;
    refusal := EnqueueAll(h, q, wanted);
  }

  /** Follow the links of one artifact. */
  method EnqueueLinks(h: History, heads: map<Id, seq<Id>>, q: Queue, links: seq<Link>)
      returns (refusal: Option<Code>)
    requires q.Valid() && q.seen <= h.byId.Keys && |h.byId| <= READ_ENTRIES && HeadLists(h, heads)
    modifies q
    ensures q.Valid() && Continues(old(q.ids), q.ids) && q.seen <= h.byId.Keys
    ensures refusal == None <==> forall l :: l in links ==> LinkOk(h, l)
    ensures refusal == None ==> q.seen == old(q.seen) + LinksNeed(h, links)
  {
    hide *;
    LinksNeedNone(h, links);
    NothingQueued(q.ids);
    refusal := None;
    for i := 0 to |links|
      invariant q.Valid() && Continues(old(q.ids), q.ids) && q.seen <= h.byId.Keys
      invariant refusal == None && forall l :: l in links[..i] ==> LinkOk(h, l)
      invariant q.seen == old(q.seen) + LinksNeed(h, links[..i])
    {
      LinksNeedNext(h, links, i);
      assert links[i] in links;
      ghost var before := q.ids;
      refusal := EnqueueLink(h, heads, q, links[i]);
      ContinuesOn(old(q.ids), before, q.ids);
      if refusal.Some? {
        return;
      }
    }
    assert links[..|links|] == links;
  }

  lemma LinksNeedNone(h: History, links: seq<Link>)
    ensures LinksNeed(h, links[..0]) == {}
  {
  }

  lemma LinksNeedNext(h: History, links: seq<Link>, i: nat)
    requires i < |links|
    ensures LinksNeed(h, links[..i + 1]) == LinksNeed(h, links[..i]) + LinkNeeds(h, links[i])
  {
  }

  /** No larger than any closed set that contains the roots. */
  ghost predicate Within(h: History, roots: set<Id>, s: set<Id>) {
    forall t: set<Id> :: roots <= t && Closed(h, t) ==> s <= t
  }

  lemma WithinNeeds(h: History, roots: set<Id>, s: set<Id>, id: Id)
    requires Within(h, roots, s) && id in s && id in h.byId
    ensures Within(h, roots, s + Needs(h, id))
  {
  }

  /** Follow the queue to its end. */
  method Drain(h: History, heads: map<Id, seq<Id>>, q: Queue, ghost roots: set<Id>)
    requires Loaded(h) && q.Valid() && q.seen == roots && roots <= h.byId.Keys && HeadLists(h, heads)
    modifies q
    ensures q.Valid() && IsClosure(h, roots, q.seen)
  {
    hide Loaded, Direct, LinksNeed, LinkOk, HeadLists, Closed, Within, SetOf, IsClosure;
    Limited(h);
    assert Within(h, roots, roots) by {
      WithinRoots(h, roots);
    }
    var offset := 0;
    while offset < |q.ids|
      invariant q.Valid() && roots <= q.seen <= h.byId.Keys && offset <= |q.ids|
      invariant forall k :: 0 <= k < offset ==> q.ids[k] in h.byId && Needs(h, q.ids[k]) <= q.seen
      invariant Within(h, roots, q.seen)
      decreases |h.byId| - offset
    {
      Subset(q.seen, h.byId.Keys);
      var id := q.ids[offset];
      Queued(q.ids, offset);
      NeedsPresent(h, id);
      WithinNeeds(h, roots, q.seen, id);
      var a := h.byId[id];
      ghost var before := q.seen;
      var refusal := EnqueueAll(h, q, Direct(a));
      refusal := EnqueueLinks(h, heads, q, a.links);
      assert q.seen == before + Needs(h, id);
      offset := offset + 1;
    }
    ProcessedIsClosure(h, roots, q.ids, q.seen);
  }

  lemma Queued(ids: seq<Id>, k: nat)
    requires k < |ids|
    ensures ids[k] in SetOf(ids)
  {
  }

  lemma Limited(h: History)
    requires Loaded(h)
    ensures |h.byId| <= READ_ENTRIES
  {
  }

  lemma WithinRoots(h: History, roots: set<Id>)
    ensures Within(h, roots, roots)
  {
  }

  lemma ProcessedIsClosure(h: History, roots: set<Id>, ids: seq<Id>, seen: set<Id>)
    requires SetOf(ids) == seen && roots <= seen && Within(h, roots, seen)
    requires forall k :: 0 <= k < |ids| ==> ids[k] in h.byId && Needs(h, ids[k]) <= seen
    ensures IsClosure(h, roots, seen)
  {
  }

  // ---------------------------------------------------------------- actor prefixes

  /** The selected artifacts with the notes on each, and the selected actor tips. */
  datatype Selection = Selection(ids: seq<Id>, notes: map<Id, set<Note>>, tips: map<Actor, Id>)

  /** One more than the last position of `chain` that is selected. */
  function Extent(chain: seq<Id>, s: set<Id>): (n: nat)
    ensures n <= |chain| && (n > 0 ==> chain[n - 1] in s)
    ensures forall i :: n <= i < |chain| ==> chain[i] !in s
  {
    if chain == [] then 0
    else if chain[|chain| - 1] in s then |chain|
    else Extent(chain[..|chain| - 1], s)
  }

  lemma ClosedHoldsPrevious(h: History, s: set<Id>, actor: Actor, chain: seq<Id>, i: nat)
    requires Closed(h, s) && Linked(h, actor, chain) && 0 < i < |chain| && chain[i] in s
    ensures chain[i - 1] in s
  {
  }

  /** A closed set holds a prefix of every actor chain. */
  lemma {:induction false} ClosedHoldsPrefix(
      h: History, s: set<Id>, actor: Actor, chain: seq<Id>, i: nat, j: nat)
    requires Closed(h, s) && Linked(h, actor, chain) && i <= j < |chain| && chain[j] in s
    ensures chain[i] in s
  {
    if i < j {
      ClosedHoldsPrevious(h, s, actor, chain, j);
      ClosedHoldsPrefix(h, s, actor, chain, i, j - 1);
    }
  }

  /** Walking from `tip` down the chain passes position `i`. */
  ghost predicate Below(chain: seq<Id>, tip: Id, i: nat) {
    exists j :: i <= j < |chain| && chain[j] == tip
  }

  /** What the commits named by the tips reach: for each actor the chain up to its tip. */
  ghost function Ancestry(h: History, tips: map<Actor, Id>): set<Id> {
    set a, i | a in tips && a in h.chains && 0 <= i < |h.chains[a]| && Below(h.chains[a], tips[a], i)
      :: h.chains[a][i]
  }

  /** The tips of the actors that the set touches. */
  ghost predicate TipsOf(h: History, s: set<Id>, tips: map<Actor, Id>) {
    && (forall a :: a in tips <==> a in h.chains && Extent(h.chains[a], s) > 0)
    && forall a :: a in tips ==> tips[a] == h.chains[a][Extent(h.chains[a], s) - 1]
  }

  lemma BelowExtent(h: History, s: set<Id>, a: Actor, chain: seq<Id>, i: nat)
    requires Closed(h, s) && Linked(h, a, chain) && i < |chain|
    ensures chain[i] in s <==>
      Extent(chain, s) > 0 && Below(chain, chain[Extent(chain, s) - 1], i)
  {
    hide Closed, Linked;
    var n := Extent(chain, s);
    if n > 0 && i < n {
      ClosedHoldsPrefix(h, s, a, chain, i, n - 1);
      assert Below(chain, chain[n - 1], i);
    }
  }

  lemma AncestryAt(h: History, s: set<Id>, tips: map<Actor, Id>, a: Actor, i: nat)
    requires Chained(h) && Closed(h, s) && TipsOf(h, s, tips) && a in h.chains && i < |h.chains[a]|
    ensures h.chains[a][i] in s <==> a in tips && Below(h.chains[a], tips[a], i)
  {
    hide Closed, Extent, Below, Linked;
    BelowExtent(h, s, a, h.chains[a], i);
  }

  /** The ancestry of the selected tips is exactly the closed set they were taken from. */
  lemma AncestryIsClosure(h: History, s: set<Id>, tips: map<Actor, Id>)
    requires Chained(h) && Closed(h, s) && TipsOf(h, s, tips)
    ensures Ancestry(h, tips) == s
  {
    hide TipsOf, Needs, Linked, Below;
    forall x | x in s ensures x in Ancestry(h, tips) {
      var a := h.byId[x].actor;
      var i :| 0 <= i < |h.chains[a]| && h.chains[a][i] == x;
      AncestryAt(h, s, tips, a, i);
    }
    forall x | x in Ancestry(h, tips) ensures x in s {
      var a, i :| a in tips && a in h.chains && 0 <= i < |h.chains[a]|
        && Below(h.chains[a], tips[a], i) && h.chains[a][i] == x;
      AncestryAt(h, s, tips, a, i);
    }
  }

  /** The last selected artifact of each chain. */
  method SelectTips(h: History, s: set<Id>) returns (tips: map<Actor, Id>)
    ensures TipsOf(h, s, tips)
  {
    tips := map[];
    var rest := h.chains.Keys;
    while rest != {}
      invariant rest <= h.chains.Keys
      invariant forall a :: a in tips <==> a in h.chains && a !in rest && Extent(h.chains[a], s) > 0
      invariant forall a :: a in tips ==> tips[a] == h.chains[a][Extent(h.chains[a], s) - 1]
      decreases |rest|
    {
      var a :| a in rest;
      var tip := LastSelected(h.chains[a], s);
      if tip.Some? {
        tips := tips[a := tip.value];
      }
      rest := rest - {a};
    }
  }

  method LastSelected(chain: seq<Id>, s: set<Id>) returns (tip: Option<Id>)
    ensures tip == if Extent(chain, s) > 0 then Some(chain[Extent(chain, s) - 1]) else None
  {
    tip := None;
    for i := 0 to |chain|
      invariant tip ==
        if Extent(chain[..i], s) > 0 then Some(chain[Extent(chain[..i], s) - 1]) else None
    {
      assert chain[..i + 1][..i] == chain[..i];
      if chain[i] in s {
        tip := Some(chain[i]);
      }
    }
    assert chain[..|chain|] == chain;
  }

  // ---------------------------------------------------------------- notes

  datatype NoteCode = MissingRequired | MissingOptional | TargetConflict

  /** Code, target and mode determine the message, so notes sort and compare by them. */
  datatype Note = Note(code: NoteCode, target: Id, mode: Mode)

  /** What one link is noted for, if anything. */
  ghost function Noted(h: History, l: Link): Option<Note> {
    if l.target !in h.byId then Some(Note(if l.required then MissingRequired else MissingOptional, l.target, l.mode))
    else if l.mode == Logical && |Heads(h, l.target)| > 1 then Some(Note(TargetConflict, l.target, Logical))
    else None
  }

  ghost function NotesOn(h: History, links: seq<Link>): set<Note> {
    set l | l in links && Noted(h, l).Some? :: Noted(h, l).value
  }

  lemma NotesOnNext(h: History, links: seq<Link>, i: nat)
    requires i < |links|
    ensures NotesOn(h, links[..i + 1]) ==
      NotesOn(h, links[..i]) + if Noted(h, links[i]).Some? then {Noted(h, links[i]).value} else {}
  {
  }

  ghost predicate HeadsListed(h: History, heads: map<Id, seq<Id>>) {
    HeadLists(h, heads) && forall o :: o in Openings(h) ==> |heads[o]| == |Heads(h, o)|
  }

  /** Take notes on the links of one artifact, whose lineage is sound. */
  method NoteLinks(h: History, heads: map<Id, seq<Id>>, links: seq<Link>) returns (notes: set<Note>)
    requires HeadsListed(h, heads) && forall l :: l in links ==> LinkOk(h, l)
    ensures notes == NotesOn(h, links)
  {
    hide LinkOk, Heads, HeadLists, NotesOn, Openings;
    NoNotes(h, links);
    notes := {};
    for i := 0 to |links|
      invariant notes == NotesOn(h, links[..i])
    {
      NotesOnNext(h, links, i);
      var l := links[i];
      assert l in links && LinkOk(h, l);
      if l.target !in h.byId {
        notes := notes + {Note(if l.required then MissingRequired else MissingOptional, l.target, l.mode)};
      } else if l.mode == Logical {
        LogicalTarget(h, heads, l);
        if |heads[l.target]| > 1 {
          notes := notes + {Note(TargetConflict, l.target, Logical)};
        }
      }
    }
    assert links[..|links|] == links;
  }

  lemma NoNotes(h: History, links: seq<Link>)
    ensures NotesOn(h, links[..0]) == {}
  {
  }

  lemma LogicalTarget(h: History, heads: map<Id, seq<Id>>, l: Link)
    requires HeadsListed(h, heads) && LinkOk(h, l) && l.mode == Logical && l.target in h.byId
    ensures l.target in heads && |heads[l.target]| == |Heads(h, l.target)|
  {
  }

  lemma ListsOf(h: History, heads: map<Id, seq<Id>>)
    requires HeadsListed(h, heads)
    ensures HeadLists(h, heads)
  {
  }

  lemma CatalogLists(h: History, heads: map<Id, seq<Id>>)
    requires EnvelopesOk(h) && Validates(h) && heads.Keys == Openings(h)
    requires forall o :: o in Openings(h) ==> Increasing(heads[o]) && SetOf(heads[o]) == IndexHeads(h, o)
    ensures HeadsListed(h, heads)
  {
    hide Validates, EnvelopesOk, IndexHeads, Heads, Openings;
    forall o | o in Openings(h) ensures SetOf(heads[o]) == Heads(h, o) && |heads[o]| == |Heads(h, o)| {
      IndexEqualsScan(h, o);
      IncreasingLength(heads[o]);
    }
  }

  // ---------------------------------------------------------------- selection

  lemma ClosureIsClosed(h: History, roots: set<Id>, s: set<Id>)
    requires IsClosure(h, roots, s)
    ensures Closed(h, s)
  {
  }

  /** Each selected artifact has the notes its links deserve. */
  ghost predicate Annotates(h: History, s: set<Id>, notes: map<Id, set<Note>>) {
    notes.Keys == s && forall id :: id in s ==> id in h.byId && notes[id] == NotesOn(h, h.byId[id].links)
  }

  method Annotate(h: History, heads: map<Id, seq<Id>>, ids: seq<Id>) returns (notes: map<Id, set<Note>>)
    requires Loaded(h) && HeadsListed(h, heads) && SetOf(ids) <= h.byId.Keys
    ensures Annotates(h, SetOf(ids), notes)
  {
    hide Loaded, HeadsListed, NotesOn, Direct, LinkOk;
    notes := map[];
    for i := 0 to |ids|
      invariant Annotates(h, SetOf(ids[..i]), notes)
    {
      SetOfNext(ids, i);
      NeedsPresent(h, ids[i]);
      var on := NoteLinks(h, heads, h.byId[ids[i]].links);
      notes := notes[ids[i] := on];
    }
    assert ids[..|ids|] == ids;
  }

  /** Select the closure of the roots. On a loaded history every nonempty selection of
      known artifacts succeeds; no dependency, lineage or limit refusal is reachable,
      however the links cycle. */
  method SelectClosure(h: History, roots: seq<Id>, ghost rank: map<Id, nat>)
      returns (r: Outcome<Selection, Code>)
    requires Loaded(h) && Ranked(h, rank)
    ensures r.Ok? <==> roots != [] && SetOf(roots) <= h.byId.Keys
    ensures r.Refused? ==> r.code == if roots == [] then InvalidInput else NotFound
    ensures r.Ok? ==> Increasing(r.value.ids)
    ensures r.Ok? ==> IsClosure(h, SetOf(roots), SetOf(r.value.ids))
    ensures r.Ok? ==> Ancestry(h, r.value.tips) == SetOf(r.value.ids) && TipsOf(h, SetOf(r.value.ids), r.value.tips)
    ensures r.Ok? ==> Annotates(h, SetOf(r.value.ids), r.value.notes)
  {
    hide Sorted, Ancestry, Heads, IndexHeads, Validates, Ranked, IsClosure, AllCatalogued, HeadsListed, HeadLists,
         Annotates, TipsOf;
    if roots == [] {
      return Refused(InvalidInput);
    }
    LoadedIsIndexable(h, rank);
    var c := BuildCatalog(h);
    CatalogLists(h, c.value.heads);
    ListsOf(h, c.value.heads);
    var q := new Queue();
    var refusal := EnqueueAll(h, q, roots);
    if refusal.Some? {
      return Refused(NotFound);
    }
    Drain(h, c.value.heads, q, SetOf(roots));
    var tips := SelectTips(h, q.seen);
    ClosureIsClosed(h, SetOf(roots), q.seen);
    AncestryIsClosure(h, q.seen, tips);
    var ids := Sorted(q.seen);
    var notes := Annotate(h, c.value.heads, ids);
    r := Ok(Selection(ids, notes, tips));
  }
}
