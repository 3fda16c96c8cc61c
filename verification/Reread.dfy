/** Export read back through the loader: whoever reads the selected tips, in any
    repository that holds the selected commits, loads exactly the exported part. */
module Reread {
  import opened Basics
  import H = History
  import opened Closure
  import opened Export
  import opened Admission
  import opened Load

  /** A repository, its sources, and what a load of them delivered. */
  datatype Reading = Reading(store: Store, sources: seq<Source>, chains: Chains, byId: Index)

  ghost predicate Delivered(r: Reading) {
    Delivers(r.store, r.sources, r.chains, r.byId)
  }

  ghost function View(r: Reading, content: map<Id, H.Artifact>): H.History {
    HistoryOf(r.store, content, r.chains, r.byId)
  }

  /** How much of an actor's chain is selected. */
  ghost function Cut(r: Reading, s: set<Id>, a: Actor): (n: nat)
    requires a in r.chains
    ensures n <= |r.chains[a]|
  {
    Extent(IdsOf(r.store, r.chains[a]), s)
  }

  /** `again` reads the selected tips in a repository that holds the selected commits. */
  ghost predicate Rereads(r: Reading, s: set<Id>, again: Reading) {
    && (forall a, i :: a in r.chains && 0 <= i < Cut(r, s, a) ==> Holds(r, again, a, i))
    && (forall k :: 0 <= k < |again.sources| ==>
          again.sources[k].actor in r.chains && IsTip(r, s, again.sources[k].actor, again.sources[k].tip))
    && (forall a :: a in r.chains && Cut(r, s, a) > 0 ==> HasSource(again.sources, a))
  }

  ghost predicate Holds(r: Reading, again: Reading, a: Actor, i: nat)
    requires a in r.chains && i < |r.chains[a]|
  {
    var o := r.chains[a][i];
    o in again.store && o in r.store && again.store[o] == r.store[o]
  }

  ghost predicate IsTip(r: Reading, s: set<Id>, a: Actor, tip: Oid)
    requires a in r.chains
  {
    Cut(r, s, a) > 0 && tip == r.chains[a][Cut(r, s, a) - 1]
  }

  ghost predicate HasSource(sources: seq<Source>, a: Actor) {
    exists k :: 0 <= k < |sources| && sources[k].actor == a
  }

  /** The tips that selection names are such tips: their commits end the selected parts. */
  lemma SelectedTips(r: Reading, content: map<Id, H.Artifact>, s: set<Id>, tips: map<Actor, Id>, a: Actor)
    requires Delivered(r) && TipsOf(View(r, content), s, tips) && a in tips
    ensures a in r.chains && tips[a] in r.byId && IsTip(r, s, a, r.byId[tips[a]])
  {
    hide Extent, ChainsOk, ChainIsStream, PrefixDelivered;
    ViewChain(r, content, s, a);
    CommitListed(r.store, r.chains, r.byId, a, Cut(r, s, a) - 1);
  }

  // ---------------------------------------------------------------- the same chains

  /** The selected part of a chain is the stream of its tip wherever it is held. */
  lemma CutIsStream(r: Reading, s: set<Id>, again: Reading, a: Actor)
    requires Delivered(r) && Rereads(r, s, again) && a in r.chains && Cut(r, s, a) > 0
    ensures StreamOf(again.store, r.chains[a][Cut(r, s, a) - 1], r.chains[a][..Cut(r, s, a)])
  {
    hide Cut, Indexed, ChainIsStream, PrefixDelivered, StreamOf, VerifiedAt;
    var chain, n := r.chains[a], Cut(r, s, a);
    assert Verified(r.store, a, chain);
    forall i | 0 <= i < n
      ensures chain[i] in again.store && chain[i] in r.store && again.store[chain[i]] == r.store[chain[i]]
    {
      assert Holds(r, again, a, i);
    }
    HeldIsStream(r.store, again.store, chain, n);
  }

  lemma HeldIsStream(store: Store, other: Store, chain: seq<Oid>, n: nat)
    requires 0 < n <= |chain| && StreamOf(store, chain[|chain| - 1], chain)
    requires forall i :: 0 <= i < n ==> chain[i] in store && chain[i] in other && other[chain[i]] == store[chain[i]]
    ensures StreamOf(other, chain[n - 1], chain[..n])
  {
    forall i | 0 <= i < n ensures StreamAt(other, chain[..n], i) {
      assert StreamAt(store, chain, i);
    }
  }

  lemma ChainIsCut(r: Reading, s: set<Id>, again: Reading, a: Actor)
    requires Delivered(r) && Delivered(again) && Rereads(r, s, again) && a in again.chains
    ensures a in r.chains && Cut(r, s, a) > 0 && again.chains[a] == r.chains[a][..Cut(r, s, a)]
  {
    hide Cut, StreamOf, ChainsOk, Indexed, PrefixDelivered;
    assert ChainIsStream(again.store, again.sources, a, again.chains[a]);
    var k :| 0 <= k < |again.sources| && again.sources[k].actor == a
      && StreamOf(again.store, again.sources[k].tip, again.chains[a]);
    assert IsTip(r, s, a, again.sources[k].tip);
    CutIsStream(r, s, again, a);
    StreamUnique(again.store, again.sources[k].tip, again.chains[a], r.chains[a][..Cut(r, s, a)]);
  }

  lemma CutIsChain(r: Reading, s: set<Id>, again: Reading, a: Actor)
    requires Delivered(again) && Rereads(r, s, again) && a in r.chains && Cut(r, s, a) > 0
    ensures a in again.chains
  {
    assert HasSource(again.sources, a);
    var k :| 0 <= k < |again.sources| && again.sources[k].actor == a;
    assert PrefixDelivered(again.store, again.sources[k], again.chains);
  }

  // ---------------------------------------------------------------- the same artifacts

  /** A selected artifact lies on the selected part of its actor's chain. */
  lemma SelectedOnCut(r: Reading, content: map<Id, H.Artifact>, s: set<Id>, id: Id) returns (a: Actor, i: nat)
    requires Delivered(r) && id in r.byId && id in s
    ensures a in r.chains && i < Cut(r, s, a) && r.chains[a][i] == r.byId[id]
    ensures r.byId[id] in r.store && r.store[r.byId[id]].id == id
  {
    hide ChainsOk, ChainIsStream, PrefixDelivered, Extent;
    assert OnChain(r.store, r.chains, r.byId[id]) && r.store[r.byId[id]].id == id;
    a := r.store[r.byId[id]].actor;
    i :| 0 <= i < |r.chains[a]| && r.chains[a][i] == r.byId[id];
    assert IdsOf(r.store, r.chains[a])[i] == id;
  }

  /** Everything selected is indexed again, as the same commit. */
  lemma SelectedIndexed(r: Reading, content: map<Id, H.Artifact>, s: set<Id>, again: Reading, id: Id)
    requires Delivered(r) && Delivered(again) && Rereads(r, s, again) && id in r.byId && id in s
    ensures id in again.byId
  {
    var a, i := SelectedOnCut(r, content, s, id);
    CutIsChain(r, s, again, a);
    ChainIsCut(r, s, again, a);
    assert Holds(r, again, a, i);
    CommitListed(again.store, again.chains, again.byId, a, i);
  }

  /** Whatever is indexed again is selected. */
  lemma IndexedSelected(r: Reading, content: map<Id, H.Artifact>, s: set<Id>, again: Reading, id: Id)
    requires Delivered(r) && Delivered(again) && Rereads(r, s, again) && id in again.byId
    requires Decodes(r.store, content) && Closed(View(r, content), s)
    ensures id in s && id in r.byId
  {
    hide Closed, HistoryOf, StreamOf;
    assert OnChain(again.store, again.chains, again.byId[id]) && again.store[again.byId[id]].id == id;
    var a := again.store[again.byId[id]].actor;
    var i :| 0 <= i < |again.chains[a]| && again.chains[a][i] == again.byId[id];
    ChainIsCut(r, s, again, a);
    assert Holds(r, again, a, i) && r.chains[a][i] == again.byId[id];
    CommitListed(r.store, r.chains, r.byId, a, i);
    CutSelected(r, content, s, a, i);
  }

  lemma CutSelected(r: Reading, content: map<Id, H.Artifact>, s: set<Id>, a: Actor, i: nat)
    requires Delivered(r) && Decodes(r.store, content) && Closed(View(r, content), s)
    requires a in r.chains && i < Cut(r, s, a)
    ensures r.chains[a][i] in r.store && r.store[r.chains[a][i]].id in s
  {
    hide Closed;
    var h := View(r, content);
    HistoryViews(r.store, r.sources, content, r.chains, r.byId);
    LoadedIsChained(r.store, r.sources, r.chains, r.byId, h);
    CommitListed(r.store, r.chains, r.byId, a, i);
    PrefixSelected(h, s, a, h.chains[a], i);
  }

  // ---------------------------------------------------------------- the same history

  /** Reading the export gives exactly the exported part of the history. */
  lemma RereadIsRestriction(r: Reading, content: map<Id, H.Artifact>, s: set<Id>, again: Reading)
    requires Delivered(r) && Delivered(again) && Rereads(r, s, again)
    requires Decodes(r.store, content) && Closed(View(r, content), s)
    ensures View(again, content) == Restrict(View(r, content), s)
  {
    hide Closed, Decodes, Delivered, Rereads, Extent, IdsOf;
    var h, v := Restrict(View(r, content), s), View(again, content);
    forall id ensures id in v.byId <==> id in h.byId {
      SameKeys(r, content, s, again, id);
    }
    assert v.byId == h.byId;
    forall a ensures a in v.chains <==> a in h.chains {
      SameActors(r, content, s, again, a);
    }
    forall a | a in v.chains ensures v.chains[a] == h.chains[a] {
      SameChain(r, content, s, again, a);
    }
    assert v.chains == h.chains;
  }

  lemma SameKeys(r: Reading, content: map<Id, H.Artifact>, s: set<Id>, again: Reading, id: Id)
    requires Delivered(r) && Delivered(again) && Rereads(r, s, again)
    requires Decodes(r.store, content) && Closed(View(r, content), s)
    ensures id in View(again, content).byId <==> id in Restrict(View(r, content), s).byId
  {
    hide Closed, Decodes, Delivered, Rereads;
    if id in again.byId {
      IndexedSelected(r, content, s, again, id);
    }
    if id in r.byId && id in s {
      SelectedIndexed(r, content, s, again, id);
    }
  }

  lemma SameActors(r: Reading, content: map<Id, H.Artifact>, s: set<Id>, again: Reading, a: Actor)
    requires Delivered(r) && Delivered(again) && Rereads(r, s, again)
    ensures a in View(again, content).chains <==> a in Restrict(View(r, content), s).chains
  {
    hide Delivered, Rereads, Extent, IdsOf;
    if a in again.chains {
      ChainIsCut(r, s, again, a);
      ViewChain(r, content, s, a);
    }
    if a in r.chains && Cut(r, s, a) > 0 {
      CutIsChain(r, s, again, a);
    }
  }

  lemma ViewChain(r: Reading, content: map<Id, H.Artifact>, s: set<Id>, a: Actor)
    requires a in r.chains
    ensures var h := View(r, content);
      a in h.chains && h.chains[a] == IdsOf(r.store, r.chains[a]) && Extent(h.chains[a], s) == Cut(r, s, a)
  {
  }

  lemma SameChain(r: Reading, content: map<Id, H.Artifact>, s: set<Id>, again: Reading, a: Actor)
    requires Delivered(r) && Delivered(again) && Rereads(r, s, again) && a in again.chains
    ensures a in Restrict(View(r, content), s).chains
    ensures View(again, content).chains[a] == Restrict(View(r, content), s).chains[a]
  {
    hide Delivered, Extent, View, IsTip, HasSource;
    ChainIsCut(r, s, again, a);
    ViewChain(r, content, s, a);
    ViewChain(again, content, s, a);
    var n := Cut(r, s, a);
    forall i | 0 <= i < n ensures IdAt(again.store, again.chains[a][i]) == IdAt(r.store, r.chains[a][i]) {
      assert Holds(r, again, a, i);
    }
    assert IdsOf(again.store, again.chains[a]) == IdsOf(r.store, r.chains[a])[..n];
  }

  /** So a reader of an export of a loaded history passes validation, selects the same
      closure for the same roots, and sees the same heads of every required target. */
  lemma RereadLoads(r: Reading, content: map<Id, H.Artifact>, rank: map<Id, nat>, roots: set<Id>, s: set<Id>,
                    again: Reading)
    requires Delivered(r) && Delivered(again) && Rereads(r, s, again) && Decodes(r.store, content)
    requires H.Loaded(View(r, content)) && H.Ranked(View(r, content), rank)
    requires IsClosure(View(r, content), roots, s)
    ensures H.Loaded(View(again, content)) && IsClosure(View(again, content), roots, s)
    ensures View(again, content).byId.Keys == s
  {
    hide Closed, Decodes, Delivered, Rereads, H.Loaded, H.Ranked, View;
    var h := View(r, content);
    RereadIsRestriction(r, content, s, again);
    ExportLoads(h, rank, s);
    LoadedEnvelopes(h);
    ClosureKept(h, rank, roots, s);
  }

  // ---------------------------------------------------------------- reading it succeeds

  /** The commits of the selected parts of all chains. */
  ghost function CutCommits(r: Reading, s: set<Id>): set<Oid> {
    set a, i | a in r.chains && 0 <= i < Cut(r, s, a) :: r.chains[a][i]
  }

  ghost function CutChains(r: Reading, s: set<Id>): Chains {
    map a | a in r.chains && Cut(r, s, a) > 0 :: r.chains[a][..Cut(r, s, a)]
  }

  lemma {:induction false} ChainGrounded(store: Store, chain: seq<Oid>, i: nat) returns (path: seq<Oid>)
    requires i < |chain| && forall k :: 0 <= k <= i ==> StreamAt(store, chain, k)
    ensures Admission.Ancestry(store, chain[i], path)
  {
    assert StreamAt(store, chain, i);
    if i == 0 {
      path := [chain[0]];
    } else {
      var rest := ChainGrounded(store, chain, i - 1);
      path := [chain[i]] + rest;
    }
  }

  /** A selected commit is held, with its parent, and descends to a genesis. */
  lemma CutCommit(r: Reading, s: set<Id>, again: Reading, a: Actor, i: nat)
    requires Delivered(r) && Rereads(r, s, again) && a in r.chains && i < Cut(r, s, a)
    ensures var o := r.chains[a][i];
      && o in again.store && o in r.store && again.store[o] == r.store[o] && Grounded(again.store, o)
      && (again.store[o].parent.Some? ==> again.store[o].parent.value in CutCommits(r, s))
  {
    hide Cut, Indexed, ChainIsStream, PrefixDelivered;
    var chain, n := r.chains[a], Cut(r, s, a);
    assert Verified(r.store, a, chain);
    forall k | 0 <= k <= i ensures StreamAt(again.store, chain, k) {
      assert StreamAt(r.store, chain, k) && Holds(r, again, a, k);
    }
    assert Holds(r, again, a, i) && StreamAt(again.store, chain, i);
    var path := ChainGrounded(again.store, chain, i);
    assert i > 0 ==> chain[i - 1] in CutCommits(r, s);
  }

  lemma CutInside(r: Reading, s: set<Id>, within: set<Oid>)
    requires Delivered(r) && Admits(r.store, r.sources, within)
    ensures CutCommits(r, s) <= within
  {
    hide ChainsOk, Indexed, PrefixDelivered, StreamOf, AllGrounded, SizesFit, ParentClosed;
    forall a, i | a in r.chains && 0 <= i < Cut(r, s, a) ensures r.chains[a][i] in within {
      assert ChainIsStream(r.store, r.sources, a, r.chains[a]);
      var k :| 0 <= k < |r.sources| && r.sources[k].actor == a && StreamOf(r.store, r.sources[k].tip, r.chains[a]);
      StreamInside(r.store, within, r.sources[k].tip, r.chains[a], i);
    }
  }

  lemma {:induction false} SameTotal(store: Store, other: Store, s: set<Oid>)
    requires forall o :: o in s ==> o in store && o in other && other[o] == store[o]
    ensures TotalBytes(other, s) == TotalBytes(store, s)
    decreases |s|
  {
    if s != {} {
      SameTotal(store, other, s - {Least(s)});
    }
  }

  /** The exported tips are admitted: the selected commits are a parent-closed part of
      what was admitted before. */
  lemma ExportAdmitted(r: Reading, s: set<Id>, again: Reading, within: set<Oid>)
    requires Delivered(r) && Rereads(r, s, again) && Admits(r.store, r.sources, within)
    ensures Admits(again.store, again.sources, CutCommits(r, s))
  {
    hide Delivered, Cut, Grounded, CutCommits, SizesFit, Holds;
    var all := CutCommits(r, s);
    forall o | o in all ensures HeldCommit(r, again, all, o) {
      CutHeld(r, s, again, o);
    }
    CutInside(r, s, within);
    Subset(all, within);
    SizesShrink(r.store, again.store, all, within);
    forall k | 0 <= k < |again.sources| ensures again.sources[k].tip in all {
      assert IsTip(r, s, again.sources[k].actor, again.sources[k].tip);
      TipSelected(r, s, again.sources[k].actor, again.sources[k].tip);
    }
  }

  ghost predicate HeldCommit(r: Reading, again: Reading, all: set<Oid>, o: Oid) {
    && o in again.store && o in r.store && again.store[o] == r.store[o] && Grounded(again.store, o)
    && (again.store[o].parent.Some? ==> again.store[o].parent.value in all)
  }

  lemma CutHeld(r: Reading, s: set<Id>, again: Reading, o: Oid)
    requires Delivered(r) && Rereads(r, s, again) && o in CutCommits(r, s)
    ensures HeldCommit(r, again, CutCommits(r, s), o)
  {
    hide Delivered, Cut, Rereads, Grounded;
    var a, i :| a in r.chains && 0 <= i < Cut(r, s, a) && r.chains[a][i] == o;
    CutCommit(r, s, again, a, i);
  }

  lemma TipSelected(r: Reading, s: set<Id>, a: Actor, tip: Oid)
    requires a in r.chains && IsTip(r, s, a, tip)
    ensures tip in CutCommits(r, s)
  {
    hide Cut;
  }

  lemma SizesShrink(store: Store, other: Store, part: set<Oid>, within: set<Oid>)
    requires part <= within && SizesFit(store, within)
    requires forall o :: o in part ==> o in store && o in other && other[o] == store[o]
    ensures SizesFit(other, part)
  {
    SameTotal(store, other, part);
    TotalGrows(store, part, within);
  }

  lemma CutVerified(r: Reading, s: set<Id>, again: Reading, a: Actor)
    requires Delivered(r) && Rereads(r, s, again) && a in r.chains && Cut(r, s, a) > 0
    ensures Verified(again.store, a, r.chains[a][..Cut(r, s, a)])
  {
    hide Cut, Indexed, ChainIsStream, PrefixDelivered;
    var chain, n := r.chains[a], Cut(r, s, a);
    CutIsStream(r, s, again, a);
    assert Verified(r.store, a, chain);
    forall i | 0 <= i < n ensures VerifiedAt(again.store, a, chain[..n], i) {
      assert VerifiedAt(r.store, a, chain, i) && Holds(r, again, a, i);
      if i > 0 {
        assert Holds(r, again, a, i - 1);
      }
    }
  }

  /** The selected parts of the chains are verified streams that host every tip. */
  lemma ExportCoherent(r: Reading, s: set<Id>, again: Reading)
    requires Delivered(r) && Rereads(r, s, again)
    ensures Coherent(again.store, again.sources, CutChains(r, s))
  {
    hide Delivered, Verified, Cut, Holds;
    var g := CutChains(r, s);
    forall a | a in g ensures Verified(again.store, a, g[a]) {
      CutVerified(r, s, again, a);
    }
    forall k | 0 <= k < |again.sources| ensures Hosted(g, again.sources[k]) {
      var a := again.sources[k].actor;
      assert IsTip(r, s, a, again.sources[k].tip);
      assert g[a][Cut(r, s, a) - 1] == again.sources[k].tip;
    }
  }

  /** Read an export: load the selected tips in a repository that holds the selected
      commits. The load succeeds and yields exactly the exported part of the history. */
  method ReadExport(store: Store, tips: seq<Source>, content: map<Id, H.Artifact>,
                    ghost r: Reading, ghost s: set<Id>, ghost within: set<Oid>, ghost rank: map<Id, nat>)
      returns (h: Outcome<H.History, Admission.Code>)
    requires Delivered(r) && Admits(r.store, r.sources, within) && Decodes(r.store, content)
    requires H.Loaded(View(r, content)) && H.Ranked(View(r, content), rank) && Closed(View(r, content), s)
    requires IdsAgree(store) && Decodes(store, content) && Rereads(r, s, Reading(store, tips, map[], map[]))
    ensures h == Ok(Restrict(View(r, content), s))
  {
    hide Delivered, Admits, Decodes, H.Loaded, H.Ranked, Closed, IdsAgree, View, Restrict, Coherent, H.Validates,
         CutChains, CutCommits;
    ExportAdmitted(r, s, Reading(store, tips, map[], map[]), within);
    ExportCoherent(r, s, Reading(store, tips, map[], map[]));
    var read, chains, byId;
    h, read, chains, byId := LoadHistory(store, tips, content);
    ghost var again := Reading(store, tips, chains, byId);
    DeliveredIs(again);
    RereadsAgain(r, s, Reading(store, tips, map[], map[]), again);
    RereadIsRestriction(r, content, s, again);
    ExportLoads(View(r, content), rank, s);
    ViewIs(again, content);
    LoadedValidates(Restrict(View(r, content), s));
  }

  lemma DeliveredIs(r: Reading)
    ensures Delivered(r) <==> Delivers(r.store, r.sources, r.chains, r.byId)
  {
  }

  lemma ViewIs(r: Reading, content: map<Id, H.Artifact>)
    ensures View(r, content) == HistoryOf(r.store, content, r.chains, r.byId)
  {
  }

  lemma RereadsAgain(r: Reading, s: set<Id>, a: Reading, b: Reading)
    requires Rereads(r, s, a) && b.store == a.store && b.sources == a.sources
    ensures Rereads(r, s, b)
  {
    hide Cut;
    forall c, i | c in r.chains && 0 <= i < Cut(r, s, c) ensures Holds(r, b, c, i) {
      assert Holds(r, a, c, i);
    }
  }

  lemma LoadedValidates(h: H.History)
    requires H.Loaded(h)
    ensures H.Validates(h)
  {
  }
}
