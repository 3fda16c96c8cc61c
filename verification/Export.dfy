/** Exporting is closed under re-reading: the part of a history that a closure selects is
    itself a loaded history with the same dependencies and the same required heads. */
module Export {
  import opened Basics
  import opened History
  import opened Catalog
  import opened Closure

  /** The history a reader gets from the selected tips: the selected artifacts, each
      actor chain cut after its tip. */
  ghost function Restrict(h: History, s: set<Id>): History {
    History(
      map id | id in h.byId && id in s :: h.byId[id],
      map a | a in h.chains && Extent(h.chains[a], s) > 0 :: h.chains[a][..Extent(h.chains[a], s)])
  }

  // ---------------------------------------------------------------- required heads

  /** Descending through parents never leaves a closed set. */
  lemma {:induction false} DescentStaysInside(h: History, s: set<Id>, path: seq<Id>, i: nat)
    requires Closed(h, s) && i < |path| && path[|path| - 1] in s
    requires forall k :: 0 <= k < |path| ==> path[k] in h.byId
    requires forall k :: 0 <= k < |path| - 1 ==> path[k] in h.byId[path[k + 1]].parents
    ensures path[i] in s
    decreases |path| - i
  {
    if i + 1 < |path| {
      DescentStaysInside(h, s, path, i + 1);
      DirectMembers(h.byId[path[i + 1]], path[i]);
      assert Needs(h, path[i + 1]) <= s;
    }
  }

  /** If a closed set holds all heads of a record, it holds whatever supersedes one of
      its own revisions of that record. */
  lemma SupersederInside(h: History, rank: map<Id, nat>, s: set<Id>, opening: Id, c: Id)
    requires EnvelopesOk(h) && Ranked(h, rank) && Closed(h, s) && Heads(h, opening) <= s
    requires c in h.byId && h.byId[c].record == Some(opening)
    ensures c in s
  {
    var bound := RankBound(h, rank, h.byId.Keys);
    var head, path := ReachesHead(h, rank, c, opening, bound);
    DescentStaysInside(h, s, path, 0);
  }

  /** A required logical target keeps exactly its full-history heads. */
  lemma RequiredHeadsKept(h: History, rank: map<Id, nat>, s: set<Id>, opening: Id)
    requires EnvelopesOk(h) && Ranked(h, rank) && Closed(h, s) && Heads(h, opening) <= s
    ensures Heads(Restrict(h, s), opening) == Heads(h, opening)
  {
    var r := Restrict(h, s);
    assert forall id :: id in r.byId ==> r.byId[id] == h.byId[id];
    forall id | id in s && id in Revisions(h, opening)
      ensures Superseded(r, id, opening) <==> Superseded(h, id, opening)
    {
      if Superseded(h, id, opening) {
        var c :| c in h.byId && h.byId[c].record == Some(opening) && id in h.byId[c].parents;
        SupersederInside(h, rank, s, opening, c);
        assert c in r.byId;
      }
    }
  }

  /** The target of a required logical link of a selected artifact keeps its heads. */
  lemma TargetHeadsKept(h: History, rank: map<Id, nat>, s: set<Id>, id: Id, l: Link)
    requires EnvelopesOk(h) && Ranked(h, rank) && Closed(h, s)
    requires id in s && l in h.byId[id].links && l.required && l.mode == Logical
    ensures Heads(Restrict(h, s), l.target) == Heads(h, l.target)
  {
    assert Heads(h, l.target) <= s by {
      forall x | x in Heads(h, l.target) ensures x in s {
        assert x in LinkNeeds(h, l) && x in LinksNeed(h, h.byId[id].links);
      }
    }
    RequiredHeadsKept(h, rank, s, l.target);
  }

  // ---------------------------------------------------------------- same dependencies

  /** A member of the closure needs the same artifacts in the export as in the original. */
  lemma NeedsKept(h: History, rank: map<Id, nat>, s: set<Id>, id: Id)
    requires EnvelopesOk(h) && Ranked(h, rank) && Closed(h, s) && id in s
    ensures id in Restrict(h, s).byId && Needs(Restrict(h, s), id) == Needs(h, id)
  {
    var r := Restrict(h, s);
    forall l | l in h.byId[id].links ensures LinkNeeds(r, l) == LinkNeeds(h, l) {
      if l.required && l.mode == Logical {
        TargetHeadsKept(h, rank, s, id, l);
      }
    }
  }

  /** Recomputing the closure of the same roots in the export gives the same set. */
  lemma ClosureKept(h: History, rank: map<Id, nat>, roots: set<Id>, s: set<Id>)
    requires EnvelopesOk(h) && Ranked(h, rank) && IsClosure(h, roots, s)
    ensures IsClosure(Restrict(h, s), roots, s)
  {
    var r := Restrict(h, s);
    assert Closed(r, s) by {
      forall id | id in s ensures id in r.byId && Needs(r, id) <= s {
        NeedsKept(h, rank, s, id);
      }
    }
    forall t: set<Id> | roots <= t && Closed(r, t) ensures s <= t {
      forall id | id in t ensures id in h.byId && Needs(h, id) <= t {
        NeedsKept(h, rank, s, id);
      }
      assert Closed(h, t);
    }
  }

  /** A history has one closure of given roots. */
  lemma ClosureUnique(h: History, roots: set<Id>, s: set<Id>, t: set<Id>)
    requires IsClosure(h, roots, s) && IsClosure(h, roots, t)
    ensures s == t
  {
  }

  // ---------------------------------------------------------------- still loads

  lemma MembersKept(h: History, s: set<Id>, id: Id, x: Id)
    requires Closed(h, s) && id in s && x in SetOf(Direct(h.byId[id]))
    ensures x in Restrict(h, s).byId && Restrict(h, s).byId[x] == h.byId[x]
  {
  }

  lemma LinkKept(h: History, s: set<Id>, id: Id, l: Link)
    requires Closed(h, s) && id in s && l in h.byId[id].links && LinkOk(h, l)
    ensures LinkOk(Restrict(h, s), l)
  {
    if l.required {
      assert l.target in LinkNeeds(h, l) && l.target in LinksNeed(h, h.byId[id].links);
      assert Needs(h, id) <= s;
    }
  }

  lemma RecordKept(h: History, s: set<Id>, id: Id)
    requires Closed(h, s) && id in s && EnvelopeOk(h.byId[id])
    requires h.byId[id].IsRecord() && RecordOk(h, h.byId[id])
    ensures RecordOk(Restrict(h, s), h.byId[id])
  {
    var r, a := Restrict(h, s), h.byId[id];
    DirectMembers(a, a.typeRevision);
    MembersKept(h, s, id, a.typeRevision);
    if a.record.Some? {
      DirectMembers(a, a.record.value);
      MembersKept(h, s, id, a.record.value);
      forall p | p in a.parents ensures ParentOk(r, a, a.record.value, p) {
        assert ParentOk(h, a, a.record.value, p);
        DirectMembers(a, p);
        MembersKept(h, s, id, p);
      }
    }
    forall l | l in a.links ensures LinkOk(r, l) {
      LinkKept(h, s, id, l);
    }
  }

  lemma DeclarationKept(h: History, s: set<Id>, id: Id)
    requires Closed(h, s) && id in s && DeclarationOk(h, h.byId[id])
    ensures DeclarationOk(Restrict(h, s), h.byId[id])
  {
  }

  lemma ValidationKept(h: History, s: set<Id>)
    requires EnvelopesOk(h) && Validates(h) && Closed(h, s)
    ensures Validates(Restrict(h, s)) && EnvelopesOk(Restrict(h, s))
  {
    hide RecordOk, DeclarationOk, EnvelopeOk, Closed;
    var r := Restrict(h, s);
    forall id | id in r.byId ensures ArtifactOk(r, r.byId[id]) {
      assert ArtifactOk(h, h.byId[id]) && EnvelopeOk(h.byId[id]);
      if h.byId[id].IsRecord() {
        RecordKept(h, s, id);
      } else {
        DeclarationKept(h, s, id);
      }
    }
  }

  lemma PrefixSelected(h: History, s: set<Id>, a: Actor, chain: seq<Id>, i: nat)
    requires Linked(h, a, chain) && Closed(h, s) && i < Extent(chain, s)
    ensures chain[i] in s
  {
    hide Closed, Linked;
    ClosedHoldsPrefix(h, s, a, chain, i, Extent(chain, s) - 1);
  }

  /** The selected part of a linked chain is linked in the export. */
  lemma ChainKept(h: History, s: set<Id>, a: Actor, chain: seq<Id>)
    requires Linked(h, a, chain) && Closed(h, s)
    ensures Linked(Restrict(h, s), a, chain[..Extent(chain, s)])
  {
    var r, kept := Restrict(h, s), chain[..Extent(chain, s)];
    forall i | 0 <= i < |kept|
      ensures kept[i] in r.byId && r.byId[kept[i]].actor == a
      ensures r.byId[kept[i]].previous == if i == 0 then None else Some(kept[i - 1])
    {
      PrefixSelected(h, s, a, chain, i);
      LinkedAt(h, a, chain, i);
      assert r.byId[kept[i]] == h.byId[chain[i]];
    }
    assert Linked(r, a, kept);
  }

  lemma ChainsKept(h: History, s: set<Id>)
    requires Chained(h) && Closed(h, s)
    ensures Chained(Restrict(h, s))
  {
    hide Closed, Linked;
    var r := Restrict(h, s);
    forall id | id in r.byId ensures r.byId[id].actor in r.chains && id in r.chains[r.byId[id].actor] {
      var chain := h.chains[h.byId[id].actor];
      var i :| 0 <= i < |chain| && chain[i] == id;
      assert i < Extent(chain, s);
      assert chain[..Extent(chain, s)][i] == id;
    }
    forall a | a in r.chains ensures r.chains[a] != [] && Linked(r, a, r.chains[a]) {
      ChainKept(h, s, a, h.chains[a]);
    }
  }

  /** The export passes validation, chain checks and the read limit, and its catalog can
      be built; its artifacts are exactly the selected ones. */
  lemma ExportLoads(h: History, rank: map<Id, nat>, s: set<Id>)
    requires Loaded(h) && Ranked(h, rank) && Closed(h, s)
    ensures Restrict(h, s).byId.Keys == s
    ensures Loaded(Restrict(h, s)) && Ranked(Restrict(h, s), rank) && Indexable(Restrict(h, s))
  {
    hide Validates, Chained, EnvelopesOk, Indexable, Needs, Extent;
    var r := Restrict(h, s);
    assert r.byId.Keys == s;
    ValidationKept(h, s);
    ChainsKept(h, s);
    Subset(s, h.byId.Keys);
    LoadedIsIndexable(r, rank);
  }

  /** Export followed by re-reading: the exported part loads and can be catalogued,
      selecting the same roots in it succeeds with the same set, and every required
      logical target has exactly the heads it has in the full history. */
  lemma ExportRoundTrip(h: History, rank: map<Id, nat>, roots: set<Id>, s: set<Id>, again: set<Id>)
    requires Loaded(h) && Ranked(h, rank) && IsClosure(h, roots, s)
    requires IsClosure(Restrict(h, s), roots, again)
    ensures Loaded(Restrict(h, s)) && Indexable(Restrict(h, s))
    ensures again == s == Restrict(h, s).byId.Keys
    ensures forall id, l :: id in s && l in h.byId[id].links && l.required && l.mode == Logical ==>
      Heads(Restrict(h, s), l.target) == Heads(h, l.target)
  {
    hide Restrict, Loaded, Indexable, Heads, Needs, Ranked;
    ExportLoads(h, rank, s);
    LoadedEnvelopes(h);
    ClosureKept(h, rank, roots, s);
    ClosureUnique(Restrict(h, s), roots, s, again);
    forall id, l | id in s && l in h.byId[id].links && l.required && l.mode == Logical
      ensures Heads(Restrict(h, s), l.target) == Heads(h, l.target)
    {
      TargetHeadsKept(h, rank, s, id, l);
    }
  }

  lemma LoadedEnvelopes(h: History)
    requires Loaded(h)
    ensures EnvelopesOk(h)
  {
  }
}
