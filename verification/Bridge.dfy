/** The protocol sees artifacts as values that contain what they name; histories see them
    as envelopes indexed by ID. Heads are the same on both sides. */
module Bridge {
  import opened Basics
  import S = Streams
  import P = Protocol
  import T = ProtocolHeads
  import H = History

  /** The ID of each artifact; a digest, hence injective. */
  type Naming = S.Artifact -> Id

  ghost predicate Injective(name: Naming, all: set<S.Artifact>) {
    forall a, b :: a in all && b in all && name(a) == name(b) ==> a == b
  }

  ghost function Names(name: Naming, s: set<S.Artifact>): set<Id> {
    set a | a in s :: name(a)
  }

  /** The envelope carries the artifact's kind, and the IDs of its record and parents. */
  ghost predicate Carries(name: Naming, a: S.Artifact, e: H.Artifact) {
    && e.kind == a.request.kind
    && e.record == (if a.request.record.Some? then Some(name(a.request.record.value)) else None)
    && SetOf(e.parents) == Names(name, a.request.parents)
  }

  /** The history holds exactly these artifacts. */
  ghost predicate Represents(name: Naming, all: set<S.Artifact>, h: H.History) {
    && Injective(name, all) && h.byId.Keys == Names(name, all)
    && forall a :: a in all ==> name(a) in h.byId && Carries(name, a, h.byId[name(a)])
  }

  lemma SameRecord(name: Naming, all: set<S.Artifact>, h: H.History, a: S.Artifact, opening: S.Artifact)
    requires Represents(name, all, h) && P.Lineage(all) && a in all && opening in all
    ensures name(a) in h.byId
    ensures P.InRecord(a, opening) <==> H.InRecord(h, name(a), name(opening))
    ensures a.request.record == Some(opening) <==> h.byId[name(a)].record == Some(name(opening))
  {
    assert Carries(name, a, h.byId[name(a)]);
    assert a.request.record.Some? ==> a.request.record.value in all;
  }

  lemma SameParent(name: Naming, all: set<S.Artifact>, h: H.History, c: S.Artifact, a: S.Artifact)
    requires Represents(name, all, h) && P.Lineage(all) && c in all && a in all
    ensures name(c) in h.byId && (a in c.request.parents <==> name(a) in h.byId[name(c)].parents)
  {
    var e := h.byId[name(c)];
    assert Carries(name, c, e);
    assert name(a) in e.parents <==> name(a) in SetOf(e.parents);
    if name(a) in Names(name, c.request.parents) {
      var q :| q in c.request.parents && name(q) == name(a);
      assert q in all;
    }
  }

  ghost predicate Supersedes(all: set<S.Artifact>, c: S.Artifact, a: S.Artifact, opening: S.Artifact) {
    c in all && c.request.record == Some(opening) && a in c.request.parents
  }

  lemma SameSuperseded(name: Naming, all: set<S.Artifact>, h: H.History, a: S.Artifact, opening: S.Artifact)
    requires Represents(name, all, h) && P.Lineage(all) && a in all && opening in all
    ensures (exists c :: Supersedes(all, c, a, opening)) <==> H.Superseded(h, name(a), name(opening))
  {
    hide Represents, P.Lineage;
    if c :| Supersedes(all, c, a, opening) {
      SameRecord(name, all, h, c, opening);
      SameParent(name, all, h, c, a);
    }
    if H.Superseded(h, name(a), name(opening)) {
      var id :| id in h.byId && h.byId[id].record == Some(name(opening)) && name(a) in h.byId[id].parents;
      var c := Named(name, all, h, id);
      SameRecord(name, all, h, c, opening);
      SameParent(name, all, h, c, a);
      assert Supersedes(all, c, a, opening);
    }
  }

  lemma Named(name: Naming, all: set<S.Artifact>, h: H.History, id: Id) returns (a: S.Artifact)
    requires Represents(name, all, h) && id in h.byId
    ensures a in all && name(a) == id
  {
    assert id in Names(name, all);
    a :| a in all && name(a) == id;
  }

  lemma SameHead(name: Naming, all: set<S.Artifact>, h: H.History, a: S.Artifact, opening: S.Artifact)
    requires Represents(name, all, h) && P.Lineage(all) && a in all && opening in all
    ensures a in P.Heads(all, opening) <==> name(a) in H.Heads(h, name(opening))
  {
    hide Represents, P.Lineage;
    SameRecord(name, all, h, a, opening);
    SameSuperseded(name, all, h, a, opening);
    if b :| b in all && b.request.record == Some(opening) && a in b.request.parents {
      assert Supersedes(all, b, a, opening);
    }
  }

  /** The heads the protocol collapses are the heads the catalog lists. */
  lemma HeadsAgree(name: Naming, all: set<S.Artifact>, h: H.History, opening: S.Artifact)
    requires Represents(name, all, h) && P.Lineage(all) && opening in all
    ensures H.Heads(h, name(opening)) == Names(name, P.Heads(all, opening))
  {
    hide Represents, P.Lineage;
    forall id | id in H.Heads(h, name(opening)) ensures id in Names(name, P.Heads(all, opening)) {
      var a := Named(name, all, h, id);
      SameHead(name, all, h, a, opening);
    }
    forall a | a in P.Heads(all, opening) ensures name(a) in H.Heads(h, name(opening)) {
      SameHead(name, all, h, a, opening);
    }
  }

  /** In a repository written by one actor without imports, the history of every reachable
      state has exactly one head for each record, as the catalog would list it. */
  lemma SoloHistoryHasOneHead(
      states: seq<P.State>, actions: seq<P.Action>, actor: Actor, n: nat,
      name: Naming, h: H.History, opening: S.Artifact)
    requires T.Solo(states, actions, actor) && n < |states|
    requires Represents(name, P.Accepted(states[n].sh.refs), h)
    requires opening in P.Accepted(states[n].sh.refs) && opening.request.kind == RecordOpen
    ensures exists id :: H.Heads(h, name(opening)) == {id}
  {
    hide Represents, P.Lineage, T.Solo, P.Accepted, P.Heads;
    var all := P.Accepted(states[n].sh.refs);
    T.SoloHasOneHead(states, actions, actor, n);
    HeadsAgree(name, all, h, opening);
    var heads := P.Heads(all, opening);
    var head := OnlyMember(heads);
    assert Names(name, heads) == {name(head)};
  }

  lemma OnlyMember<T>(s: set<T>) returns (x: T)
    requires |s| == 1
    ensures s == {x}
  {
    x :| x in s;
    assert |s - {x}| == 0;
  }
}
