/** Loading overlapping actor streams: the full walk after the preflight, and what the
    loaded history is. */
module Load {
  import opened Basics
  import opened Admission
  import H = History
  import V = Validation

  // ---------------------------------------------------------------- streams

  /** What reading one commit alone establishes about its envelope. */
  predicate Readable(s: Stored) {
    s.readable && (s.sequence == 1 <==> s.previous.None?)
  }

  /** Digests are injective, so an ID fixes the content it is the digest of. */
  ghost predicate IdsAgree(store: Store) {
    forall a, b :: a in store && b in store && store[a].id == store[b].id ==>
      store[a].actor == store[b].actor && store[a].sequence == store[b].sequence
  }

  /** The stream of `tip`, genesis first. */
  ghost predicate StreamOf(store: Store, tip: Oid, chain: seq<Oid>) {
    && chain != [] && chain[|chain| - 1] == tip
    && forall i :: 0 <= i < |chain| ==> StreamAt(store, chain, i)
  }

  ghost predicate StreamAt(store: Store, chain: seq<Oid>, i: nat)
    requires i < |chain|
  {
    chain[i] in store && store[chain[i]].parent == if i == 0 then None else Some(chain[i - 1])
  }

  /** A stream of one actor whose envelopes continue each other. */
  ghost predicate Verified(store: Store, actor: Actor, chain: seq<Oid>) {
    && chain != [] && StreamOf(store, chain[|chain| - 1], chain)
    && forall i :: 0 <= i < |chain| ==> VerifiedAt(store, actor, chain, i)
  }

  ghost predicate VerifiedAt(store: Store, actor: Actor, chain: seq<Oid>, i: nat)
    requires i < |chain|
  {
    && chain[i] in store && store[chain[i]].readable
    && store[chain[i]].actor == actor && store[chain[i]].sequence == i + 1
    && (if i == 0 then store[chain[i]].previous.None?
        else chain[i - 1] in store && store[chain[i]].previous == Some(store[chain[i - 1]].id))
  }

  /** On verified streams a commit's sequence is its position, so equal IDs are equal
      positions. */
  lemma SameIdSamePlace(store: Store, actor: Actor, a: seq<Oid>, i: nat, other: Actor, b: seq<Oid>, j: nat)
    requires IdsAgree(store) && Verified(store, actor, a) && Verified(store, other, b)
    requires i < |a| && j < |b| && a[i] in store && b[j] in store && store[a[i]].id == store[b[j]].id
    ensures i == j && actor == other
  {
    assert VerifiedAt(store, actor, a, i) && VerifiedAt(store, other, b, j);
  }

  lemma PrefixStream(store: Store, chain: seq<Oid>, n: nat)
    requires 0 < n <= |chain| && StreamOf(store, chain[|chain| - 1], chain)
    ensures StreamOf(store, chain[n - 1], chain[..n])
  {
    var part := chain[..n];
    forall i | 0 <= i < n ensures StreamAt(store, part, i) {
      assert StreamAt(store, chain, i);
    }
  }

  /** Reversing the ancestry gives the stream. */
  lemma ReversedAncestry(store: Store, tip: Oid, path: seq<Oid>, chain: seq<Oid>)
    requires Ancestry(store, tip, path) && Reverses(path, chain)
    ensures StreamOf(store, tip, chain)
  {
  }

  ghost predicate Reverses(path: seq<Oid>, chain: seq<Oid>) {
    |chain| == |path| && forall i :: 0 <= i < |path| ==> chain[i] == path[|path| - 1 - i]
  }

  /** Swap from both ends towards the middle. */
  method Reverse(path: seq<Oid>) returns (chain: seq<Oid>)
    ensures Reverses(path, chain) && SetOf(chain) == SetOf(path)
  {
    chain := path;
    var i, j := 0, |path| - 1;
    while i < j
      invariant 0 <= i <= j + 1 && i + j == |path| - 1 && |chain| == |path|
      invariant forall k :: 0 <= k < i ==> chain[k] == path[|path| - 1 - k]
      invariant forall k :: j < k < |path| ==> chain[k] == path[|path| - 1 - k]
      invariant forall k :: i <= k <= j ==> chain[k] == path[k]
    {
      chain := chain[i := chain[j]][j := chain[i]];
      i, j := i + 1, j - 1;
    }
    ReversesMembers(path, chain);
  }

  lemma ReversesMembers(path: seq<Oid>, chain: seq<Oid>)
    requires Reverses(path, chain)
    ensures SetOf(chain) == SetOf(path)
  {
    forall k | 0 <= k < |path| ensures path[k] in SetOf(chain) && chain[k] in SetOf(path) {
      assert chain[|path| - 1 - k] == path[k];
    }
  }

  // ---------------------------------------------------------------- the loaded history

  type Chains = map<Actor, seq<Oid>>

  type Index = map<Id, Oid>

  /** Every chain is a verified stream. */
  ghost predicate ChainsOk(store: Store, chains: Chains) {
    forall a :: a in chains ==> Verified(store, a, chains[a])
  }

  /** The commit lies on the chain of the actor who signed it. */
  ghost predicate OnChain(store: Store, chains: Chains, o: Oid) {
    o in store && store[o].actor in chains && o in chains[store[o].actor]
  }

  /** Between sources every cached commit lies on a chain: this is what makes skipping an
      already cached tip sound. */
  ghost predicate Placed(store: Store, cached: set<Oid>, chains: Chains) {
    forall o :: o in cached ==> OnChain(store, chains, o)
  }

  /** Cached commits are the stored ones. */
  ghost predicate Cached(store: Store, cache: map<Oid, Stored>) {
    forall o :: o in cache ==> o in store && cache[o] == store[o] && Readable(cache[o])
  }

  ghost predicate Consistent(store: Store, cache: map<Oid, Stored>, byId: Index, chains: Chains) {
    && Cached(store, cache) && ChainsOk(store, chains)
    && Placed(store, cache.Keys, chains) && Indexed(store, byId, chains)
  }

  /** The index is the union of the chains: what it holds lies on a chain, and it maps
      the ID of every commit on a chain to that commit. */
  ghost predicate Indexed(store: Store, byId: Index, chains: Chains) {
    && (forall id :: id in byId ==> OnChain(store, chains, byId[id]) && store[byId[id]].id == id)
    && (forall a, i :: a in chains && 0 <= i < |chains[a]| ==> Listed(store, byId, chains[a][i]))
  }

  ghost predicate Listed(store: Store, byId: Index, o: Oid) {
    o in store && Lookup(byId, store[o].id) == Some(o)
  }

  /** The chain of an actor after `chain` has been merged into it. */
  ghost predicate Merged(chains: Chains, after: Chains, actor: Actor, chain: seq<Oid>) {
    && actor in after && after == chains[actor := after[actor]] && chain <= after[actor]
    && (if actor in chains && |chain| < |chains[actor]| then after[actor] == chains[actor]
        else after[actor] == chain && (actor in chains ==> chains[actor] <= chain))
  }

  /** What one accepted source does to the chains: none shrinks, the source's tip lies on
      its actor's chain, and a changed chain ends in that tip. */
  ghost predicate Extended(store: Store, before: Chains, after: Chains, source: Source) {
    && (forall a :: a in before ==> a in after && before[a] <= after[a])
    && source.actor in after && source.tip in after[source.actor]
    && (forall a :: a in after ==>
          || (a in before && after[a] == before[a])
          || (a == source.actor && after[a] != [] && after[a][|after[a]| - 1] == source.tip))
  }

  lemma WrongOwner(store: Store, cache: map<Oid, Stored>, byId: Index, chains: Chains, source: Source)
    requires Consistent(store, cache, byId, chains) && source.tip in cache
    requires cache[source.tip].actor != source.actor
    ensures Unhosted(store, chains, source)
  {
    forall chain: seq<Oid> | Verified(store, source.actor, chain) ensures source.tip !in chain {
      forall i | 0 <= i < |chain| ensures chain[i] != source.tip {
        assert VerifiedAt(store, source.actor, chain, i);
      }
    }
    assert Unverifiable(store, source.actor, source.tip);
    UnverifiableUnhosted(store, chains, source);
  }

  lemma Skipped(store: Store, cache: map<Oid, Stored>, byId: Index, chains: Chains, source: Source)
    requires Consistent(store, cache, byId, chains) && source.tip in cache
    requires cache[source.tip].actor == source.actor
    ensures Extended(store, chains, chains, source) && StaysHosted(store, chains, chains, source)
  {
  }

  lemma MergedExtends(store: Store, chains: Chains, after: Chains, source: Source, chain: seq<Oid>)
    requires Merged(chains, after, source.actor, chain) && StreamOf(store, source.tip, chain)
    ensures Extended(store, chains, after, source)
  {
  }

  /** Everything a new chain must satisfy, put together. */
  lemma MergedConsistent(store: Store, before: set<Oid>, cache: map<Oid, Stored>, byId: Index, now: Index,
                         chains: Chains, after: Chains, actor: Actor, chain: seq<Oid>)
    requires IdsAgree(store) && Cached(store, cache) && cache.Keys == before + SetOf(chain)
    requires ChainsOk(store, chains) && Placed(store, before, chains) && Indexed(store, byId, chains)
    requires Verified(store, actor, chain) && OwnedBy(store, actor, SetOf(chain))
    requires Merged(chains, after, actor, chain) && Reindexed(byId, now, store, chain, |chain|)
    ensures Consistent(store, cache, now, after)
  {
    hide IdsAgree, Verified, OwnedBy, Merged, Reindexed, Cached, Placed, Indexed, ChainsOk;
    MergedPlaced(store, before, chains, after, actor, chain);
    MergedIndexed(store, byId, now, chains, after, actor, chain);
  }

  /** What verifying a chain may rely on. */
  lemma ReadyToVerify(store: Store, before: map<Oid, Stored>, cache: map<Oid, Stored>, byId: Index, chains: Chains,
                      chain: seq<Oid>)
    requires Consistent(store, before, byId, chains) && Cached(store, cache) && SetOf(chain) <= cache.Keys
    ensures AllReadable(store, SetOf(chain)) && Inside(store, byId)
    ensures ChainsOk(store, chains) && Placed(store, before.Keys, chains) && Indexed(store, byId, chains)
  {
  }

  ghost predicate AllReadable(store: Store, s: set<Oid>) {
    forall o :: o in s ==> o in store && Readable(store[o])
  }

  ghost predicate Inside(store: Store, byId: Index) {
    forall id :: id in byId ==> byId[id] in store
  }

  lemma MergedPlaced(store: Store, cached: set<Oid>, chains: Chains, after: Chains, actor: Actor, chain: seq<Oid>)
    requires Placed(store, cached, chains) && Merged(chains, after, actor, chain)
    requires OwnedBy(store, actor, SetOf(chain))
    ensures Placed(store, cached + SetOf(chain), after)
  {
  }

  /** A commit that was listed stays listed: a new entry for its ID is the same commit. */
  lemma StaysListed(store: Store, byId: Index, now: Index, chains: Chains, after: Chains,
                    actor: Actor, chain: seq<Oid>, a: Actor, i: nat)
    requires IdsAgree(store) && ChainsOk(store, chains) && Verified(store, actor, chain)
    requires Merged(chains, after, actor, chain) && Reindexed(byId, now, store, chain, |chain|)
    requires a in chains && i < |chains[a]| && Listed(store, byId, chains[a][i])
    ensures Listed(store, now, chains[a][i])
  {
    hide IdsAgree, Verified;
    var id := store[chains[a][i]].id;
    if Lookup(byId, id) != Some(now[id]) {
      var k :| 0 <= k < |chain| && now[id] == chain[k] && chain[k] in store && store[chain[k]].id == id;
      SameIdSamePlace(store, a, chains[a], i, actor, chain, k);
    }
  }

  lemma MergedIndexed(store: Store, byId: Index, now: Index, chains: Chains, after: Chains, actor: Actor,
                      chain: seq<Oid>)
    requires IdsAgree(store) && ChainsOk(store, chains) && Verified(store, actor, chain)
    requires OwnedBy(store, actor, SetOf(chain)) && Indexed(store, byId, chains)
    requires Merged(chains, after, actor, chain) && Reindexed(byId, now, store, chain, |chain|)
    ensures Indexed(store, now, after) && ChainsOk(store, after)
  {
    hide IdsAgree, Verified, OwnedBy;
    forall id | id in now ensures OnChain(store, after, now[id]) && store[now[id]].id == id {
      IndexedKeeps(store, byId, now, chains, after, actor, chain, id);
    }
    forall a, i | a in after && 0 <= i < |after[a]| ensures Listed(store, now, after[a][i]) {
      if a in chains && after[a] == chains[a] {
        StaysListed(store, byId, now, chains, after, actor, chain, a, i);
      } else {
        assert after[a] == chain && chain[i] in store;
      }
    }
  }

  lemma IndexedKeeps(store: Store, byId: Index, now: Index, chains: Chains, after: Chains,
                     actor: Actor, chain: seq<Oid>, id: Id)
    requires OwnedBy(store, actor, SetOf(chain)) && Indexed(store, byId, chains) && id in now
    requires Merged(chains, after, actor, chain) && Reindexed(byId, now, store, chain, |chain|)
    ensures OnChain(store, after, now[id]) && store[now[id]].id == id
  {
  }

  // ---------------------------------------------------------------- why a load is refused

  /** A tip has one stream. */
  lemma {:induction false} StreamUnique(store: Store, tip: Oid, a: seq<Oid>, b: seq<Oid>)
    requires StreamOf(store, tip, a) && StreamOf(store, tip, b)
    ensures a == b
    decreases |a|
  {
    var n, m := |a| - 1, |b| - 1;
    assert StreamAt(store, a, n) && StreamAt(store, b, m);
    if n > 0 {
      PrefixStream(store, a, n);
      PrefixStream(store, b, m);
      StreamUnique(store, a[n - 1], a[..n], b[..m]);
    }
    assert a == a[..n] + [tip] && b == b[..m] + [tip];
  }

  /** No verified stream of the actor passes through the commit. */
  ghost predicate Unverifiable(store: Store, actor: Actor, tip: Oid) {
    forall chain: seq<Oid> :: Verified(store, actor, chain) ==> tip !in chain
  }

  /** Verified streams that continue the chains known so far. */
  ghost predicate Hosts(store: Store, g: Chains, chains: Chains) {
    ChainsOk(store, g) && forall a :: a in chains ==> a in g && chains[a] <= g[a]
  }

  ghost predicate Hosted(g: Chains, source: Source) {
    source.actor in g && source.tip in g[source.actor]
  }

  /** The source fits no family of verified streams that continue the known chains. */
  ghost predicate Unhosted(store: Store, chains: Chains, source: Source) {
    forall g: Chains :: Hosts(store, g, chains) ==> !Hosted(g, source)
  }

  /** Whatever family hosted the chains and the source hosts the new chains. */
  ghost predicate StaysHosted(store: Store, before: Chains, after: Chains, source: Source) {
    forall g: Chains :: Hosts(store, g, before) && Hosted(g, source) ==> Hosts(store, g, after)
  }

  /** A walk from a commit on a verified stream stays on it. */
  lemma {:induction false} WalkOnChain(store: Store, actor: Actor, chain: seq<Oid>, tip: Oid, path: seq<Oid>, next: Oid)
    requires Verified(store, actor, chain) && tip in chain && Walking(store, tip, path, Some(next))
    ensures next in chain
    decreases |path|
  {
    if path != [] {
      var n := |path| - 1;
      assert Walking(store, tip, path[..n], Some(path[n])) by {
        WalkBack(store, tip, path);
      }
      WalkOnChain(store, actor, chain, tip, path[..n], path[n]);
      var i :| 0 <= i < |chain| && chain[i] == path[n];
      assert StreamAt(store, chain, i);
    }
  }

  lemma WalkBack(store: Store, tip: Oid, path: seq<Oid>)
    requires path != [] && Descent(store, path) && path[0] == tip
    ensures Walking(store, tip, path[..|path| - 1], Some(path[|path| - 1]))
  {
    var n := |path| - 1;
    if n > 0 {
      assert store[path[n - 1]].parent == Some(path[n - 1 + 1]);
    }
  }

  lemma OffChain(store: Store, actor: Actor, tip: Oid, path: seq<Oid>, oid: Oid)
    requires Walking(store, tip, path, Some(oid))
    requires oid !in store || !Readable(store[oid]) || store[oid].actor != actor
    ensures Unverifiable(store, actor, tip)
  {
    forall chain: seq<Oid> | Verified(store, actor, chain) ensures tip !in chain {
      forall i | 0 <= i < |chain| ensures chain[i] != oid {
        assert VerifiedAt(store, actor, chain, i);
      }
      if tip in chain {
        WalkOnChain(store, actor, chain, tip, path, oid);
      }
    }
  }

  lemma UnverifiableUnhosted(store: Store, chains: Chains, source: Source)
    requires Unverifiable(store, source.actor, source.tip)
    ensures Unhosted(store, chains, source)
  {
  }

  /** The stream of a commit on a verified stream is a verified prefix of it. */
  lemma StreamIsPrefix(store: Store, actor: Actor, whole: seq<Oid>, tip: Oid, chain: seq<Oid>)
    requires Verified(store, actor, whole) && tip in whole && StreamOf(store, tip, chain)
    ensures chain <= whole && Verified(store, actor, chain)
  {
    var i :| 0 <= i < |whole| && whole[i] == tip;
    PrefixStream(store, whole, i + 1);
    StreamUnique(store, tip, chain, whole[..i + 1]);
    forall k | 0 <= k < |chain| ensures VerifiedAt(store, actor, chain, k) {
      assert VerifiedAt(store, actor, whole, k);
    }
  }

  lemma BrokenUnhosted(store: Store, chains: Chains, source: Source, chain: seq<Oid>)
    requires StreamOf(store, source.tip, chain) && !Verified(store, source.actor, chain)
    ensures Unhosted(store, chains, source)
  {
    hide Verified, StreamOf;
    forall g: Chains | Hosts(store, g, chains) ensures !Hosted(g, source) {
      if Hosted(g, source) {
        StreamIsPrefix(store, source.actor, g[source.actor], source.tip, chain);
      }
    }
  }

  lemma DivergentUnhosted(store: Store, chains: Chains, source: Source, chain: seq<Oid>)
    requires StreamOf(store, source.tip, chain) && source.actor in chains
    requires !(chain <= chains[source.actor]) && !(chains[source.actor] <= chain)
    ensures Unhosted(store, chains, source)
  {
    hide Verified, StreamOf;
    forall g: Chains | Hosts(store, g, chains) ensures !Hosted(g, source) {
      if Hosted(g, source) {
        StreamIsPrefix(store, source.actor, g[source.actor], source.tip, chain);
      }
    }
  }

  /** Some commit of the chain contradicts the index: same ID, other signature. */
  ghost predicate Contradicts(store: Store, byId: Index, chain: seq<Oid>, i: int) {
    && 0 <= i < |chain| && chain[i] in store && store[chain[i]].id in byId
    && byId[store[chain[i]].id] in store
    && store[byId[store[chain[i]].id]].signature != store[chain[i]].signature
  }

  lemma ContradictoryUnhosted(store: Store, byId: Index, chains: Chains, source: Source, chain: seq<Oid>, i: int)
    requires IdsAgree(store) && Indexed(store, byId, chains) && StreamOf(store, source.tip, chain)
    requires Contradicts(store, byId, chain, i)
    ensures Unhosted(store, chains, source)
  {
    hide IdsAgree, Verified, StreamOf;
    forall g: Chains | Hosts(store, g, chains) ensures !Hosted(g, source) {
      if Hosted(g, source) {
        StreamIsPrefix(store, source.actor, g[source.actor], source.tip, chain);
        var o := byId[store[chain[i]].id];
        assert OnChain(store, chains, o) && store[o].id == store[chain[i]].id;
        var a := store[o].actor;
        var j :| 0 <= j < |chains[a]| && chains[a][j] == o;
        assert g[a][j] == o && g[source.actor][i] == chain[i];
        SameIdSamePlace(store, source.actor, g[source.actor], i, a, g[a], j);
      }
    }
  }

  lemma MergedHosted(store: Store, chains: Chains, after: Chains, source: Source, chain: seq<Oid>)
    requires Merged(chains, after, source.actor, chain) && StreamOf(store, source.tip, chain)
    ensures StaysHosted(store, chains, after, source)
  {
    hide Verified, StreamOf;
    forall g: Chains | Hosts(store, g, chains) && Hosted(g, source) ensures Hosts(store, g, after) {
      StreamIsPrefix(store, source.actor, g[source.actor], source.tip, chain);
    }
  }

  // ---------------------------------------------------------------- the full walk

  class Reader {
    const store: Store
    var cache: map<Oid, Stored>
    var byId: map<Id, Oid>
    var chains: map<Actor, seq<Oid>>

    constructor (store: Store)
      ensures this.store == store && cache == map[] && byId == map[] && chains == map[]
    {
      this.store := store;
      cache, byId, chains := map[], map[], map[];
    }

    ghost predicate Inv()
      reads this
    {
      Consistent(store, cache, byId, chains)
    }

    /** Read one commit unless it is cached. */
    method Fetch(oid: Oid, ghost within: set<Oid>) returns (refusal: Option<Code>)
      requires Cached(store, cache) && cache.Keys <= within && oid in within
      modifies this`cache
      ensures Cached(store, cache) && cache.Keys <= within
      ensures refusal.None? ==>
        oid in cache && oid in store && cache[oid] == store[oid] && cache.Keys == old(cache.Keys) + {oid}
      ensures refusal.Some? ==> refusal.value == if |old(cache)| >= H.READ_ENTRIES then TooMany else Unreadable
      ensures refusal == Some(TooMany) ==> |within| > H.READ_ENTRIES
      ensures refusal == Some(Unreadable) ==> oid !in store || !Readable(store[oid])
    {
      if oid !in cache {
        if |cache| >= H.READ_ENTRIES {
          Larger(cache, within, oid);
          return Some(TooMany);
        }
        if oid !in store || !Readable(store[oid]) {
          return Some(Unreadable);
        }
        cache := cache[oid := store[oid]];
      }
      return None;
    }

    /** One step of a walk: refuse a cycle, read the commit, check its owner. */
    method Visit(source: Source, path: seq<Oid>, oid: Oid, ghost within: set<Oid>) returns (refusal: Option<Code>)
      requires Cached(store, cache) && cache.Keys <= within && oid in within
      requires Walking(store, source.tip, path, Some(oid))
      modifies this`cache
      ensures Cached(store, cache) && cache.Keys <= within
      ensures refusal.None? ==>
        && oid in cache && oid in store && cache[oid] == store[oid] && cache.Keys == old(cache.Keys) + {oid}
        && store[oid].actor == source.actor && oid !in SetOf(path)
      ensures refusal == Some(Cyclic) ==> !Grounded(store, source.tip)
      ensures refusal == Some(TooMany) ==> |within| > H.READ_ENTRIES
      ensures refusal.Some? && refusal.value !in {Cyclic, TooMany} ==>
        Unverifiable(store, source.actor, source.tip)
    {
      hide Walking, Grounded, Cached, Unverifiable, Readable;
      if oid in path {
        WalkRepeats(store, source.tip, path, oid);
        return Some(Cyclic);
      }
      refusal := Fetch(oid, within);
      if refusal.None? && cache[oid].actor != source.actor {
        refusal := Some(OwnerMismatch);
      }
      if refusal == Some(Unreadable) || refusal == Some(OwnerMismatch) {
        OffChain(store, source.actor, source.tip, path, oid);
      }
    }

    /** Follow the parents of a source's tip to the end. */
    method Walk(source: Source, ghost within: set<Oid>) returns (r: Outcome<seq<Oid>, Code>)
      requires Cached(store, cache) && ParentClosed(store, within) && source.tip in within && cache.Keys <= within
      modifies this`cache
      ensures Cached(store, cache) && cache.Keys <= within
      ensures r.Ok? ==> Ancestry(store, source.tip, r.value)
      ensures r.Ok? ==> cache.Keys == old(cache.Keys) + SetOf(r.value)
      ensures r.Ok? ==> OwnedBy(store, source.actor, SetOf(r.value))
      ensures r == Refused(Cyclic) ==> !Grounded(store, source.tip)
      ensures r == Refused(TooMany) ==> |within| > H.READ_ENTRIES
      ensures r.Refused? && r.code !in {Cyclic, TooMany} ==> Unverifiable(store, source.actor, source.tip)
    {
      hide *;
      var path: seq<Oid> := [];
      var next := Some(source.tip);
      WalkStarts(store, {}, source.tip);
      NoneOwned(store, source.actor);
      while next.Some?
        invariant Walking(store, source.tip, path, next)
        invariant Cached(store, cache) && cache.Keys <= within
        invariant cache.Keys == old(cache.Keys) + SetOf(path)
        invariant OwnedBy(store, source.actor, SetOf(path))
        decreases within - SetOf(path)
      {
        var oid := next.value;
        WalkStays(store, within, source.tip, path, next);
        var refusal := Visit(source, path, oid, within);
        if refusal.Some? {
          return Refused(refusal.value);
        }
        WalkSteps(store, source.tip, path, oid);
        OneOwned(store, source.actor, SetOf(path), oid);
        path := path + [oid];
        next := cache[oid].parent;
      }
      WalkEnds(store, source.tip, path);
      r := Ok(path);
    }

    /** Verify each envelope against its predecessor and index it. */
    method Verify(actor: Actor, chain: seq<Oid>) returns (refusal: Option<Code>)
      requires IdsAgree(store) && chain != [] && StreamOf(store, chain[|chain| - 1], chain)
      requires OwnedBy(store, actor, SetOf(chain)) && AllReadable(store, SetOf(chain)) && Inside(store, byId)
      modifies this`byId
      ensures refusal.Some? ==> refusal.value in {BrokenChain, Contradictory}
      ensures refusal == Some(BrokenChain) ==> !Verified(store, actor, chain)
      ensures refusal == Some(Contradictory) ==> exists i :: Contradicts(store, old(byId), chain, i)
      ensures refusal.None? ==> Verified(store, actor, chain) && Reindexed(old(byId), byId, store, chain, |chain|)
    {
      hide Readable, StreamOf, IdsAgree;
      var i := 0;
      while i < |chain|
        invariant i <= |chain| && forall k :: 0 <= k < i ==> VerifiedAt(store, actor, chain, k)
        invariant Inside(store, byId) && Reindexed(old(byId), byId, store, chain, i)
      {
        assert chain[i] in SetOf(chain) && (i > 0 ==> chain[i - 1] in SetOf(chain));
        var s := store[chain[i]];
        if i == 0 && s.sequence != 1 {
          assert !VerifiedAt(store, actor, chain, i);
          return Some(BrokenChain);
        }
        if i > 0 && !Continues(store[chain[i - 1]], s) {
          NotContinued(store, actor, chain, i);
          return Some(BrokenChain);
        }
        Continued(store, actor, chain, i);
        if s.id in byId && store[byId[s.id]].signature != s.signature {
          OldContradiction(store, actor, chain, i, old(byId), byId);
          return Some(Contradictory);
        }
        ReindexedNext(store, actor, chain, i, old(byId), byId);
        byId := byId[s.id := chain[i]];
        i := i + 1;
      }
      return None;
    }

    /** Compare with the chain known so far, commit by commit, and keep the longer one. */
    method Merge(actor: Actor, chain: seq<Oid>) returns (refusal: Option<Code>)
      modifies this`chains
      ensures refusal.None? ==> Merged(old(chains), chains, actor, chain)
      ensures refusal.Some? ==> refusal == Some(Divergent) && chains == old(chains) && actor in chains
      ensures refusal.Some? ==> !(chain <= chains[actor]) && !(chains[actor] <= chain)
    {
      if actor in chains {
        var known := chains[actor];
        var n := if |chain| < |known| then |chain| else |known|;
        for i := 0 to n
          invariant forall k :: 0 <= k < i ==> known[k] == chain[k]
        {
          if known[i] != chain[i] {
            return Some(Divergent);
          }
        }
        if |chain| < |known| {
          assert chain == known[..n] && chains == chains[actor := known];
          return None;
        }
        assert known == chain[..n];
      }
      chains := chains[actor := chain];
      return None;
    }

    /** Load one source. */
    method ReadSource(source: Source, ghost within: set<Oid>) returns (refusal: Option<Code>)
      requires Inv() && IdsAgree(store)
      requires ParentClosed(store, within) && source.tip in within && cache.Keys <= within
      modifies this
      ensures refusal.None? ==> Inv() && cache.Keys <= within
      ensures refusal.None? ==> Extended(store, old(chains), chains, source)
      ensures refusal == Some(Cyclic) ==> !Grounded(store, source.tip)
      ensures refusal == Some(TooMany) ==> |within| > H.READ_ENTRIES
      ensures refusal.None? ==> StaysHosted(store, old(chains), chains, source)
      ensures refusal.Some? && refusal.value !in {Cyclic, TooMany} ==> Unhosted(store, old(chains), source)
    {
      hide Cached, ChainsOk, Placed, Indexed, Consistent, IdsAgree, ParentClosed, Grounded, Extended, StreamOf,
           Verified, Reindexed, Merged, OwnedBy, AllReadable, Inside, Ancestry, SetOf, Reverses, Unverifiable,
           Unhosted, StaysHosted, Contradicts;
      if source.tip in cache {
        if cache[source.tip].actor != source.actor {
          WrongOwner(store, cache, byId, chains, source);
          return Some(OwnerMismatch);
        }
        Skipped(store, cache, byId, chains, source);
        return None;
      }
      ghost var before, index, known := cache, byId, chains;
      assert Consistent(store, before, index, known);
      CachedPart(store, before, index, known);
      var walk := Walk(source, within);
      if walk.Refused? {
        if walk.code !in {Cyclic, TooMany} {
          UnverifiableUnhosted(store, known, source);
        }
        return Some(walk.code);
      }
      var chain := Reverse(walk.value);
      ReversedAncestry(store, source.tip, walk.value, chain);
      StreamEnds(store, source.tip, chain);
      ReadyToVerify(store, before, cache, index, known, chain);
      var broken := Verify(source.actor, chain);
      if broken == Some(BrokenChain) {
        BrokenUnhosted(store, known, source, chain);
      }
      if broken == Some(Contradictory) {
        ghost var i :| Contradicts(store, index, chain, i);
        ContradictoryUnhosted(store, index, known, source, chain, i);
      }
      if broken.Some? {
        return Some(broken.value);
      }
      var conflict := Merge(source.actor, chain);
      if conflict.Some? {
        DivergentUnhosted(store, known, source, chain);
        return Some(conflict.value);
      }
      MergedHosted(store, known, chains, source, chain);
      MergedExtends(store, known, chains, source, chain);
      MergedConsistent(store, before.Keys, cache, index, byId, known, chains, source.actor, chain);
      return None;
    }
  }

  lemma CachedPart(store: Store, cache: map<Oid, Stored>, byId: Index, chains: Chains)
    requires Consistent(store, cache, byId, chains)
    ensures Cached(store, cache)
  {
  }

  lemma StreamEnds(store: Store, tip: Oid, chain: seq<Oid>)
    requires StreamOf(store, tip, chain)
    ensures chain != [] && chain[|chain| - 1] == tip
  {
  }

  ghost predicate OwnedBy(store: Store, actor: Actor, s: set<Oid>) {
    forall o :: o in s ==> o in store && store[o].actor == actor
  }

  lemma NoneOwned(store: Store, actor: Actor)
    ensures OwnedBy(store, actor, {})
  {
  }

  lemma OneOwned(store: Store, actor: Actor, s: set<Oid>, o: Oid)
    requires OwnedBy(store, actor, s) && o in store && store[o].actor == actor
    ensures OwnedBy(store, actor, s + {o})
  {
  }

  lemma WalkEnds(store: Store, tip: Oid, path: seq<Oid>)
    requires Walking(store, tip, path, None)
    ensures Ancestry(store, tip, path)
  {
  }

  lemma Larger(cache: map<Oid, Stored>, within: set<Oid>, oid: Oid)
    requires cache.Keys <= within && oid in within && oid !in cache
    ensures |within| > |cache|
  {
    Subset(cache.Keys + {oid}, within);
    assert |cache.Keys + {oid}| == |cache| + 1;
  }

  /** The predecessor checks on a signed envelope. */
  predicate Continues(previous: Stored, s: Stored) {
    previous.actor == s.actor && s.sequence == previous.sequence + 1 && s.previous == Some(previous.id)
  }

  lemma Continued(store: Store, actor: Actor, chain: seq<Oid>, i: nat)
    requires i < |chain| && chain[i] in store && store[chain[i]].actor == actor && Readable(store[chain[i]])
    requires forall k :: 0 <= k < i ==> VerifiedAt(store, actor, chain, k)
    requires i == 0 ==> store[chain[i]].sequence == 1
    requires i > 0 ==> chain[i - 1] in store && Continues(store[chain[i - 1]], store[chain[i]])
    ensures VerifiedAt(store, actor, chain, i)
  {
    if i > 0 {
      assert VerifiedAt(store, actor, chain, i - 1);
    }
  }

  lemma NotContinued(store: Store, actor: Actor, chain: seq<Oid>, i: nat)
    requires 0 < i < |chain| && chain[i] in store && chain[i - 1] in store
    requires !Continues(store[chain[i - 1]], store[chain[i]])
    ensures !Verified(store, actor, chain)
  {
    assert !VerifiedAt(store, actor, chain, i - 1) || !VerifiedAt(store, actor, chain, i);
  }

  /** A contradiction is with the index as it was: the chain has no ID twice. */
  lemma OldContradiction(store: Store, actor: Actor, chain: seq<Oid>, i: nat, before: map<Id, Oid>, now: map<Id, Oid>)
    requires IdsAgree(store) && i < |chain| && Reindexed(before, now, store, chain, i)
    requires forall k :: 0 <= k <= i ==> VerifiedAt(store, actor, chain, k)
    requires chain[i] in store && store[chain[i]].id in now && now[store[chain[i]].id] in store
    requires store[now[store[chain[i]].id]].signature != store[chain[i]].signature
    ensures Contradicts(store, before, chain, i)
  {
    assert VerifiedAt(store, actor, chain, i);
    forall k | 0 <= k < i ensures chain[k] in store && store[chain[k]].id != store[chain[i]].id {
      assert VerifiedAt(store, actor, chain, k);
    }
  }

  /** `after` is `before` with the first `n` commits of the chain indexed by their IDs. */
  ghost predicate Reindexed(before: map<Id, Oid>, after: map<Id, Oid>, store: Store, chain: seq<Oid>, n: nat)
    requires n <= |chain|
  {
    && (forall k :: 0 <= k < n ==> chain[k] in store && Lookup(after, store[chain[k]].id) == Some(chain[k]))
    && (forall id :: id in before ==> id in after)
    && (forall id :: id in after ==>
          || Lookup(before, id) == Some(after[id])
          || exists k :: 0 <= k < n && after[id] == chain[k] && chain[k] in store && store[chain[k]].id == id)
  }

  lemma ReindexedNext(store: Store, actor: Actor, chain: seq<Oid>, i: nat, before: map<Id, Oid>, now: map<Id, Oid>)
    requires IdsAgree(store) && i < |chain|
    requires forall k :: 0 <= k <= i ==> VerifiedAt(store, actor, chain, k)
    requires Reindexed(before, now, store, chain, i)
    ensures chain[i] in store
    ensures Reindexed(before, now[store[chain[i]].id := chain[i]], store, chain, i + 1)
  {
    assert VerifiedAt(store, actor, chain, i);
    forall k | 0 <= k < i ensures store[chain[k]].id != store[chain[i]].id {
      assert VerifiedAt(store, actor, chain, k);
    }
  }

  // ---------------------------------------------------------------- load

  /** What a successful load delivers: every source's stream is a prefix of its actor's
      chain, every chain is the stream of some source, and the index is their union. */
  ghost predicate Delivers(store: Store, sources: seq<Source>, chains: Chains, byId: Index) {
    && ChainsOk(store, chains) && Indexed(store, byId, chains)
    && (forall k :: 0 <= k < |sources| ==> PrefixDelivered(store, sources[k], chains))
    && (forall a :: a in chains ==> ChainIsStream(store, sources, a, chains[a]))
  }

  ghost predicate PrefixDelivered(store: Store, source: Source, chains: Chains) {
    source.actor in chains && exists s :: StreamOf(store, source.tip, s) && s <= chains[source.actor]
  }

  ghost predicate ChainIsStream(store: Store, sources: seq<Source>, a: Actor, chain: seq<Oid>) {
    exists k :: 0 <= k < |sources| && sources[k].actor == a && StreamOf(store, sources[k].tip, chain)
  }

  /** The sources read so far. */
  ghost predicate Progress(sources: seq<Source>, n: nat, chains: Chains)
    requires n <= |sources|
  {
    && (forall k :: 0 <= k < n ==> sources[k].actor in chains && sources[k].tip in chains[sources[k].actor])
    && (forall a :: a in chains ==> EndsIn(sources, n, a, chains[a]))
  }

  ghost predicate EndsIn(sources: seq<Source>, n: nat, a: Actor, chain: seq<Oid>)
    requires n <= |sources|
  {
    chain != [] && exists k :: 0 <= k < n && sources[k] == Source(a, chain[|chain| - 1])
  }

  lemma ProgressNext(store: Store, sources: seq<Source>, n: nat, before: Chains, after: Chains)
    requires n < |sources| && Progress(sources, n, before) && Extended(store, before, after, sources[n])
    ensures Progress(sources, n + 1, after)
  {
  }

  /** A commit on a chain has its own stream as a prefix of that chain. */
  lemma OnChainPrefix(store: Store, actor: Actor, chain: seq<Oid>, tip: Oid)
    requires Verified(store, actor, chain) && tip in chain
    ensures exists s :: StreamOf(store, tip, s) && s <= chain
  {
    var i :| 0 <= i < |chain| && chain[i] == tip;
    PrefixStream(store, chain, i + 1);
    assert chain[..i + 1] <= chain;
  }

  lemma ProgressDelivers(store: Store, sources: seq<Source>, cache: map<Oid, Stored>, chains: Chains, byId: Index)
    requires Consistent(store, cache, byId, chains) && Progress(sources, |sources|, chains)
    ensures Delivers(store, sources, chains, byId)
  {
    hide Indexed, Placed, Cached, StreamOf;
    forall k | 0 <= k < |sources| ensures PrefixDelivered(store, sources[k], chains) {
      OnChainPrefix(store, sources[k].actor, chains[sources[k].actor], sources[k].tip);
    }
    forall a | a in chains ensures ChainIsStream(store, sources, a, chains[a]) {
      assert EndsIn(sources, |sources|, a, chains[a]) && Verified(store, a, chains[a]);
    }
  }

  lemma StartsEmpty(store: Store, sources: seq<Source>)
    ensures Consistent(store, map[], map[], map[]) && Progress(sources, 0, map[])
  {
  }

  lemma Tip(store: Store, sources: seq<Source>, s: set<Oid>, k: nat)
    requires Admits(store, sources, s) && k < |sources|
    ensures ParentClosed(store, s) && sources[k].tip in s && Grounded(store, sources[k].tip) && |s| <= H.READ_ENTRIES
  {
  }

  /** All sources fit one family of verified streams. */
  ghost predicate Coherent(store: Store, sources: seq<Source>, g: Chains) {
    ChainsOk(store, g) && forall k :: 0 <= k < |sources| ==> Hosted(g, sources[k])
  }

  lemma HostsNothing(store: Store, sources: seq<Source>)
    ensures forall g: Chains :: Coherent(store, sources, g) ==> Hosts(store, g, map[])
  {
  }

  lemma CoherentHosts(store: Store, sources: seq<Source>, k: nat, before: Chains, after: Chains)
    requires k < |sources| && StaysHosted(store, before, after, sources[k])
    requires forall g: Chains :: Coherent(store, sources, g) ==> Hosts(store, g, before)
    ensures forall g: Chains :: Coherent(store, sources, g) ==> Hosts(store, g, after)
  {
    hide ChainsOk;
  }

  lemma NoneCoherent(store: Store, sources: seq<Source>, k: nat, chains: Chains)
    requires k < |sources| && Unhosted(store, chains, sources[k])
    requires forall g: Chains :: Coherent(store, sources, g) ==> Hosts(store, g, chains)
    ensures forall g: Chains :: !Coherent(store, sources, g)
  {
    hide ChainsOk;
  }

  lemma DeliveredIsCoherent(store: Store, sources: seq<Source>, chains: Chains, byId: Index)
    requires Delivers(store, sources, chains, byId)
    ensures Coherent(store, sources, chains)
  {
    hide ChainsOk, Indexed, ChainIsStream;
    forall k | 0 <= k < |sources| ensures Hosted(chains, sources[k]) {
      assert PrefixDelivered(store, sources[k], chains);
      var s :| StreamOf(store, sources[k].tip, s) && s <= chains[sources[k].actor];
      assert s[|s| - 1] in s;
    }
  }

  /** Preflight, then load every source. It succeeds exactly when the preflight passes and
      all sources fit one family of verified streams. `passed` tells whether the preflight passed; a
      load that fails after it never fails for a cycle or for the record count. */
  method ReadHistory(store: Store, sources: seq<Source>)
      returns (refusal: Option<Code>, passed: bool, chains: Chains, byId: Index)
    requires IdsAgree(store)
    ensures refusal.None? ==> passed && Delivers(store, sources, chains, byId) && |byId| <= H.READ_ENTRIES
    ensures passed ==> refusal != Some(Cyclic) && refusal != Some(TooMany)
    ensures !passed ==> refusal.Some? && Inadmissible(store, sources)
    ensures passed ==> exists s :: Admits(store, sources, s)
    ensures passed && refusal.Some? ==> forall g: Chains :: !Coherent(store, sources, g)
    ensures refusal.None? ==> Coherent(store, sources, chains)
  {
    hide *;
    var preflight := Preflight(store, sources);
    if preflight.Refused? {
      return Some(preflight.code), false, map[], map[];
    }
    ghost var within := preflight.value;
    var reader := new Reader(store);
    StartsEmpty(store, sources);
    HostsNothing(store, sources);
    for k := 0 to |sources|
      invariant reader.store == store && fresh(reader)
      invariant Consistent(store, reader.cache, reader.byId, reader.chains) && reader.cache.Keys <= within
      invariant Progress(sources, k, reader.chains)
      invariant forall g: Chains :: Coherent(store, sources, g) ==> Hosts(store, g, reader.chains)
    {
      Tip(store, sources, within, k);
      ghost var before := reader.chains;
      InvIs(reader);
      var refused := reader.ReadSource(sources[k], within);
      if refused.Some? {
        NoneCoherent(store, sources, k, before);
        return refused, true, map[], map[];
      }
      InvIs(reader);
      CoherentHosts(store, sources, k, before, reader.chains);
      ProgressNext(store, sources, k, before, reader.chains);
    }
    ProgressDelivers(store, sources, reader.cache, reader.chains, reader.byId);
    IndexWithin(store, sources, within, reader.chains, reader.byId);
    DeliveredIsCoherent(store, sources, reader.chains, reader.byId);
    return None, true, reader.chains, reader.byId;
  }

  lemma {:induction false} StreamInside(store: Store, s: set<Oid>, tip: Oid, chain: seq<Oid>, i: nat)
    requires ParentClosed(store, s) && StreamOf(store, tip, chain) && tip in s && i < |chain|
    ensures chain[i] in s
    decreases |chain| - i
  {
    if i + 1 < |chain| {
      StreamInside(store, s, tip, chain, i + 1);
      assert StreamAt(store, chain, i + 1);
    }
  }

  lemma {:induction false} DistinctValues(ids: set<Id>, byId: Index, s: set<Oid>)
    requires ids <= byId.Keys && forall id :: id in ids ==> byId[id] in s
    requires forall i, j :: i in ids && j in ids && byId[i] == byId[j] ==> i == j
    ensures |ids| <= |s|
    decreases |ids|
  {
    if ids != {} {
      var id :| id in ids;
      DistinctValues(ids - {id}, byId, s - {byId[id]});
    }
  }

  /** The index is no larger than the admitted set that the walk stayed in. */
  lemma IndexWithin(store: Store, sources: seq<Source>, s: set<Oid>, chains: Chains, byId: Index)
    requires Admits(store, sources, s) && Delivers(store, sources, chains, byId)
    ensures |byId| <= H.READ_ENTRIES
  {
    hide AllGrounded, SizesFit, ChainsOk, StreamOf, ParentClosed;
    forall id | id in byId ensures byId[id] in s {
      assert OnChain(store, chains, byId[id]);
      var a := store[byId[id]].actor;
      assert ChainIsStream(store, sources, a, chains[a]);
      var k :| 0 <= k < |sources| && sources[k].actor == a && StreamOf(store, sources[k].tip, chains[a]);
      var i :| 0 <= i < |chains[a]| && chains[a][i] == byId[id];
      StreamInside(store, s, sources[k].tip, chains[a], i);
    }
    DistinctValues(byId.Keys, byId, s);
    assert |byId| == |byId.Keys|;
  }

  lemma InvIs(reader: Reader)
    ensures reader.Inv() <==> Consistent(reader.store, reader.cache, reader.byId, reader.chains)
  {
  }

  // ---------------------------------------------------------------- as a history

  /** The loaded artifacts as the history that validation and the catalog work on. */
  ghost predicate Views(store: Store, chains: Chains, byId: Index, h: H.History) {
    && h.byId.Keys == byId.Keys && h.chains.Keys == chains.Keys
    && (forall id :: id in byId ==>
          && byId[id] in store && h.byId[id].actor == store[byId[id]].actor
          && h.byId[id].previous == store[byId[id]].previous)
    && (forall a :: a in chains ==> |h.chains[a]| == |chains[a]|)
    && (forall a, i :: a in chains && 0 <= i < |chains[a]| ==>
          chains[a][i] in store && h.chains[a][i] == store[chains[a][i]].id)
  }

  lemma LinkedAt(store: Store, chains: Chains, byId: Index, h: H.History, a: Actor, i: nat)
    requires ChainsOk(store, chains) && Indexed(store, byId, chains) && Views(store, chains, byId, h)
    requires a in chains && i < |chains[a]|
    ensures var id := h.chains[a][i];
      && id in h.byId && h.byId[id].actor == a
      && h.byId[id].previous == if i == 0 then None else Some(h.chains[a][i - 1])
  {
    assert VerifiedAt(store, a, chains[a], i) && Listed(store, byId, chains[a][i]);
    if i > 0 {
      assert h.chains[a][i - 1] == store[chains[a][i - 1]].id;
    }
  }

  /** A loaded history has the chain structure that closures and exports rely on. */
  lemma LoadedIsChained(store: Store, sources: seq<Source>, chains: Chains, byId: Index, h: H.History)
    requires Delivers(store, sources, chains, byId) && Views(store, chains, byId, h)
    ensures H.Chained(h)
  {
    forall id | id in h.byId
      ensures h.byId[id].actor in h.chains && id in h.chains[h.byId[id].actor]
    {
      var a := store[byId[id]].actor;
      assert OnChain(store, chains, byId[id]);
      var i :| 0 <= i < |chains[a]| && chains[a][i] == byId[id];
      assert h.chains[a][i] == id;
    }
    forall a | a in h.chains ensures h.chains[a] != [] && H.Linked(h, a, h.chains[a]) {
      assert Verified(store, a, chains[a]);
      forall i | 0 <= i < |h.chains[a]|
        ensures h.chains[a][i] in h.byId && h.byId[h.chains[a][i]].actor == a
        ensures h.byId[h.chains[a][i]].previous == if i == 0 then None else Some(h.chains[a][i - 1])
      {
        LinkedAt(store, chains, byId, h, a, i);
      }
    }
  }

  /** Decoded envelopes by ID: each readable commit has one that agrees with it. */
  ghost predicate Decodes(store: Store, content: map<Id, H.Artifact>) {
    forall o :: o in store && Readable(store[o]) ==>
      && store[o].id in content && H.EnvelopeOk(content[store[o].id])
      && content[store[o].id].actor == store[o].actor && content[store[o].id].previous == store[o].previous
  }

  function IdAt(store: Store, o: Oid): Id {
    if o in store then store[o].id else 0
  }

  function IdsOf(store: Store, chain: seq<Oid>): (ids: seq<Id>)
    ensures |ids| == |chain| && forall i :: 0 <= i < |chain| ==> ids[i] == IdAt(store, chain[i])
  {
    seq(|chain|, i requires 0 <= i < |chain| => IdAt(store, chain[i]))
  }

  /** The history that the reader hands to validation. */
  function HistoryOf(store: Store, content: map<Id, H.Artifact>, chains: Chains, byId: Index): H.History {
    H.History(
      map id | id in byId && id in content :: content[id],
      map a | a in chains :: IdsOf(store, chains[a]))
  }

  lemma HistoryViews(store: Store, sources: seq<Source>, content: map<Id, H.Artifact>, chains: Chains, byId: Index)
    requires Delivers(store, sources, chains, byId) && Decodes(store, content)
    ensures Views(store, chains, byId, HistoryOf(store, content, chains, byId))
    ensures H.EnvelopesOk(HistoryOf(store, content, chains, byId))
  {
    hide ChainsOk, Indexed, Decodes, StreamOf, ChainIsStream, PrefixDelivered, HistoryOf, Views, H.EnvelopesOk;
    forall id | id in byId ensures DecodedAt(store, content, byId, id) {
      CommitDecodes(store, content, chains, byId, id);
    }
    forall a, i | a in chains && 0 <= i < |chains[a]| ensures chains[a][i] in store {
      CommitListed(store, chains, byId, a, i);
    }
    ViewsFrom(store, content, chains, byId);
  }

  ghost predicate DecodedAt(store: Store, content: map<Id, H.Artifact>, byId: Index, id: Id)
    requires id in byId
  {
    && byId[id] in store && store[byId[id]].id == id && id in content && H.EnvelopeOk(content[id])
    && content[id].actor == store[byId[id]].actor && content[id].previous == store[byId[id]].previous
  }

  lemma CommitListed(store: Store, chains: Chains, byId: Index, a: Actor, i: nat)
    requires Indexed(store, byId, chains) && a in chains && i < |chains[a]|
    ensures chains[a][i] in store && Lookup(byId, store[chains[a][i]].id) == Some(chains[a][i])
  {
    assert Listed(store, byId, chains[a][i]);
  }

  lemma ViewsFrom(store: Store, content: map<Id, H.Artifact>, chains: Chains, byId: Index)
    requires forall id :: id in byId ==> DecodedAt(store, content, byId, id)
    requires forall a, i :: a in chains && 0 <= i < |chains[a]| ==> chains[a][i] in store
    ensures Views(store, chains, byId, HistoryOf(store, content, chains, byId))
    ensures H.EnvelopesOk(HistoryOf(store, content, chains, byId))
  {
    hide H.EnvelopeOk;
    var h := HistoryOf(store, content, chains, byId);
    assert h.byId.Keys == byId.Keys && h.chains.Keys == chains.Keys;
  }

  lemma CommitDecodes(store: Store, content: map<Id, H.Artifact>, chains: Chains, byId: Index, id: Id)
    requires ChainsOk(store, chains) && Indexed(store, byId, chains) && Decodes(store, content) && id in byId
    ensures DecodedAt(store, content, byId, id)
  {
    hide H.EnvelopeOk;
    assert OnChain(store, chains, byId[id]);
    var a := store[byId[id]].actor;
    var i :| 0 <= i < |chains[a]| && chains[a][i] == byId[id];
    assert Verified(store, a, chains[a]) && VerifiedAt(store, a, chains[a], i);
  }

  /** Read, then validate: what this accepts is a loaded history, on which everything
      about catalogs, closures, exports and diagnostics rests. */
  method LoadHistory(store: Store, sources: seq<Source>, content: map<Id, H.Artifact>)
      returns (r: Outcome<H.History, Code>, read: bool, chains: Chains, byId: Index)
    requires IdsAgree(store) && Decodes(store, content)
    ensures read ==> Delivers(store, sources, chains, byId)
    ensures read <==> (exists s :: Admits(store, sources, s)) && exists g: Chains :: Coherent(store, sources, g)
    ensures r.Ok? <==> read && H.Validates(HistoryOf(store, content, chains, byId))
    ensures r.Ok? ==> H.Loaded(r.value) && r.value == HistoryOf(store, content, chains, byId)
  {
    hide *;
    var refusal, passed;
    refusal, passed, chains, byId := ReadHistory(store, sources);
    if refusal.Some? {
      NotAdmissible(store, sources);
      return Refused(refusal.value), false, chains, byId;
    }
    var h := HistoryOf(store, content, chains, byId);
    HistoryViews(store, sources, content, chains, byId);
    var valid := V.Validate(h);
    if !valid {
      return Refused(Invalid), true, chains, byId;
    }
    LoadedIsChained(store, sources, chains, byId, h);
    IsLoaded(store, chains, byId, h);
    r, read := Ok(h), true;
  }

  lemma NotAdmissible(store: Store, sources: seq<Source>)
    ensures Inadmissible(store, sources) <==> !exists s :: Admits(store, sources, s)
  {
  }

  lemma IsLoaded(store: Store, chains: Chains, byId: Index, h: H.History)
    requires Views(store, chains, byId, h) && |byId| <= H.READ_ENTRIES
    requires H.EnvelopesOk(h) && H.Validates(h) && H.Chained(h)
    ensures H.Loaded(h)
  {
    assert |h.byId| == |h.byId.Keys| && |byId| == |byId.Keys|;
  }
}
