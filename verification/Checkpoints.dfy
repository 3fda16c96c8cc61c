/** Governance of the contribution policy: each policy change after adoption needs a
    ratified merge, and so does the introduction of each current checkpoint. */
module Checkpoints {
  import opened Basics

  type Commit = nat
  type Digest = nat
  type Name = nat

  /** An authority reference; a lookup of an absent name reads as the zero reference. */
  type Reference = nat

  const ZERO: Reference := 0

  datatype Checkpoint = Checkpoint(name: Name, authority: Reference)

  datatype Policy = Policy(checkpoints: seq<Checkpoint>, digest: Digest)

  /** The native merge of `commit` takes the governing policy from `prior` to `digest`. */
  datatype Transition = Transition(commit: Commit, prior: Digest, digest: Digest)

  /** What Git and the event log answer: the policies that can be read, and the
      transitions that recorded merges ratify unless the log itself is unreadable. */
  datatype Repository = Repository(policies: map<Commit, Policy>, ratified: Option<set<Transition>>)

  datatype Code = TooDeep | Unreadable | Discontinuous | NoPredecessor | Unratified | Unavailable

  // ---------------------------------------------------------------- authority maps

  type Authorities = map<Name, Reference>

  /** A later entry for the same name replaces an earlier one. */
  function Named(cps: seq<Checkpoint>): Authorities {
    if cps == [] then map[]
    else var last := cps[|cps| - 1]; Named(cps[..|cps| - 1])[last.name := last.authority]
  }

  function Get(m: Authorities, name: Name): Reference {
    if name in m then m[name] else ZERO
  }

  method Index(cps: seq<Checkpoint>) returns (m: Authorities)
    ensures m == Named(cps)
  {
    m := map[];
    for i := 0 to |cps|
      invariant m == Named(cps[..i])
    {
      assert cps[..i + 1][..i] == cps[..i];
      m := m[cps[i].name := cps[i].authority];
    }
    assert cps[..|cps|] == cps;
  }

  function Held(pending: Authorities, other: Authorities): Authorities {
    map name | name in pending && Get(other, name) == pending[name] :: pending[name]
  }

  function Lacking(pending: Authorities, other: Authorities): Authorities {
    map name | name in pending && Get(other, name) != pending[name] :: pending[name]
  }

  /** Part `pending` into what `other` also holds and what it lacks. */
  method Part(pending: Authorities, other: Authorities) returns (held: Authorities, lacking: Authorities)
    ensures held == Held(pending, other) && lacking == Lacking(pending, other)
  {
    hide Get;
    held, lacking := map[], map[];
    var rest := pending.Keys;
    while rest != {}
      invariant rest <= pending.Keys
      invariant held == map name |
        name in pending && name !in rest && Get(other, name) == pending[name] :: pending[name]
      invariant lacking == map name |
        name in pending && name !in rest && Get(other, name) != pending[name] :: pending[name]
      decreases |rest|
    {
      var name :| name in rest;
      if Get(other, name) != pending[name] {
        lacking := lacking[name := pending[name]];
      } else {
        held := held[name := pending[name]];
      }
      rest := rest - {name};
    }
  }

  // ---------------------------------------------------------------- checkpoints

  /** The policy at position `i` of the first-parent history can be read and holds the
      checkpoint. */
  ghost predicate Holds(repo: Repository, history: seq<Commit>, i: nat, name: Name, r: Reference) {
    && i < |history| && history[i] in repo.policies
    && Get(Named(repo.policies[history[i]].checkpoints), name) == r
  }

  /** The checkpoint is present continuously from the tip down to position `k`, absent
      from the first parent of `k`, and the merge at `k` is ratified. */
  ghost predicate IntroducedAt(repo: Repository, history: seq<Commit>, name: Name, r: Reference, k: nat) {
    && (forall i :: 0 <= i <= k ==> Holds(repo, history, i, name, r))
    && Holds(repo, history, k, name, r)
    && k + 1 < |history| && history[k + 1] in repo.policies
    && !Holds(repo, history, k + 1, name, r)
    && repo.ratified.Some?
    && Step(repo, history, k) in repo.ratified.value
  }

  function Step(repo: Repository, history: seq<Commit>, k: nat): Transition
    requires k + 1 < |history| && history[k] in repo.policies && history[k + 1] in repo.policies
  {
    Transition(history[k], repo.policies[history[k + 1]].digest, repo.policies[history[k]].digest)
  }

  ghost predicate Established(repo: Repository, history: seq<Commit>, name: Name, r: Reference) {
    exists k :: IntroducedAt(repo, history, name, r, k)
  }

  ghost predicate AllEstablished(repo: Repository, history: seq<Commit>, current: Authorities) {
    forall name :: name in current ==> Established(repo, history, name, current[name])
  }

  /** Present at every position up to and including `i`. */
  ghost predicate HeldDownTo(repo: Repository, history: seq<Commit>, i: int, name: Name, r: Reference) {
    forall j :: 0 <= j <= i ==> Holds(repo, history, j, name, r)
  }

  /** Where the walk stands before position `i`: pending checkpoints are present down to
      `i`, as far as policies have been read, and the others are established. */
  ghost predicate Walked(repo: Repository, history: seq<Commit>, current: Authorities,
                         pending: Authorities, found: Authorities, i: nat)
  {
    && (forall name :: name in current <==> name in pending || name in found)
    && (forall name :: name in pending ==> name !in found && pending[name] == current[name])
    && (forall name :: name in pending ==>
          HeldDownTo(repo, history, if i == 0 then -1 else i, name, pending[name]))
    && (forall name :: name in found ==>
          found[name] == current[name] && Established(repo, history, name, found[name]))
  }

  /** A pending checkpoint that is not established refutes the whole set. */
  lemma OneMissing(repo: Repository, history: seq<Commit>, current: Authorities, pending: Authorities,
                   found: Authorities, i: nat, name: Name)
    requires Walked(repo, history, current, pending, found, i) && name in pending
    requires forall k: nat :: k >= i ==> !IntroducedAt(repo, history, name, pending[name], k)
    ensures !AllEstablished(repo, history, current)
  {
  }

  /** An introduction at `i` or later needs the policies at `i` and at its parent. */
  lemma NeedsReadable(repo: Repository, history: seq<Commit>, name: Name, r: Reference, i: nat, k: nat)
    requires IntroducedAt(repo, history, name, r, k) && k >= i
    ensures i + 1 < |history| && history[i] in repo.policies && history[i + 1] in repo.policies
    ensures Holds(repo, history, i, name, r)
    ensures Holds(repo, history, i + 1, name, r) || k == i
  {
    assert Holds(repo, history, i, name, r);
    if k > i {
      assert Holds(repo, history, i + 1, name, r);
    }
  }

  lemma Unreached(repo: Repository, history: seq<Commit>, current: Authorities, pending: Authorities,
                  found: Authorities, i: nat, name: Name)
    requires Walked(repo, history, current, pending, found, i) && name in pending
    requires !(i + 1 < |history| && history[i] in repo.policies && history[i + 1] in repo.policies
               && Holds(repo, history, i, name, pending[name]))
    ensures !AllEstablished(repo, history, current)
  {
    forall k: nat | k >= i ensures !IntroducedAt(repo, history, name, pending[name], k) {
      if IntroducedAt(repo, history, name, pending[name], k) {
        NeedsReadable(repo, history, name, pending[name], i, k);
      }
    }
    OneMissing(repo, history, current, pending, found, i, name);
  }

  lemma UnratifiedStep(repo: Repository, history: seq<Commit>, current: Authorities, pending: Authorities,
                       found: Authorities, i: nat, name: Name)
    requires Walked(repo, history, current, pending, found, i) && name in pending
    requires i + 1 < |history| && history[i] in repo.policies && history[i + 1] in repo.policies
    requires !Holds(repo, history, i + 1, name, pending[name])
    requires repo.ratified.Some? ==> Step(repo, history, i) !in repo.ratified.value
    ensures !AllEstablished(repo, history, current)
  {
  }

  lemma LogNeeded(repo: Repository, history: seq<Commit>, current: Authorities, name: Name)
    requires name in current && repo.ratified.None?
    ensures !AllEstablished(repo, history, current)
  {
  }

  /** One step of the walk that succeeds. */
  lemma StepWalked(repo: Repository, history: seq<Commit>, current: Authorities, pending: Authorities,
                   found: Authorities, i: nat, held: Authorities, lacking: Authorities, before: Authorities)
    requires Walked(repo, history, current, pending, found, i)
    requires i + 1 < |history| && history[i] in repo.policies && history[i + 1] in repo.policies
    requires before == Named(repo.policies[history[i + 1]].checkpoints)
    requires forall name :: name in pending ==> Holds(repo, history, i, name, pending[name])
    requires held == Held(pending, before) && lacking == Lacking(pending, before)
    requires lacking != map[] ==> repo.ratified.Some? && Step(repo, history, i) in repo.ratified.value
    ensures Walked(repo, history, current, held, found + lacking, i + 1)
  {
    hide Step, Get, Named, Established;
    forall name | name in held ensures HeldDownTo(repo, history, i + 1, name, held[name]) {
      NowHeld(repo, history, i, name, held[name]);
    }
    forall name | name in lacking ensures Established(repo, history, name, lacking[name]) {
      NowEstablished(repo, history, i, name, lacking[name]);
    }
  }

  lemma NowHeld(repo: Repository, history: seq<Commit>, i: nat, name: Name, r: Reference)
    requires HeldDownTo(repo, history, if i == 0 then -1 else i, name, r)
    requires Holds(repo, history, i, name, r) && Holds(repo, history, i + 1, name, r)
    ensures HeldDownTo(repo, history, i + 1, name, r)
  {
  }

  lemma NowEstablished(repo: Repository, history: seq<Commit>, i: nat, name: Name, r: Reference)
    requires HeldDownTo(repo, history, if i == 0 then -1 else i, name, r)
    requires Holds(repo, history, i, name, r) && !Holds(repo, history, i + 1, name, r)
    requires i + 1 < |history| && history[i + 1] in repo.policies
    requires repo.ratified.Some? && Step(repo, history, i) in repo.ratified.value
    ensures Established(repo, history, name, r)
  {
    assert IntroducedAt(repo, history, name, r, i);
  }

  lemma SomeName(current: seq<Checkpoint>)
    requires current != []
    ensures current[|current| - 1].name in Named(current)
  {
  }

  lemma WalkStarts(repo: Repository, history: seq<Commit>, current: Authorities)
    ensures Walked(repo, history, current, current, map[], 0)
  {
  }

  lemma Finished(repo: Repository, history: seq<Commit>, current: Authorities, found: Authorities, i: nat)
    requires Walked(repo, history, current, map[], found, i)
    ensures AllEstablished(repo, history, current) && found == current
  {
  }

  /** A pending checkpoint can be missing only at the tip, because the step before has
      already seen it in this policy. */
  lemma NotPresent(repo: Repository, history: seq<Commit>, current: Authorities, pending: Authorities,
                   found: Authorities, i: nat, name: Name)
    requires Walked(repo, history, current, pending, found, i)
    requires i < |history| && history[i] in repo.policies
    requires name in Lacking(pending, Named(repo.policies[history[i]].checkpoints))
    ensures !AllEstablished(repo, history, current)
    ensures i == 0 && Named(repo.policies[history[0]].checkpoints) != current
  {
    assert i > 0 ==> Holds(repo, history, i, name, pending[name]);
    Unreached(repo, history, current, pending, found, i, name);
  }

  /** Nothing was introduced at the last commit although its parent reads as empty: the
      pending reference is the zero reference. */
  lemma ZeroOnly(repo: Repository, history: seq<Commit>, current: Authorities, pending: Authorities,
                 found: Authorities, i: nat, name: Name)
    requires Walked(repo, history, current, pending, found, i) && name in pending
    requires Lacking(pending, map[]) == map[]
    ensures name in current && current[name] == ZERO && name in Held(pending, map[])
  {
    assert name !in Lacking(pending, map[]);
  }

  /** Verification of the current checkpoints. It succeeds exactly when the history is
      within the bound and every current checkpoint is established. The discontinuity
      refusal needs a tip policy other than the current one, and the final refusal a
      zero reference. */
  method VerifyCheckpoints(repo: Repository, history: seq<Commit>, bound: nat, current: seq<Checkpoint>)
      returns (r: Outcome<Authorities, Code>)
    ensures r.Ok? <==>
      current == [] || (|history| <= bound && AllEstablished(repo, history, Named(current)))
    ensures r.Ok? ==> r.value == Named(current)
    ensures r == Refused(Discontinuous) ==>
      history != [] && history[0] in repo.policies && Named(repo.policies[history[0]].checkpoints) != Named(current)
    ensures r == Refused(Unavailable) ==>
      history == [] || exists name :: name in Named(current) && Named(current)[name] == ZERO
  {
    hide *;
    if current == [] {
      return Ok(NoNames(current));
    }
    var commits := if |history| <= bound + 1 then history else history[..bound + 1];
    if |commits| > bound {
      return Refused(TooDeep);
    }
    var pending := Index(current);
    ghost var all := pending;
    SomeName(current);
    if repo.ratified.None? {
      LogNeeded(repo, history, all, current[|current| - 1].name);
      return Refused(Unreadable);
    }
    var found: Authorities := map[];
    WalkStarts(repo, history, all);
    if history == [] {
      Unreached(repo, history, all, pending, found, 0, current[|current| - 1].name);
    }
    for i := 0 to |commits|
      invariant i < |commits| ==> pending != map[] && Walked(repo, history, all, pending, found, i)
      invariant i == |commits| ==> !AllEstablished(repo, history, all)
      invariant i == |commits| ==> history == [] || exists name :: name in all && all[name] == ZERO
    {
      ghost var some :| some in pending;
      if commits[i] !in repo.policies {
        Unreached(repo, history, all, pending, found, i, some);
        return Refused(Unreadable);
      }
      var present := Index(repo.policies[commits[i]].checkpoints);
      var before: Authorities := map[];
      if i + 1 < |commits| {
        if commits[i + 1] !in repo.policies {
          Unreached(repo, history, all, pending, found, i, some);
          return Refused(Unreadable);
        }
        before := Index(repo.policies[commits[i + 1]].checkpoints);
      }
      var held, lacking := Part(pending, present);
      if lacking != map[] {
        ghost var name :| name in lacking;
        NotPresent(repo, history, all, pending, found, i, name);
        return Refused(Discontinuous);
      }
      AllPresent(repo, history, pending, present, lacking, i);
      held, lacking := Part(pending, before);
      if lacking != map[] {
        ghost var name :| name in lacking;
        LackingInside(pending, before, name);
        if i + 1 == |commits| {
          Unreached(repo, history, all, pending, found, i, name);
          return Refused(NoPredecessor);
        }
        if Step(repo, history, i) !in repo.ratified.value {
          Absent(repo, history, i + 1, pending, name);
          UnratifiedStep(repo, history, all, pending, found, i, name);
          return Refused(Unratified);
        }
      }
      if i + 1 < |commits| {
        StepWalked(repo, history, all, pending, found, i, held, lacking, before);
      } else {
        Unreached(repo, history, all, pending, found, i, some);
        ZeroOnly(repo, history, all, pending, found, i, some);
      }
      pending, found := held, found + lacking;
      if pending == map[] {
        Finished(repo, history, all, found, i + 1);
        return Ok(found);
      }
    }
    return Refused(Unavailable);
  }

  function NoNames(current: seq<Checkpoint>): (m: Authorities)
    requires current == []
    ensures m == Named(current)
  {
    map[]
  }

  lemma LackingInside(pending: Authorities, other: Authorities, name: Name)
    requires name in Lacking(pending, other)
    ensures name in pending
  {
  }

  lemma Absent(repo: Repository, history: seq<Commit>, i: nat, pending: Authorities, name: Name)
    requires i < |history| && history[i] in repo.policies
    requires name in Lacking(pending, Named(repo.policies[history[i]].checkpoints))
    ensures name in pending && !Holds(repo, history, i, name, pending[name])
  {
  }

  lemma AllPresent(repo: Repository, history: seq<Commit>, pending: Authorities, present: Authorities,
                   lacking: Authorities, i: nat)
    requires i < |history| && history[i] in repo.policies
    requires present == Named(repo.policies[history[i]].checkpoints) && lacking == map[]
    requires lacking == Lacking(pending, present)
    ensures forall name :: name in pending ==> Holds(repo, history, i, name, pending[name])
  {
    forall name | name in pending ensures Get(present, name) == pending[name] {
      assert name !in lacking;
    }
  }

  // ---------------------------------------------------------------- policy history

  /** The digest in force before the commit at position `i`, newest first. */
  function Before(repo: Repository, later: seq<Commit>, adopted: Commit, i: nat): Commit
    requires i < |later|
  {
    if i + 1 < |later| then later[i + 1] else adopted
  }

  ghost predicate Governed(repo: Repository, later: seq<Commit>, adopted: Commit, i: nat)
    requires i < |later|
  {
    var before := Before(repo, later, adopted, i);
    && later[i] in repo.policies && before in repo.policies
    && var from, to := repo.policies[before].digest, repo.policies[later[i]].digest;
       from == to || (repo.ratified.Some? && Transition(later[i], from, to) in repo.ratified.value)
  }

  /** Walk the commits after the adopted one, oldest first. It succeeds exactly when the
      walk is within the bound and every change of policy is ratified. */
  method VerifyPolicyHistory(repo: Repository, later: seq<Commit>, adopted: Commit, bound: nat)
      returns (r: Outcome<Digest, Code>)
    ensures r.Ok? <==>
      && |later| <= bound && adopted in repo.policies
      && forall i :: 0 <= i < |later| ==> Governed(repo, later, adopted, i)
    ensures r.Ok? ==> var tip := if later == [] then adopted else later[0];
      tip in repo.policies && r.value == repo.policies[tip].digest
  {
    if |later| > bound {
      return Refused(TooDeep);
    }
    if adopted !in repo.policies {
      return Refused(Unreadable);
    }
    var prior := repo.policies[adopted].digest;
    for i := |later| downto 0
      invariant forall j :: i <= j < |later| ==> Governed(repo, later, adopted, j)
      invariant var last := if i == |later| then adopted else later[i];
        last in repo.policies && prior == repo.policies[last].digest
    {
      var commit := later[i];
      if commit !in repo.policies {
        assert !Governed(repo, later, adopted, i);
        return Refused(Unreadable);
      }
      var digest := repo.policies[commit].digest;
      if digest != prior {
        if repo.ratified.None? {
          assert !Governed(repo, later, adopted, i);
          return Refused(Unreadable);
        }
        if Transition(commit, prior, digest) !in repo.ratified.value {
          assert !Governed(repo, later, adopted, i);
          return Refused(Unratified);
        }
        prior := digest;
      }
    }
    return Ok(prior);
  }

  // ---------------------------------------------------------------- the two verifications

  /** Digests are content hashes. */
  ghost predicate Faithful(repo: Repository) {
    forall c, d :: c in repo.policies && d in repo.policies && repo.policies[c].digest == repo.policies[d].digest ==>
      repo.policies[c].checkpoints == repo.policies[d].checkpoints
  }

  /** In a governed history every change of policy since adoption is a transition that its
      checkpoint verification looks for. */
  lemma GovernedIsRatified(repo: Repository, later: seq<Commit>, adopted: Commit, older: seq<Commit>, k: nat)
    requires k < |later| && Governed(repo, later, adopted, k)
    ensures
      var history := later + [adopted] + older;
      && history[k] in repo.policies && history[k + 1] in repo.policies
      && (repo.policies[history[k + 1]].digest != repo.policies[history[k]].digest ==>
            repo.ratified.Some? && Step(repo, history, k) in repo.ratified.value)
  {
    var history := later + [adopted] + older;
    assert history[k] == later[k] && history[k + 1] == Before(repo, later, adopted, k);
  }

  /** Where a checkpoint that the tip holds and position `n` does not was introduced. */
  lemma {:induction false} Introduction(repo: Repository, history: seq<Commit>, name: Name, r: Reference, n: nat)
      returns (k: nat)
    requires Holds(repo, history, 0, name, r) && !Holds(repo, history, n, name, r)
    ensures k < n && !Holds(repo, history, k + 1, name, r) && HeldDownTo(repo, history, k, name, r)
    decreases n
  {
    hide Holds;
    if k' :| 0 < k' < n && !Holds(repo, history, k', name, r) {
      k := Introduction(repo, history, name, r, k');
    } else {
      k := n - 1;
    }
  }

  /** What one verification establishes serves the other: in a governed history every
      current checkpoint that the adopted policy lacks is established, so only checkpoints
      older than the adoption can make checkpoint verification fail. */
  lemma GovernedEstablishes(repo: Repository, later: seq<Commit>, adopted: Commit, older: seq<Commit>,
                            name: Name, r: Reference)
    requires Faithful(repo) && adopted in repo.policies
    requires forall i :: 0 <= i < |later| ==> Governed(repo, later, adopted, i)
    requires Holds(repo, later + [adopted] + older, 0, name, r)
    requires Get(Named(repo.policies[adopted].checkpoints), name) != r
    ensures Established(repo, later + [adopted] + older, name, r)
  {
    hide Get, Named, Step, Governed;
    var history := later + [adopted] + older;
    assert history[|later|] == adopted;
    var k := Introduction(repo, history, name, r, |later|);
    assert Governed(repo, later, adopted, k);
    GovernedIsRatified(repo, later, adopted, older, k);
    assert Holds(repo, history, k, name, r);
    NowEstablished(repo, history, k, name, r);
  }
}
