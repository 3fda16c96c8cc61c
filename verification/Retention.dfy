/** Retaining an actor's records: plans, their objects, and when a try succeeds. */
module Retention {
  import opened Basics
  import opened Manifests
  import opened Ledgers
  import opened Journal
  import opened JournalSteps
  import opened Intake

  ghost predicate OnlyActor(before: map<Actor, Manifest>, after: map<Actor, Manifest>, actor: Actor) {
    forall a: Actor :: a != actor ==> Lookup(after, a) == Lookup(before, a)
  }

  /** The attempt had this intent, and the commit retains its records of the actor. */
  ghost predicate RetainedFor(u: Universe, j: Journal, i: int, intent: nat, actor: Actor, head: Manifest) {
    && 0 <= i < |j.attempts| && j.attempts[i].intent == intent
    && SetOf(RecordsBy(u, j.attempts[i].artifact.records, actor)) <= SetOf(head.records)
  }

  lemma PlanShape(u: Universe, a: Attempt, actor: Actor, expected: Option<Manifest>)
    ensures var plan := PlanFor(u, a, actor, expected);
      && plan.actor == actor && plan.expected == expected && !plan.durable && !plan.complete
      && plan.material == RecordsBy(u, a.artifact.records, actor)
      && plan.objects == |ObjectsFor(expected, plan.head)|
  {
  }

  lemma OnlyIntent(u: Universe, p: Policy, w: World, intent: nat, index: nat)
    requires Good(u, p, w) && index < |w.journal.attempts| && w.journal.attempts[index].intent == intent
    ensures forall i :: 0 <= i < |w.journal.attempts| && w.journal.attempts[i].intent == intent ==> i == index
  {
  }

  lemma OnlyPlan(u: Universe, p: Policy, w: World, index: nat, k: nat)
    requires Good(u, p, w) && index < |w.journal.attempts| && k < |w.journal.attempts[index].plans|
    ensures var plans := w.journal.attempts[index].plans;
      forall m :: 0 <= m < |plans| && plans[m].actor == plans[k].actor ==> m == k
  {
    var a := w.journal.attempts[index];
    assert AttemptOk(u, p, w, a, w.journal.ledger.reservations[index]);
  }

  lemma PlanCovers(u: Universe, p: Policy, w: World, index: nat, k: nat)
    requires Good(u, p, w) && index < |w.journal.attempts| && k < |w.journal.attempts[index].plans|
    ensures var a := w.journal.attempts[index];
      RetainedFor(u, w.journal, index, a.intent, a.plans[k].actor, a.plans[k].head)
  {
  }

  lemma NewPlanCovers(u: Universe, a: Attempt, actor: Actor, expected: Option<Manifest>, j: Journal, index: nat)
    requires index < |j.attempts| && j.attempts[index] == a
    ensures RetainedFor(u, j, index, a.intent, actor, PlanFor(u, a, actor, expected).head)
  {
  }

  /** Recomputing the plan of an interrupted retention gives the journaled plan, which
      passes its limits again. */
  lemma SamePlan(u: Universe, p: Policy, w: World, index: nat, k: nat)
    requires Good(u, p, w) && index < |w.journal.attempts| && k < |w.journal.attempts[index].plans|
    requires !w.journal.attempts[index].plans[k].durable
    ensures var a := w.journal.attempts[index];
      && PlanFor(u, a, a.plans[k].actor, a.plans[k].expected) == a.plans[k]
      && PlanFits(u, a.plans[k], a.reserved) && a.plans[k].material != []
  {
    var a := w.journal.attempts[index];
    assert AttemptOk(u, p, w, a, w.journal.ledger.reservations[index]);
    assert PlanOk(u, a, a.plans[k]);
  }

  lemma DurableTrue(w: World, plan: Plan)
    requires !plan.complete && SetOf(ObjectsFor(plan.expected, plan.head)) <= w.objects
    ensures FlagsTrue(w, plan.(durable := true))
  {
  }

  /** Ref moves after a point where the refs were still the original ones. */
  lemma SameRefs(w: World, mid: World, v: World)
    requires mid.refs == w.refs && RefsFollowPlans(mid, v)
    ensures RefsFollowPlans(w, v)
  {
  }

  // ---------------------------------------------------------------- when a try succeeds

  /** Nothing stops a try for this attempt. */
  ghost predicate Undisturbed(u: Universe, a: Attempt, actor: Actor, expected: Option<Manifest>, env: Environment) {
    env.faults == {} && env.writes >= PlanFor(u, a, actor, expected).objects + 4
  }

  ghost predicate Tried(u: Universe, j: Journal, i: int, intent: nat, actor: Actor, expected: Option<Manifest>,
                        env: Environment)
  {
    && 0 <= i < |j.attempts| && j.attempts[i].intent == intent
    && Undisturbed(u, j.attempts[i], actor, expected, env)
  }

  /** A first try: the expected ref, records of the actor, a plan within the limits and
      the room left, and a resulting history within the limits. */
  ghost predicate CanStart(u: Universe, w: World, a: Attempt, actor: Actor, expected: Option<Manifest>) {
    var plan := PlanFor(u, a, actor, expected);
    && plan.material != [] && Lookup(w.refs, actor) == expected
    && PlanFits(u, plan, a.reserved) && RoomFor(a, plan) && Installable(u, plan.head, a.reserved)
  }

  /** A later try: the same expected commit, and a ref that the plan can still move or
      has already moved; before its objects are durable, a history within the limits. */
  ghost predicate CanResume(u: Universe, w: World, a: Attempt, plan: Plan, expected: Option<Manifest>) {
    && plan.expected == expected
    && var current := Lookup(w.refs, plan.actor);
       if plan.durable then plan.complete || current == Some(plan.head) || current == plan.expected
       else current == plan.expected && Installable(u, plan.head, a.reserved)
  }

  ghost predicate Planless(a: Attempt, actor: Actor) {
    forall k :: 0 <= k < |a.plans| ==> a.plans[k].actor != actor
  }

  /** What retention demands of every try: a settled attempt, the bound directory, and
      the conditions of a first or of a later try. */
  ghost predicate CanRetain(u: Universe, w: World, gitDir: nat, i: int, actor: Actor, expected: Option<Manifest>) {
    && 0 <= i < |w.journal.attempts| && w.journal.attempts[i].Settled()
    && (w.journal.bound.None? || w.journal.bound == Some(gitDir))
    && var a := w.journal.attempts[i];
       if Planless(a, actor) then CanStart(u, w, a, actor, expected)
       else exists k :: 0 <= k < |a.plans| && a.plans[k].actor == actor && CanResume(u, w, a, a.plans[k], expected)
  }

  /** A first try that meets every condition but that the resulting history fits. */
  ghost predicate Overreaches(u: Universe, refs: map<Actor, Manifest>, a: Attempt, actor: Actor,
                              expected: Option<Manifest>)
  {
    var plan := PlanFor(u, a, actor, expected);
    && plan.material != [] && Lookup(refs, actor) == expected
    && PlanFits(u, plan, a.reserved) && RoomFor(a, plan) && !Installable(u, plan.head, a.reserved)
  }

  ghost predicate StartsInVain(u: Universe, w: World, gitDir: nat, i: int, actor: Actor, expected: Option<Manifest>) {
    && 0 <= i < |w.journal.attempts| && w.journal.attempts[i].Settled()
    && (w.journal.bound.None? || w.journal.bound == Some(gitDir))
    && Planless(w.journal.attempts[i], actor) && Overreaches(u, w.refs, w.journal.attempts[i], actor, expected)
  }

  /** The journal with one more plan, bound to the directory. */
  ghost function WithPlan(j: Journal, gitDir: nat, i: int, plan: Plan): Journal
    requires 0 <= i < |j.attempts|
  {
    var a := j.attempts[i];
    Journal(Some(gitDir), j.ledger, j.attempts[i := a.(plans := a.plans + [plan])])
  }

  /** Status and measurements do not matter to planning. */
  lemma OverreachesStill(u: Universe, refs: map<Actor, Manifest>, a: Attempt, b: Attempt, actor: Actor,
                         expected: Option<Manifest>)
    requires Overreaches(u, refs, a, actor, expected)
    requires b == a.(status := b.status, measured := b.measured)
    ensures Overreaches(u, refs, b, actor, expected)
    ensures PlanFor(u, b, actor, expected) == PlanFor(u, a, actor, expected)
  {
  }

  /** A plan whose history would outgrow the limits is journaled, and its objects may be
      written, but it never becomes durable, and no later try for its actor succeeds. */
  lemma DoomedPlan(u: Universe, p: Policy, w: World, v: World, index: nat, k: nat, gitDir: nat,
                   expected: Option<Manifest>)
    requires Good(u, p, v) && Evolves(w, v)
    requires index < |w.journal.attempts| && k < |w.journal.attempts[index].plans|
    requires var a := w.journal.attempts[index]; !Installable(u, a.plans[k].head, a.reserved)
    ensures index < |v.journal.attempts| && k < |v.journal.attempts[index].plans|
    ensures !v.journal.attempts[index].plans[k].durable
    ensures !CanRetain(u, v, gitDir, index, w.journal.attempts[index].plans[k].actor, expected)
  {
    hide LedgerOk, Afforded, Planned, PairOk, Passes, Amounts, CrossConflict, ObjectsFor, Installable, PlanFits;
    var a, b := w.journal.attempts[index], v.journal.attempts[index];
    assert AttemptEvolves(a, b);
    assert PlanEvolves(a.plans[k], b.plans[k]);
    assert AttemptOk(u, p, v, b, v.journal.ledger.reservations[index]);
    assert PlanOk(u, b, b.plans[k]);
    OnlyPlan(u, p, v, index, k);
  }

  // ---------------------------------------------------------------- planning

  lemma SameSize<T>(a: set<T>, b: set<T>)
    requires a <= b && |a| == |b|
    ensures a == b
  {
    var rest := b - a;
    assert b == a + rest && |b| == |a| + |rest|;
  }

  lemma ChargeNext(u: Universe, list: seq<GitObject>, o: GitObject)
    ensures var n := u.size(u.digest(o)); Charge(u, list + [o]) == Charge(u, list) + n + n / 1000 + 256
  {
  }

  /** Add one object to the plan's list and charge it. */
  method AddObject(u: Universe, list: seq<GitObject>, bytes: nat, o: GitObject) returns (more: seq<GitObject>, sum: nat)
    requires bytes == Charge(u, list)
    ensures more == list + [o] && sum == Charge(u, more)
  {
    ChargeNext(u, list, o);
    var n := u.size(u.digest(o));
    more, sum := list + [o], bytes + n + n / 1000 + 256;
  }

  lemma BlobsNext(ids: seq<Id>, i: nat)
    requires i < |ids|
    ensures Blobs(ids[..i + 1]) == Blobs(ids[..i]) + [Payload(ids[i]), Signature(ids[i])]
  {
    assert ids[..i + 1][..i] == ids[..i];
  }

  /** List and charge the objects of a new commit. */
  method ListObjects(u: Universe, expected: Option<Manifest>, head: Manifest) returns (list: seq<GitObject>, bytes: nat)
    requires expected != Some(head)
    ensures list == ObjectsFor(expected, head) && bytes == Charge(u, list)
  {
    hide Charge, Blobs;
    NothingListed(u);
    var ids := head.records;
    list, bytes := AddObject(u, [], 0, ManifestBlob(head.actor, ids));
    for i := 0 to |ids|
      invariant list == [ManifestBlob(head.actor, ids)] + Blobs(ids[..i]) && bytes == Charge(u, list)
    {
      BlobsNext(ids, i);
      list, bytes := AddObject(u, list, bytes, Payload(ids[i]));
      list, bytes := AddObject(u, list, bytes, Signature(ids[i]));
    }
    assert ids[..|ids|] == ids;
    list, bytes := AddObject(u, list, bytes, Tree(head.actor, ids));
    list, bytes := AddObject(u, list, bytes, CommitObject(head));
  }

  lemma NothingListed(u: Universe)
    ensures Charge(u, []) == 0 && Blobs([]) == []
  {
  }

  /** Compute the plan for one actor and the objects it consists of. */
  method PlanManifest(u: Universe, a: Attempt, actor: Actor, expected: Option<Manifest>)
      returns (plan: Option<Plan>, list: seq<GitObject>)
    ensures plan.Some? <==> PlanFits(u, PlanFor(u, a, actor, expected), a.reserved)
    ensures plan.Some? ==>
      plan.value == PlanFor(u, a, actor, expected) && list == ObjectsFor(expected, plan.value.head)
  {
    hide RecordsBy, RecordsAt, HeadFor, ObjectsFor, Charge, SetOf, Sorted, Blobs, Readable;
    if expected.Some? {
      var readable := ReadManifest(u, actor, expected.value, a.reserved);
      if !readable {
        return None, [];
      }
    }
    var wanted := RecordsBy(u, a.artifact.records, actor);
    var prior := RecordsAt(expected);
    var all := prior + SetOf(wanted);
    if expected.Some? && |all| == |prior| {
      NothingNew(u, actor, expected, wanted);
      return Some(Plan(actor, expected, expected.value, wanted, 0, 0, false, false)), [];
    }
    var head := Manifest(actor, Sorted(all), expected);
    NewHead(actor, expected, wanted);
    if |head.records| > a.reserved.events || 2 * |head.records| + 3 > a.reserved.objects {
      return None, [];
    }
    var bytes;
    list, bytes := ListObjects(u, expected, head);
    if bytes > a.reserved.decoded {
      return None, [];
    }
    plan := Some(Plan(actor, expected, head, wanted, |list|, bytes, false, false));
  }

  lemma SettledPasses(u: Universe, p: Policy, w: World, index: nat)
    requires Good(u, p, w) && index < |w.journal.attempts| && w.journal.attempts[index].Settled()
    ensures var a := w.journal.attempts[index]; Passes(u, p.project, a.artifact, a.refs, a.reserved)
  {
    hide Passes, PlansOk, LedgerOk, Afforded, Planned, PairOk;
    assert AttemptOk(u, p, w, w.journal.attempts[index], w.journal.ledger.reservations[index]);
  }

  /** Is there room for one more plan? The allowances in the measured size give way to the
      charges of the plans, on top of the native baseline. */
  method HasRoom(u: Universe, a: Attempt, verified: Cost, plan: Plan) returns (ok: bool)
    requires Amounts(u, a.artifact, verified) && Planless(a, plan.actor)
    ensures ok <==> RoomFor(a, plan)
  {
    var actors := |ActorsOf(u, a.artifact.records)|;
    var objects := verified.objects - |a.artifact.records| * 2 - actors * 3;
    var bytes := verified.decoded - actors * 4096 - |a.artifact.records| * 512;
    for k := 0 to |a.plans|
      invariant objects == a.artifact.native + PlannedObjects(a.plans[..k])
      invariant bytes == a.artifact.bytes + PlannedBytes(a.plans[..k])
    {
      assert a.plans[..k + 1][..k] == a.plans[..k];
      objects, bytes := objects + a.plans[k].objects, bytes + a.plans[k].bytes;
    }
    assert a.plans[..|a.plans|] == a.plans;
    ok := objects + plan.objects <= a.reserved.objects && bytes + plan.bytes <= a.reserved.decoded;
  }

  lemma NothingNew(u: Universe, actor: Actor, expected: Option<Manifest>, wanted: seq<Id>)
    requires expected.Some? && |RecordsAt(expected) + SetOf(wanted)| == |RecordsAt(expected)|
    ensures HeadFor(actor, expected, wanted) == expected.value
    ensures ObjectsFor(expected, expected.value) == [] && Charge(u, []) == 0
  {
    SameSize(RecordsAt(expected), RecordsAt(expected) + SetOf(wanted));
  }

  /** A commit is never its own parent. */
  lemma NewHead(actor: Actor, expected: Option<Manifest>, wanted: seq<Id>)
    requires expected.Some? ==> |RecordsAt(expected) + SetOf(wanted)| != |RecordsAt(expected)|
    ensures var head := Manifest(actor, Sorted(RecordsAt(expected) + SetOf(wanted)), expected);
      HeadFor(actor, expected, wanted) == head && expected != Some(head)
  {
  }

  lemma RefsStay(w: World, v: World)
    requires v.refs == w.refs
    ensures RefsFollowPlans(w, v)
  {
  }

  lemma CompleteRetained(u: Universe, p: Policy, w: World, index: nat, k: nat)
    requires Good(u, p, w) && index < |w.journal.attempts| && k < |w.journal.attempts[index].plans|
    requires w.journal.attempts[index].plans[k].complete
    ensures var plan := w.journal.attempts[index].plans[k];
      SetOf(plan.head.records) <= RecordsAt(Lookup(w.refs, plan.actor))
  {
    var a := w.journal.attempts[index];
    assert AttemptOk(u, p, w, a, w.journal.ledger.reservations[index]);
    assert FlagsTrue(w, a.plans[k]);
  }

  lemma Completes(u: Universe, p: Policy, w: World, index: nat, k: nat)
    requires Good(u, p, w) && index < |w.journal.attempts| && k < |w.journal.attempts[index].plans|
    requires var plan := w.journal.attempts[index].plans[k];
      plan.durable && Lookup(w.refs, plan.actor) == Some(plan.head)
    ensures var a := w.journal.attempts[index];
      var b := a.(plans := a.plans[k := a.plans[k].(complete := true)]);
      var v := w.(journal := w.journal.(attempts := w.journal.attempts[index := b]));
      Good(u, p, v) && Evolves(w, v)
  {
    hide LedgerOk, Afforded, Planned, PairOk, Passes, Amounts, CrossConflict, ObjectsFor, PlanFits, Installable,
      Evolves;
    var a := w.journal.attempts[index];
    assert AttemptOk(u, p, w, a, w.journal.ledger.reservations[index]);
    assert PlanOk(u, a, a.plans[k]) && FlagsTrue(w, a.plans[k]);
    FlagKeeps(u, p, w, index, k, a.plans[k].(complete := true));
  }

  /** Later journal changes keep the plan that moved a ref. */
  lemma MovesKept(w: World, moved: World, v: World)
    requires RefsFollowPlans(w, moved) && Evolves(moved, v) && v.refs == moved.refs
    ensures RefsFollowPlans(w, v)
  {
  }
}
