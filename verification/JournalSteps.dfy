/** What each durable write of the intake keeps, and what whole runs keep. */
module JournalSteps {
  import opened Basics
  import opened Manifests
  import opened Ledgers
  import opened Journal

  // ---------------------------------------------------------------- the next load succeeds

  lemma {:induction false} PlanWithinSum(plans: seq<Plan>, k: nat)
    requires k < |plans|
    ensures plans[k].objects <= PlannedObjects(plans) && plans[k].bytes <= PlannedBytes(plans)
  {
    if k < |plans| - 1 {
      PlanWithinSum(plans[..|plans| - 1], k);
    }
  }

  lemma {:induction false} DistinctFit(plans: seq<Plan>, actors: set<Actor>)
    requires DistinctActors(plans) && forall k :: 0 <= k < |plans| ==> plans[k].actor in actors
    ensures |plans| <= |actors|
  {
    if plans != [] {
      var n := |plans| - 1;
      DistinctFit(plans[..n], actors - {plans[n].actor});
    }
  }

  lemma PlanActorKnown(u: Universe, a: Attempt, plan: Plan)
    requires PlanOk(u, a, plan)
    ensures plan.actor in ActorsOf(u, a.artifact.records)
  {
    var id := plan.material[0];
    assert id in RecordsBy(u, a.artifact.records, plan.actor);
    var k :| 0 <= k < |a.artifact.records| && a.artifact.records[k] == id;
  }

  /** Three objects for each plan: plans belong to distinct actors of the artifact, and
      the inspected size already allows three objects for each of them. */
  lemma ThreePerPlan(u: Universe, p: Policy, w: World, a: Attempt, r: Reservation)
    requires AttemptOk(u, p, w, a, r)
    ensures |a.plans| * 3 <= a.reserved.objects
  {
    if a.plans != [] {
      forall k | 0 <= k < |a.plans| ensures a.plans[k].actor in ActorsOf(u, a.artifact.records) {
        PlanActorKnown(u, a, a.plans[k]);
      }
      DistinctFit(a.plans, ActorsOf(u, a.artifact.records));
    }
  }

  lemma AttemptLoads(u: Universe, p: Policy, w: World, a: Attempt, r: Reservation)
    requires AttemptOk(u, p, w, a, r)
    ensures LoadableAttempt(w.journal, a, r)
  {
    ThreePerPlan(u, p, w, a, r);
    forall k | 0 <= k < |a.plans| ensures LoadablePlan(w.journal, a, a.plans[k]) {
      PlanWithinSum(a.plans, k);
      assert PlanOk(u, a, a.plans[k]);
    }
  }

  lemma LedgerReplays(p: Policy, l: Ledger)
    requires LedgerOk(l) && |l.reservations| > 0
    ensures var r := l.reservations[0]; Reserve(l, p, r.intent, r.artifact, r.cost) == Some(l)
  {
  }

  /** Every journal that satisfies the invariant passes the structural checks made when
      it is read back. */
  lemma GoodLoads(u: Universe, p: Policy, w: World)
    requires Good(u, p, w)
    ensures Loadable(p, w.journal)
  {
    hide LedgerOk, Afforded, AttemptOk, LoadableAttempt, Reserve, Planned;
    forall i | 0 <= i < |w.journal.attempts|
      ensures LoadableAttempt(w.journal, w.journal.attempts[i], w.journal.ledger.reservations[i])
    {
      AttemptLoads(u, p, w, w.journal.attempts[i], w.journal.ledger.reservations[i]);
    }
    LedgerSize(w.journal.ledger);
    if |w.journal.attempts| > 0 {
      LedgerReplays(p, w.journal.ledger);
    }
  }

  lemma LedgerSize(l: Ledger)
    requires LedgerOk(l)
    ensures |l.reservations| <= MAX_RECORDS
    ensures l.reservations == [] ==> l.windowUsed == l.retainedUsed == NOTHING && l.prior == []
  {
  }

  // ---------------------------------------------------------------- evolution

  lemma EvolvesReflexive(w: World)
    ensures Evolves(w, w)
  {
  }

  lemma EvolvesTransitive(a: World, b: World, c: World)
    requires Evolves(a, b) && Evolves(b, c)
    ensures Evolves(a, c)
  {
  }

  /** Two pending attempts have durable artifacts that hold no two different records of
      one actor and intent. */
  lemma PendingNeverClash(u: Universe, p: Policy, w: World, i: nat, j: nat, x: Id, y: Id)
    requires Good(u, p, w) && i < |w.journal.attempts| && j < |w.journal.attempts|
    requires w.journal.attempts[i].status == Pending && w.journal.attempts[j].status == Pending
    requires x in w.journal.attempts[i].artifact.records && y in w.journal.attempts[j].artifact.records
    ensures w.journal.attempts[i].artifact in w.files && w.journal.attempts[j].artifact in w.files
    ensures !Clash(u, x, y)
  {
    hide LedgerOk, Afforded, PlansOk, Planned, Passes, Amounts;
    var a, b := w.journal.attempts[i], w.journal.attempts[j];
    assert AttemptOk(u, p, w, a, w.journal.ledger.reservations[i]);
    assert AttemptOk(u, p, w, b, w.journal.ledger.reservations[j]);
    assert i < j ==> PairOk(u, a, b);
    assert j < i ==> PairOk(u, b, a);
    var k :| 0 <= k < |a.artifact.records| && a.artifact.records[k] == x;
    var m :| 0 <= m < |b.artifact.records| && b.artifact.records[m] == y;
    var theirs, ours := b.artifact.records[m], a.artifact.records[k];
    assert !Clash(u, theirs, ours);
  }

  /** Every object written belongs to a journaled plan whose charge, on top of the native
      baseline and all other plans of its attempt, is within the reservation. */
  lemma WrittenIsCharged(u: Universe, p: Policy, w: World, o: GitObject) returns (i: nat, k: nat)
    requires Good(u, p, w) && o in w.objects
    ensures i < |w.journal.attempts| && k < |w.journal.attempts[i].plans|
    ensures var a := w.journal.attempts[i];
      && o in ObjectsFor(a.plans[k].expected, a.plans[k].head)
      && a.plans[k].bytes == Charge(u, ObjectsFor(a.plans[k].expected, a.plans[k].head))
      && a.artifact.native + PlannedObjects(a.plans) <= a.reserved.objects
      && a.artifact.bytes + PlannedBytes(a.plans) <= a.reserved.decoded
  {
    hide LedgerOk, Afforded, Passes, Amounts, CrossConflict, PairOk, ObjectsFor, Charge, HeadFor, RecordsBy;
    assert Planned(w, o);
    i, k :| 0 <= i < |w.journal.attempts| && 0 <= k < |w.journal.attempts[i].plans|
      && var plan := w.journal.attempts[i].plans[k]; o in ObjectsFor(plan.expected, plan.head);
    assert AttemptOk(u, p, w, w.journal.attempts[i], w.journal.ledger.reservations[i]);
    assert PlanOk(u, w.journal.attempts[i], w.journal.attempts[i].plans[k]);
  }

  // ---------------------------------------------------------------- durable writes

  /** The parts of an attempt's invariant that later writes elsewhere cannot break. */
  lemma AttemptStays(u: Universe, p: Policy, w: World, v: World, a: Attempt, r: Reservation)
    requires AttemptOk(u, p, w, a, r)
    requires w.files <= v.files && w.objects <= v.objects && Retains(w, v)
    requires w.journal.bound.Some? ==> v.journal.bound.Some?
    ensures AttemptOk(u, p, v, a, r)
  {
  }

  lemma PlannedStays(w: World, v: World, o: GitObject)
    requires Planned(w, o) && |w.journal.attempts| <= |v.journal.attempts|
    requires forall i :: 0 <= i < |w.journal.attempts| ==> AttemptEvolves(w.journal.attempts[i], v.journal.attempts[i])
    ensures Planned(v, o)
  {
    var i, k :| 0 <= i < |w.journal.attempts| && 0 <= k < |w.journal.attempts[i].plans|
      && var plan := w.journal.attempts[i].plans[k]; o in ObjectsFor(plan.expected, plan.head);
    assert AttemptEvolves(w.journal.attempts[i], v.journal.attempts[i]);
    assert PlanEvolves(w.journal.attempts[i].plans[k], v.journal.attempts[i].plans[k]);
  }

  lemma AttemptSelf(a: Attempt)
    ensures AttemptEvolves(a, a)
  {
  }

  /** Appending a freshly reserved attempt. */
  lemma AppendKeeps(u: Universe, p: Policy, w: World, intent: nat, artifact: Bundle, refs: set<nat>, l: Ledger)
    requires Good(u, p, w) && !Reserves(w.journal.ledger, intent)
    requires Reserve(w.journal.ledger, p, intent, artifact, p.limits) == Some(l)
    ensures var a := Attempt(intent, artifact, refs, Reserved, p.limits, Cost(0, 0, 0, 0, 0), []);
      var v := w.(journal := Journal(w.journal.bound, l, w.journal.attempts + [a]));
      Good(u, p, v) && Evolves(w, v)
  {
    hide LedgerOk, Afforded, PlanOk, Reserves, ObjectsFor, CrossConflict, Passes, Amounts;
    ReserveAppends(w.journal.ledger, p, intent, artifact, p.limits);
    ReserveAfforded(w.journal.ledger, p, intent, artifact, p.limits);
    var a := Attempt(intent, artifact, refs, Reserved, p.limits, Cost(0, 0, 0, 0, 0), []);
    var v := w.(journal := Journal(w.journal.bound, l, w.journal.attempts + [a]));
    var n := |w.journal.attempts|;
    forall i | 0 <= i < n
      ensures AttemptOk(u, p, v, v.journal.attempts[i], v.journal.ledger.reservations[i])
      ensures AttemptEvolves(w.journal.attempts[i], v.journal.attempts[i])
    {
      AttemptStays(u, p, w, v, w.journal.attempts[i], w.journal.ledger.reservations[i]);
      AttemptSelf(w.journal.attempts[i]);
    }
    forall i, j | 0 <= i < j < n + 1 ensures PairOk(u, v.journal.attempts[i], v.journal.attempts[j]) {
      if j < n {
        assert PairOk(u, w.journal.attempts[i], w.journal.attempts[j]);
      }
    }
    forall o | o in v.objects ensures Planned(v, o) {
      PlannedStays(w, v, o);
    }
  }

  /** Rolling the ledger over. */
  lemma RolloverKeeps(u: Universe, p: Policy, w: World, expected: nat, next: nat, authorized: bool)
    requires Good(u, p, w) && MayRoll(w.journal.ledger, expected, next, authorized)
    ensures var v := w.(journal := w.journal.(ledger := Rolled(w.journal.ledger, next)));
      Good(u, p, v) && Evolves(w, v)
  {
    hide LedgerOk, Afforded, PairOk, PlansOk, AttemptOk, MayRoll, Planned;
    RollKeeps(p, w.journal.ledger, expected, next, authorized);
    var v := w.(journal := w.journal.(ledger := Rolled(w.journal.ledger, next)));
    forall i | 0 <= i < |w.journal.attempts|
      ensures AttemptOk(u, p, v, v.journal.attempts[i], v.journal.ledger.reservations[i])
      ensures AttemptEvolves(w.journal.attempts[i], v.journal.attempts[i])
    {
      AttemptStays(u, p, w, v, w.journal.attempts[i], w.journal.ledger.reservations[i]);
      AttemptSelf(w.journal.attempts[i]);
    }
    forall o | o in v.objects ensures Planned(v, o) {
      PlannedStays(w, v, o);
    }
  }

  /** Replacing attempts in place, when each replacement is sound and evolves its
      predecessor, and no two pending replacements clash. */
  lemma ReplaceKeeps(u: Universe, p: Policy, w: World, v: World)
    requires Good(u, p, w) && v == w.(journal := v.journal) && v.journal.ledger == w.journal.ledger
    requires w.journal.bound.Some? ==> v.journal.bound == w.journal.bound
    requires |v.journal.attempts| == |w.journal.attempts|
    requires forall i :: 0 <= i < |w.journal.attempts| ==>
      && AttemptEvolves(w.journal.attempts[i], v.journal.attempts[i])
      && AttemptOk(u, p, v, v.journal.attempts[i], w.journal.ledger.reservations[i])
    requires forall i, j :: 0 <= i < j < |w.journal.attempts| ==>
      PairOk(u, v.journal.attempts[i], v.journal.attempts[j])
    ensures Good(u, p, v) && Evolves(w, v)
  {
    hide AttemptOk, AttemptEvolves, PairOk, LedgerOk, Afforded, Planned;
    forall o | o in v.objects ensures Planned(v, o) {
      PlannedStays(w, v, o);
    }
  }

  /** Replacing one attempt without touching its status. */
  lemma ReplaceOneKeeps(u: Universe, p: Policy, w: World, index: nat, a: Attempt, bound: Option<nat>)
    requires Good(u, p, w) && index < |w.journal.attempts| && a.status == w.journal.attempts[index].status
    requires w.journal.bound.Some? ==> bound == w.journal.bound
    requires AttemptEvolves(w.journal.attempts[index], a)
    requires AttemptOk(u, p, w.(journal := w.journal.(bound := bound)), a, w.journal.ledger.reservations[index])
    ensures var v := w.(journal := Journal(bound, w.journal.ledger, w.journal.attempts[index := a]));
      Good(u, p, v) && Evolves(w, v)
  {
    hide LedgerOk, Afforded, PlansOk, CrossConflict, Passes, Amounts, Planned;
    var v := w.(journal := Journal(bound, w.journal.ledger, w.journal.attempts[index := a]));
    forall i | 0 <= i < |w.journal.attempts|
      ensures AttemptEvolves(w.journal.attempts[i], v.journal.attempts[i])
      ensures AttemptOk(u, p, v, v.journal.attempts[i], w.journal.ledger.reservations[i])
    {
      if i == index {
        AttemptStays(u, p, w.(journal := w.journal.(bound := bound)), v, a, w.journal.ledger.reservations[i]);
      } else {
        AttemptSelf(w.journal.attempts[i]);
        AttemptStays(u, p, w, v, w.journal.attempts[i], w.journal.ledger.reservations[i]);
      }
    }
    forall i, j | 0 <= i < j < |w.journal.attempts| ensures PairOk(u, v.journal.attempts[i], v.journal.attempts[j]) {
      assert PairOk(u, w.journal.attempts[i], w.journal.attempts[j]);
    }
    ReplaceKeeps(u, p, w, v);
  }

  /** Publishing an artifact file. */
  lemma FileKeeps(u: Universe, p: Policy, w: World, b: Bundle)
    requires Good(u, p, w)
    ensures Good(u, p, w.(files := w.files + {b})) && Evolves(w, w.(files := w.files + {b}))
  {
    hide LedgerOk, Afforded, PlansOk, AttemptOk, PairOk;
    var v := w.(files := w.files + {b});
    WidenKeeps(u, p, w, v);
  }

  lemma WidenKeeps(u: Universe, p: Policy, w: World, v: World)
    requires Good(u, p, w) && v.journal == w.journal && w.files <= v.files && w.objects <= v.objects
    requires forall o :: o in v.objects ==> o in w.objects || Planned(w, o)
    requires Retains(w, v)
    ensures Good(u, p, v) && Evolves(w, v)
  {
    hide LedgerOk, Afforded, AttemptOk, PairOk, RecordsAt;
    forall i | 0 <= i < |w.journal.attempts|
      ensures AttemptOk(u, p, v, v.journal.attempts[i], v.journal.ledger.reservations[i])
      ensures AttemptEvolves(w.journal.attempts[i], v.journal.attempts[i])
    {
      AttemptStays(u, p, w, v, w.journal.attempts[i], w.journal.ledger.reservations[i]);
      AttemptSelf(w.journal.attempts[i]);
    }
    forall o | o in v.objects ensures Planned(v, o) {
      assert Planned(w, o);
      PlannedStays(w, v, o);
    }
  }

  /** Writing one object of a journaled plan. */
  lemma ObjectKeeps(u: Universe, p: Policy, w: World, index: nat, k: nat, o: GitObject)
    requires Good(u, p, w) && index < |w.journal.attempts| && k < |w.journal.attempts[index].plans|
    requires var plan := w.journal.attempts[index].plans[k]; o in ObjectsFor(plan.expected, plan.head)
    ensures Good(u, p, w.(objects := w.objects + {o})) && Evolves(w, w.(objects := w.objects + {o}))
  {
    hide LedgerOk, Afforded, PlansOk, AttemptOk, PairOk, ObjectsFor;
    assert Planned(w, o);
    WidenKeeps(u, p, w, w.(objects := w.objects + {o}));
  }

  /** Moving a ref along a durable plan loses no retained record. */
  lemma RefKeeps(u: Universe, p: Policy, w: World, index: nat, k: nat)
    requires Good(u, p, w) && index < |w.journal.attempts| && k < |w.journal.attempts[index].plans|
    requires var plan := w.journal.attempts[index].plans[k];
      plan.durable && Lookup(w.refs, plan.actor) == plan.expected
    ensures var plan := w.journal.attempts[index].plans[k];
      var v := w.(refs := w.refs[plan.actor := plan.head]);
      Good(u, p, v) && Evolves(w, v) && RefsFollowPlans(w, v)
  {
    hide Good, Evolves, RefsFollowPlans;
    var plan := w.journal.attempts[index].plans[k];
    var v := w.(refs := w.refs[plan.actor := plan.head]);
    HeadCovers(u, p, w, index, k);
    forall actor: Actor ensures RecordsAt(Lookup(w.refs, actor)) <= RecordsAt(Lookup(v.refs, actor)) {
      assert actor != plan.actor ==> Lookup(v.refs, actor) == Lookup(w.refs, actor);
    }
    WidenKeeps(u, p, w, v);
    PlanMoves(w, v, index, k);
  }

  lemma HeadCovers(u: Universe, p: Policy, w: World, index: nat, k: nat)
    requires Good(u, p, w) && index < |w.journal.attempts| && k < |w.journal.attempts[index].plans|
    ensures var plan := w.journal.attempts[index].plans[k]; RecordsAt(plan.expected) <= SetOf(plan.head.records)
    ensures forall o :: o in w.objects ==> Planned(w, o)
  {
    hide LedgerOk, Afforded, PairOk, ObjectsFor, Charge, PlanFits, Passes, Amounts, CrossConflict;
    var a := w.journal.attempts[index];
    assert AttemptOk(u, p, w, a, w.journal.ledger.reservations[index]);
    assert PlanOk(u, a, a.plans[k]);
  }

  lemma PlanMoves(w: World, v: World, index: nat, k: nat)
    requires v.journal == w.journal && index < |w.journal.attempts| && k < |w.journal.attempts[index].plans|
    requires var plan := w.journal.attempts[index].plans[k];
      && plan.durable && Lookup(w.refs, plan.actor) == plan.expected
      && v.refs == w.refs[plan.actor := plan.head]
    ensures RefsFollowPlans(w, v)
  {
    var plan := w.journal.attempts[index].plans[k];
    assert MovedByPlan(w, v, plan.actor);
  }

  // ---------------------------------------------------------------- settling an attempt

  /** Other attempts whose durable artifact clashes are marked, and nothing else changes. */
  ghost predicate Marked(u: Universe, p: Policy, files: set<Bundle>, before: seq<Attempt>, after: seq<Attempt>,
                         index: nat)
  {
    |after| == |before| && forall i :: 0 <= i < |before| ==>
      || after[i] == before[i]
      || (i != index && after[i] == before[i].(status := Conflict) && Inspectable(u, p, files, before[i]))
  }

  ghost predicate Inspectable(u: Universe, p: Policy, files: set<Bundle>, a: Attempt) {
    a.artifact in files && Passes(u, p.project, a.artifact, a.refs, a.reserved)
  }

  /** The attempt's artifact is durable and clashes with the records. */
  ghost predicate Opposes(u: Universe, files: set<Bundle>, a: Attempt, records: seq<Id>) {
    a.artifact in files && CrossConflict(u, a.artifact.records, records)
  }

  /** The records clash with no other attempt whose artifact is durable. */
  ghost predicate Unopposed(u: Universe, files: set<Bundle>, attempts: seq<Attempt>, index: nat, records: seq<Id>) {
    forall i :: 0 <= i < |attempts| && i != index ==> !Opposes(u, files, attempts[i], records)
  }

  lemma MarkKeeps(u: Universe, p: Policy, w: World, v: World, a: Attempt, r: Reservation)
    requires AttemptOk(u, p, w, a, r) && Inspectable(u, p, w.files, a)
    requires v == w.(journal := v.journal) && v.journal.bound == w.journal.bound
    ensures AttemptOk(u, p, v, a.(status := Conflict), r) && AttemptEvolves(a, a.(status := Conflict))
  {
  }

  lemma PendingPair(u: Universe, p: Policy, w: World, marked: seq<Attempt>, index: nat, a: Attempt, j: nat)
    requires Good(u, p, w) && Marked(u, p, w.files, w.journal.attempts, marked, index)
    requires index < |marked| && j < |marked| && j != index
    requires a.status == Pending ==> Unopposed(u, w.files, w.journal.attempts, index, a.artifact.records)
    ensures PairOk(u, a, marked[j]) && PairOk(u, marked[j], a)
  {
  }

  /** Saving the outcome of one attempt together with the marks it made. It may become
      pending only if it clashes with no durable artifact. */
  lemma SettleKeeps(u: Universe, p: Policy, w: World, marked: seq<Attempt>, index: nat, a: Attempt)
    requires Good(u, p, w) && Marked(u, p, w.files, w.journal.attempts, marked, index) && index < |marked|
    requires AttemptOk(u, p, w, a, w.journal.ledger.reservations[index])
    requires AttemptEvolves(w.journal.attempts[index], a)
    requires a.status == Pending ==> Unopposed(u, w.files, w.journal.attempts, index, a.artifact.records)
    ensures var v := w.(journal := w.journal.(attempts := marked[index := a]));
      Good(u, p, v) && Evolves(w, v)
  {
    hide Planned, PlansOk, LedgerOk, Afforded, CrossConflict, Unopposed, Inspectable;
    var v := w.(journal := w.journal.(attempts := marked[index := a]));
    forall i | 0 <= i < |marked|
      ensures AttemptEvolves(w.journal.attempts[i], v.journal.attempts[i])
      ensures AttemptOk(u, p, v, v.journal.attempts[i], w.journal.ledger.reservations[i])
    {
      SettledAt(u, p, w, v, marked, index, a, i);
    }
    forall i, j | 0 <= i < j < |marked| ensures PairOk(u, v.journal.attempts[i], v.journal.attempts[j]) {
      if i == index {
        PendingPair(u, p, w, marked, index, a, j);
      } else if j == index {
        PendingPair(u, p, w, marked, index, a, i);
      } else {
        assert PairOk(u, w.journal.attempts[i], w.journal.attempts[j]);
      }
    }
    ReplaceKeeps(u, p, w, v);
  }

  lemma SettledAt(u: Universe, p: Policy, w: World, v: World, marked: seq<Attempt>, index: nat, a: Attempt, i: nat)
    requires Good(u, p, w) && Marked(u, p, w.files, w.journal.attempts, marked, index)
    requires index < |marked| && i < |marked|
    requires AttemptOk(u, p, w, a, w.journal.ledger.reservations[index])
    requires AttemptEvolves(w.journal.attempts[index], a)
    requires v == w.(journal := w.journal.(attempts := marked[index := a]))
    ensures AttemptEvolves(w.journal.attempts[i], v.journal.attempts[i])
    ensures AttemptOk(u, p, v, v.journal.attempts[i], w.journal.ledger.reservations[i])
  {
    hide AttemptOk, Planned, PairOk, LedgerOk, Afforded, Inspectable, AttemptEvolves;
    var r := w.journal.ledger.reservations[i];
    if i == index {
      AttemptStays(u, p, w, v, a, r);
    } else {
      AttemptSelf(w.journal.attempts[i]);
      AttemptStays(u, p, w, v, w.journal.attempts[i], r);
      if marked[i] != w.journal.attempts[i] {
        MarkKeeps(u, p, w, v, w.journal.attempts[i], r);
      }
    }
  }

  // ---------------------------------------------------------------- retention plans

  /** The plan was not journaled for this actor yet and fits beside the baseline and the
      plans before it. */
  ghost predicate RoomFor(a: Attempt, plan: Plan) {
    && (forall k :: 0 <= k < |a.plans| ==> a.plans[k].actor != plan.actor)
    && a.artifact.native + PlannedObjects(a.plans) + plan.objects <= a.reserved.objects
    && a.artifact.bytes + PlannedBytes(a.plans) + plan.bytes <= a.reserved.decoded
  }

  lemma AddPlanOk(u: Universe, p: Policy, w: World, a: Attempt, r: Reservation, plan: Plan)
    requires AttemptOk(u, p, w, a, r) && a.Settled() && w.journal.bound.Some?
    requires plan == PlanFor(u, a, plan.actor, plan.expected) && plan.material != [] && RoomFor(a, plan)
    requires PlanFits(u, plan, a.reserved)
    ensures var b := a.(plans := a.plans + [plan]); AttemptOk(u, p, w, b, r) && AttemptEvolves(a, b)
  {
    hide Passes, Amounts, CrossConflict, FlagsTrue, PlanOk, RecordsAt, PlanFor;
    var b := a.(plans := a.plans + [plan]);
    assert b.plans[..|a.plans|] == a.plans;
    NewPlanOk(u, w, a, b, plan);
    forall k | 0 <= k < |a.plans| ensures PlanOk(u, b, b.plans[k]) && FlagsTrue(w, b.plans[k]) {
      PlanOkFor(u, a, b, a.plans[k]);
    }
  }

  lemma NewPlanOk(u: Universe, w: World, a: Attempt, b: Attempt, plan: Plan)
    requires plan == PlanFor(u, a, plan.actor, plan.expected) && plan.material != [] && b.artifact == a.artifact
    requires PlanFits(u, plan, b.reserved)
    ensures PlanOk(u, b, plan) && FlagsTrue(w, plan)
  {
  }

  lemma PlanOkFor(u: Universe, a: Attempt, b: Attempt, plan: Plan)
    requires PlanOk(u, a, plan) && b.artifact == a.artifact && b.reserved == a.reserved
    ensures PlanOk(u, b, plan)
  {
  }

  lemma AddPlanKeeps(u: Universe, p: Policy, w: World, index: nat, plan: Plan, bound: Option<nat>)
    requires Good(u, p, w) && index < |w.journal.attempts| && w.journal.attempts[index].Settled()
    requires bound.Some? && (w.journal.bound.Some? ==> bound == w.journal.bound)
    requires plan == PlanFor(u, w.journal.attempts[index], plan.actor, plan.expected) && plan.material != []
    requires RoomFor(w.journal.attempts[index], plan)
    requires PlanFits(u, plan, w.journal.attempts[index].reserved)
    ensures var a := w.journal.attempts[index];
      var b := a.(plans := a.plans + [plan]);
      var v := w.(journal := Journal(bound, w.journal.ledger, w.journal.attempts[index := b]));
      Good(u, p, v) && Evolves(w, v)
  {
    hide LedgerOk, Afforded, Planned, PairOk, AttemptOk, AttemptEvolves, RoomFor, PlanFor, RecordsAt, Evolves, PlanFits;
    var a := w.journal.attempts[index];
    var v := w.(journal := w.journal.(bound := bound));
    AttemptStays(u, p, w, v, a, w.journal.ledger.reservations[index]);
    AddPlanOk(u, p, v, a, w.journal.ledger.reservations[index], plan);
    ReplaceOneKeeps(u, p, w, index, a.(plans := a.plans + [plan]), bound);
  }

  lemma {:induction false} FlagsKeepSums(plans: seq<Plan>, k: nat, plan: Plan)
    requires k < |plans| && plan.objects == plans[k].objects && plan.bytes == plans[k].bytes
    ensures PlannedObjects(plans[k := plan]) == PlannedObjects(plans)
    ensures PlannedBytes(plans[k := plan]) == PlannedBytes(plans)
  {
    var n := |plans| - 1;
    if k < n {
      FlagsKeepSums(plans[..n], k, plan);
      assert plans[k := plan][..n] == plans[..n][k := plan];
    } else {
      assert plans[k := plan][..n] == plans[..n];
    }
  }

  /** Setting a flag of a plan once it is true. */
  lemma FlagKeeps(u: Universe, p: Policy, w: World, index: nat, k: nat, plan: Plan)
    requires Good(u, p, w) && index < |w.journal.attempts| && k < |w.journal.attempts[index].plans|
    requires PlanEvolves(w.journal.attempts[index].plans[k], plan)
    requires FlagsTrue(w, plan) && (plan.complete ==> plan.durable)
    requires plan.durable ==> Installable(u, plan.head, w.journal.attempts[index].reserved)
    ensures var a := w.journal.attempts[index];
      var v := w.(journal := w.journal.(attempts := w.journal.attempts[index := a.(plans := a.plans[k := plan])]));
      Good(u, p, v) && Evolves(w, v)
  {
    hide LedgerOk, Afforded, Planned, PairOk, Passes, Amounts, CrossConflict, ObjectsFor, HeadFor, Charge, RecordsBy,
      FlagsTrue;
    var a := w.journal.attempts[index];
    var b := a.(plans := a.plans[k := plan]);
    assert AttemptOk(u, p, w, a, w.journal.ledger.reservations[index]);
    FlagsKeepSums(a.plans, k, plan);
    forall i | 0 <= i < |b.plans|
      ensures PlanOk(u, b, b.plans[i]) && FlagsTrue(w, b.plans[i]) && PlanEvolves(a.plans[i], b.plans[i])
    {
      assert PlanOk(u, a, a.plans[i]) && FlagsTrue(w, a.plans[i]);
    }
    ReplaceOneKeeps(u, p, w, index, b, w.journal.bound);
  }
}
