/** The contribution intake journal: reservations, attempts, retention plans, what the
    loader checks, and the invariant every durable write keeps. */
module Journal {
  import opened Basics
  import opened Manifests
  import opened Ledgers

  // ---------------------------------------------------------------- data

  datatype Status = Reserved | Uncertain | Failed | Pending | Conflict

  /** A durable retention plan: the ref may move from `expected` to `head`. */
  datatype Plan = Plan(
    actor: Actor, expected: Option<Manifest>, head: Manifest, material: seq<Id>,
    objects: nat, bytes: nat, durable: bool, complete: bool)

  datatype Attempt = Attempt(
    intent: nat, artifact: Bundle, refs: set<nat>, status: Status,
    reserved: Cost, measured: Cost, plans: seq<Plan>)
  {
    predicate Settled() { status == Pending || status == Conflict }
  }

  datatype Journal = Journal(bound: Option<nat>, ledger: Ledger, attempts: seq<Attempt>)

  /** Everything durable: the journal, the retained artifact files, the Git objects this
      exchange has written, and the contribution refs. */
  datatype World = World(journal: Journal, files: set<Bundle>, objects: set<GitObject>, refs: map<Actor, Manifest>)

  // ---------------------------------------------------------------- artifacts

  function ActorsOf(u: Universe, records: seq<Id>): set<Actor> {
    set k | 0 <= k < |records| :: u.actor(records[k])
  }

  /** What an artifact amounts to, with an allowance for retaining every record and every
      actor: 4096 bytes and three objects for an actor, 512 bytes, two objects and an event
      for a record. */
  ghost predicate Amounts(u: Universe, b: Bundle, c: Cost) {
    var records, actors := |b.records|, |ActorsOf(u, b.records)|;
    && c.wire == b.wire && c.decoded == b.bytes + 4096 * actors + 512 * records
    && c.objects == b.native + 2 * records + 3 * actors
    && c.events == b.events + records && c.depth == b.depth
  }

  /** The artifact verifies, belongs to the project, has exactly the selected refs, and
      with its retention allowance stays within the limits. */
  ghost predicate Passes(u: Universe, project: nat, b: Bundle, refs: set<nat>, limits: Cost) {
    var records, actors := |b.records|, |ActorsOf(u, b.records)|;
    && b.sound && b.project == project && b.refs == refs
    && b.wire <= limits.wire && b.bytes + 4096 * actors + 512 * records <= limits.decoded
    && b.native + 2 * records + 3 * actors <= limits.objects
    && b.events + records <= limits.events && b.depth <= limits.depth
  }

  /** Read and verify an artifact within limits, and measure it. */
  function Inspect(u: Universe, project: nat, b: Bundle, refs: set<nat>, limits: Cost): (r: Option<Cost>)
    ensures r.Some? <==> Passes(u, project, b, refs, limits)
    ensures r.Some? ==> Amounts(u, b, r.value)
  {
    if b.wire > limits.wire || b.project != project || b.refs != refs || b.bytes > limits.decoded then None
    else
      var records, actors := |b.records|, |ActorsOf(u, b.records)|;
      var overheadObjects := records * 2 + actors * 3;
      var overheadBytes := actors * 4096 + records * 512;
      if !b.sound || b.bytes + overheadBytes > limits.decoded || b.depth > limits.depth then None
      else if b.native + overheadObjects > limits.objects || b.events + records > limits.events then None
      else Some(Cost(b.wire, b.bytes + overheadBytes, b.native + overheadObjects, b.events + records, b.depth))
  }

  /** Two different records of one actor under one signed intent. */
  predicate Clash(u: Universe, x: Id, y: Id) {
    u.actor(x) == u.actor(y) && u.intent(x) == u.intent(y) && x != y
  }

  predicate CrossConflict(u: Universe, a: seq<Id>, b: seq<Id>) {
    exists i, j :: 0 <= i < |a| && 0 <= j < |b| && Clash(u, a[i], b[j])
  }

  // ---------------------------------------------------------------- plans

  function RecordsBy(u: Universe, records: seq<Id>, actor: Actor): (r: seq<Id>)
    ensures forall x :: x in r <==> x in records && u.actor(x) == actor
  {
    if records == [] then []
    else
      var rest := RecordsBy(u, records[..|records| - 1], actor);
      if u.actor(records[|records| - 1]) == actor then rest + [records[|records| - 1]] else rest
  }

  /** The plan for retaining one actor's records of an attempt. */
  function PlanFor(u: Universe, a: Attempt, actor: Actor, expected: Option<Manifest>): Plan {
    var wanted := RecordsBy(u, a.artifact.records, actor);
    var head := HeadFor(actor, expected, wanted);
    var objects := ObjectsFor(expected, head);
    Plan(actor, expected, head, wanted, |objects|, Charge(u, objects), false, false)
  }

  /** A new commit respects the count and byte limits. */
  predicate CommitFits(plan: Plan, limits: Cost) {
    || plan.expected == Some(plan.head)
    || (|plan.head.records| <= limits.events && 2 * |plan.head.records| + 3 <= limits.objects
        && plan.bytes <= limits.decoded)
  }

  /** Planning succeeds: the expected commit can be read with its whole history, and the
      new commit respects the limits. */
  ghost predicate PlanFits(u: Universe, plan: Plan, limits: Cost) {
    && (plan.expected.Some? ==> Readable(u, plan.actor, plan.expected.value, limits))
    && CommitFits(plan, limits)
  }

  function PlannedObjects(plans: seq<Plan>): nat {
    if plans == [] then 0 else PlannedObjects(plans[..|plans| - 1]) + plans[|plans| - 1].objects
  }

  function PlannedBytes(plans: seq<Plan>): nat {
    if plans == [] then 0 else PlannedBytes(plans[..|plans| - 1]) + plans[|plans| - 1].bytes
  }

  predicate DistinctActors(plans: seq<Plan>) {
    forall i, j :: 0 <= i < j < |plans| ==> plans[i].actor != plans[j].actor
  }

  /** The plan is the one computed for its actor from the attempt's artifact. */
  ghost predicate PlanOk(u: Universe, a: Attempt, plan: Plan) {
    && plan.material != [] && plan.material == RecordsBy(u, a.artifact.records, plan.actor)
    && plan.head == HeadFor(plan.actor, plan.expected, plan.material)
    && plan.objects == |ObjectsFor(plan.expected, plan.head)|
    && plan.bytes == Charge(u, ObjectsFor(plan.expected, plan.head))
    && PlanFits(u, plan, a.reserved)
    && (plan.durable ==> Installable(u, plan.head, a.reserved))
    && (plan.complete ==> plan.durable)
  }

  // ---------------------------------------------------------------- what the loader checks

  predicate LoadablePlan(j: Journal, a: Attempt, plan: Plan) {
    && plan.objects <= a.reserved.objects && plan.bytes <= a.reserved.decoded
    && (plan.complete ==> plan.durable) && plan.material != []
    && j.bound.Some? && a.Settled()
  }

  predicate LoadableAttempt(j: Journal, a: Attempt, r: Reservation) {
    && a.intent == r.intent && a.artifact == r.artifact && a.reserved == r.cost
    && a.measured.wire <= a.reserved.wire && a.measured.decoded <= a.reserved.decoded
    && a.measured.objects <= a.reserved.objects && a.measured.events <= a.reserved.events
    && DistinctActors(a.plans)
    && (forall k :: 0 <= k < |a.plans| ==> LoadablePlan(j, a, a.plans[k]))
    && PlannedObjects(a.plans) <= a.reserved.objects && PlannedBytes(a.plans) <= a.reserved.decoded
    && |a.plans| * 3 <= a.reserved.objects
  }

  /** The structural checks made whenever the journal is read back. */
  ghost predicate Loadable(p: Policy, j: Journal) {
    && |j.attempts| == |j.ledger.reservations| <= MAX_RECORDS
    && (if |j.attempts| > 0 then
          var r := j.ledger.reservations[0];
          Reserve(j.ledger, p, r.intent, r.artifact, r.cost) == Some(j.ledger)
        else j.ledger.windowUsed == j.ledger.retainedUsed == NOTHING && j.ledger.prior == [])
    && forall i :: 0 <= i < |j.attempts| ==> LoadableAttempt(j, j.attempts[i], j.ledger.reservations[i])
  }

  // ---------------------------------------------------------------- the invariant

  /** The flags of a plan tell the truth: its objects are durable, and once it is
      complete the records of its head are retained for good. */
  ghost predicate FlagsTrue(w: World, plan: Plan) {
    && (plan.durable ==> SetOf(ObjectsFor(plan.expected, plan.head)) <= w.objects)
    && (plan.complete ==> SetOf(plan.head.records) <= RecordsAt(Lookup(w.refs, plan.actor)))
  }

  ghost predicate PlansOk(u: Universe, a: Attempt, w: World) {
    && DistinctActors(a.plans)
    && (forall k :: 0 <= k < |a.plans| ==> PlanOk(u, a, a.plans[k]) && FlagsTrue(w, a.plans[k]))
    && (a.plans != [] ==>
          && a.artifact.native + PlannedObjects(a.plans) <= a.reserved.objects
          && a.artifact.bytes + PlannedBytes(a.plans) <= a.reserved.decoded)
  }

  /** Nothing but the length of the source has been measured. */
  predicate Unread(a: Attempt) {
    a.measured == Cost(a.measured.wire, 0, 0, 0, 0)
  }

  /** One attempt against its reservation and what is durable. A settled attempt has its
      artifact, verified; plans exist only for settled attempts and stay within the
      reservation on top of the native baseline. */
  ghost predicate AttemptOk(u: Universe, p: Policy, w: World, a: Attempt, r: Reservation) {
    && a.intent == r.intent && a.artifact == r.artifact && a.reserved == r.cost
    && Fits(a.measured, a.reserved)
    && (Unread(a) || Amounts(u, a.artifact, a.measured))
    && (a.Settled() ==> a.artifact in w.files && Passes(u, p.project, a.artifact, a.refs, a.reserved))
    && (a.status == Pending ==> Amounts(u, a.artifact, a.measured))
    && (a.status == Pending ==> !CrossConflict(u, a.artifact.records, a.artifact.records))
    && (a.plans != [] ==> a.Settled() && w.journal.bound.Some?)
    && PlansOk(u, a, w)
  }

  /** Two pending attempts never hold clashing records. */
  ghost predicate PairOk(u: Universe, a: Attempt, b: Attempt) {
    a.status == Pending && b.status == Pending ==> !CrossConflict(u, a.artifact.records, b.artifact.records)
  }

  /** The object belongs to a journaled plan. */
  ghost predicate Planned(w: World, o: GitObject) {
    exists i, k :: 0 <= i < |w.journal.attempts| && 0 <= k < |w.journal.attempts[i].plans|
      && var plan := w.journal.attempts[i].plans[k]; o in ObjectsFor(plan.expected, plan.head)
  }

  ghost predicate Good(u: Universe, p: Policy, w: World) {
    && |w.journal.attempts| == |w.journal.ledger.reservations|
    && LedgerOk(w.journal.ledger) && Afforded(p, w.journal.ledger)
    && (forall i :: 0 <= i < |w.journal.attempts| ==>
          AttemptOk(u, p, w, w.journal.attempts[i], w.journal.ledger.reservations[i]))
    && (forall i, j :: 0 <= i < j < |w.journal.attempts| ==>
          PairOk(u, w.journal.attempts[i], w.journal.attempts[j]))
    && forall o :: o in w.objects ==> Planned(w, o)
  }

  // ---------------------------------------------------------------- evolution

  /** A plan only ever gains its two flags. */
  ghost predicate PlanEvolves(a: Plan, b: Plan) {
    b == a.(durable := b.durable, complete := b.complete) && (a.durable ==> b.durable) && (a.complete ==> b.complete)
  }

  /** An attempt keeps its identity, its conflict and its plans. */
  ghost predicate AttemptEvolves(a: Attempt, b: Attempt) {
    && b.intent == a.intent && b.artifact == a.artifact && b.refs == a.refs && b.reserved == a.reserved
    && (a.status == Conflict ==> b.status == Conflict) && (a.Settled() ==> b.Settled())
    && |a.plans| <= |b.plans|
    && forall k :: 0 <= k < |a.plans| ==> PlanEvolves(a.plans[k], b.plans[k])
  }

  ghost predicate Retains(a: World, b: World) {
    forall actor: Actor :: RecordsAt(Lookup(a.refs, actor)) <= RecordsAt(Lookup(b.refs, actor))
  }

  ghost predicate Evolves(a: World, b: World) {
    && a.files <= b.files && a.objects <= b.objects && Retains(a, b)
    && a.journal.ledger.reservations <= b.journal.ledger.reservations
    && (a.journal.bound.Some? ==> b.journal.bound == a.journal.bound)
    && |a.journal.attempts| <= |b.journal.attempts|
    && forall i :: 0 <= i < |a.journal.attempts| ==> AttemptEvolves(a.journal.attempts[i], b.journal.attempts[i])
  }

  /** A ref that moves goes from the expected commit of a journaled plan, whose objects
      are all durable, to that plan's head. */
  ghost predicate RefsFollowPlans(a: World, b: World) {
    forall actor: Actor :: Lookup(b.refs, actor) == Lookup(a.refs, actor) || MovedByPlan(a, b, actor)
  }

  ghost predicate MovedByPlan(a: World, b: World, actor: Actor) {
    exists i, k :: 0 <= i < |b.journal.attempts| && 0 <= k < |b.journal.attempts[i].plans|
      && var plan := b.journal.attempts[i].plans[k];
         && plan.actor == actor && plan.durable
         && plan.expected == Lookup(a.refs, actor) && Some(plan.head) == Lookup(b.refs, actor)
  }
}
