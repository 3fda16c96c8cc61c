/** Runs of the contribution exchange: any sequence of operations on a fresh exchange,
    each with any faults and stopping after any number of durable writes. */
module IntakeRuns {
  import opened Basics
  import opened Manifests
  import opened Ledgers
  import opened Journal
  import opened JournalSteps
  import opened Intake
  import opened Retention
  import opened Exchange
  import opened JournalLoad

  datatype Operation =
    | Receiving(intent: nat, artifact: Bundle, selected: set<nat>, source: Option<Bundle>, env: Environment)
    | Recovering(intent: nat, env: Environment)
    | Rolling(closing: nat, next: nat, authorized: bool, writes: nat)
    | Retaining(gitDir: nat, intent: nat, actor: Actor, expected: Option<Manifest>, env: Environment)

  /** A fresh exchange over the refs found in the repository. */
  function Opening(window: nat, refs: map<Actor, Manifest>): World {
    World(Journal(None, Ledger(window, [], NOTHING, NOTHING, []), []), {}, {}, refs)
  }

  // ---------------------------------------------------------------- what holds of a world

  /** No two pending attempts, whose artifacts are durable, hold clashing records. */
  ghost predicate Harmonious(u: Universe, w: World) {
    forall i, j :: 0 <= i < |w.journal.attempts| && 0 <= j < |w.journal.attempts| ==>
      PendingApart(u, w, w.journal.attempts[i], w.journal.attempts[j])
  }

  ghost predicate PendingApart(u: Universe, w: World, a: Attempt, b: Attempt) {
    a.status == Pending && b.status == Pending ==>
      && a.artifact in w.files && b.artifact in w.files
      && forall x, y :: x in a.artifact.records && y in b.artifact.records ==> !Clash(u, x, y)
  }

  /** Every object written belongs to a journaled plan that is charged for it, within the
      reservation of its attempt on top of the native baseline. */
  ghost predicate Charges(u: Universe, w: World) {
    forall o :: o in w.objects ==> exists i, k :: ChargedFor(u, w, o, i, k)
  }

  ghost predicate ChargedFor(u: Universe, w: World, o: GitObject, i: int, k: int) {
    && 0 <= i < |w.journal.attempts| && 0 <= k < |w.journal.attempts[i].plans|
    && var a := w.journal.attempts[i];
       && o in ObjectsFor(a.plans[k].expected, a.plans[k].head)
       && a.plans[k].bytes == Charge(u, ObjectsFor(a.plans[k].expected, a.plans[k].head))
       && a.artifact.native + PlannedObjects(a.plans) <= a.reserved.objects
       && a.artifact.bytes + PlannedBytes(a.plans) <= a.reserved.decoded
  }

  /** Whatever has been written yet, every attempt with a plan keeps its native baseline
      and all its plans, each charged in full, within its reservation. */
  ghost predicate Budgeted(u: Universe, w: World) {
    forall i :: 0 <= i < |w.journal.attempts| ==> WithinReservation(u, w.journal.attempts[i])
  }

  ghost predicate WithinReservation(u: Universe, a: Attempt) {
    a.plans != [] ==>
      && a.artifact.native + PlannedObjects(a.plans) <= a.reserved.objects
      && a.artifact.bytes + PlannedBytes(a.plans) <= a.reserved.decoded
      && forall k :: 0 <= k < |a.plans| ==> FullyCharged(u, a.plans[k])
  }

  ghost predicate FullyCharged(u: Universe, plan: Plan) {
    var objects := ObjectsFor(plan.expected, plan.head);
    plan.objects == |objects| && plan.bytes == Charge(u, objects)
  }

  /** The durable artifact of a settled attempt verifies, belongs to the project and has
      exactly the attempt's refs; with 4096 bytes and three objects for each actor, and 512
      bytes, two objects and an event for each record, it stays within the reservation.
      Those are the measurements of a pending attempt; an attempt in conflict may have been
      marked before its artifact was read, with nothing but a source length measured. */
  ghost predicate Certified(u: Universe, p: Policy, w: World, a: Attempt) {
    a.Settled() ==>
      var b, records, actors := a.artifact, |a.artifact.records|, |ActorsOf(u, a.artifact.records)|;
      var size := Cost(b.wire, b.bytes + 4096 * actors + 512 * records, b.native + 2 * records + 3 * actors,
                       b.events + records, b.depth);
      && b in w.files && b.sound && b.project == p.project && b.refs == a.refs
      && size.wire <= a.reserved.wire && size.decoded <= a.reserved.decoded && size.objects <= a.reserved.objects
      && size.events <= a.reserved.events && size.depth <= a.reserved.depth
      && (a.measured == size || (a.status == Conflict && a.measured == Cost(a.measured.wire, 0, 0, 0, 0)))
  }

  ghost predicate AllCertified(u: Universe, p: Policy, w: World) {
    forall i :: 0 <= i < |w.journal.attempts| ==> Certified(u, p, w, w.journal.attempts[i])
  }

  ghost predicate Sound(u: Universe, p: Policy, w: World) {
    && Loadable(p, w.journal) && Harmonious(u, w) && Charges(u, w) && Budgeted(u, w)
    && AllCertified(u, p, w) && Solvent(p, w.journal)
  }

  lemma GoodIsCertified(u: Universe, p: Policy, w: World)
    requires Good(u, p, w)
    ensures AllCertified(u, p, w)
  {
    hide LedgerOk, Afforded, Planned, PairOk, CrossConflict, PlansOk;
    forall i | 0 <= i < |w.journal.attempts| ensures Certified(u, p, w, w.journal.attempts[i]) {
      assert AttemptOk(u, p, w, w.journal.attempts[i], w.journal.ledger.reservations[i]);
    }
  }

  // ---------------------------------------------------------------- the project's budgets

  /** What the requests of one window, or of all, have been charged, whatever became of
      them: their whole reservation, with 4096 bytes for the entry. */
  ghost function Spent(rs: seq<Reservation>, window: Option<nat>): Usage {
    if rs == [] then Usage(0, 0, 0, 0)
    else
      var rest, c := Spent(rs[1..], window), rs[0].cost;
      if window.Some? && rs[0].window != window.value then rest
      else
        Usage(rest.bytes + c.wire + c.decoded + 4096, rest.objects + c.objects, rest.events + c.events,
              rest.requests + 1)
  }

  ghost predicate Within(u: Usage, max: Usage) {
    u.bytes <= max.bytes && u.objects <= max.objects && u.events <= max.events && u.requests <= max.requests
  }

  /** Every attempt is charged its whole reservation, all attempts together are within the
      retention budget, and those of every window, past or open, within the window budget. */
  ghost predicate Solvent(p: Policy, j: Journal) {
    && |j.attempts| == |j.ledger.reservations| <= 16384
    && (forall i :: 0 <= i < |j.attempts| ==> j.attempts[i].reserved == j.ledger.reservations[i].cost)
    && Within(Spent(j.ledger.reservations, None), p.retained)
    && forall window: nat :: Within(Spent(j.ledger.reservations, Some(window)), p.window)
  }

  lemma {:induction false} SpentNext(rs: seq<Reservation>, r: Reservation, window: Option<nat>)
    ensures
      var before, after := Spent(rs, window), Spent(rs + [r], window);
      if window.Some? && r.window != window.value then after == before
      else
        && after.bytes == before.bytes + r.cost.wire + r.cost.decoded + 4096
        && after.objects == before.objects + r.cost.objects
        && after.events == before.events + r.cost.events && after.requests == before.requests + 1
  {
    if rs == [] {
      assert [r][1..] == [];
    } else {
      SpentNext(rs[1..], r, window);
      assert (rs + [r])[1..] == rs[1..] + [r];
    }
  }

  lemma {:induction false} SpentIsUsed(rs: seq<Reservation>, window: Option<nat>)
    ensures Spent(rs, window) == Used(rs, window)
  {
    if rs != [] {
      var n := |rs| - 1;
      SpentIsUsed(rs[..n], window);
      SpentNext(rs[..n], rs[n], window);
      assert rs[..n] + [rs[n]] == rs;
    }
  }

  lemma GoodIsSolvent(u: Universe, p: Policy, w: World)
    requires Good(u, p, w)
    ensures Solvent(p, w.journal)
  {
    hide Planned, PairOk, PlansOk, Spent, Used;
    var l := w.journal.ledger;
    forall i | 0 <= i < |w.journal.attempts| ensures w.journal.attempts[i].reserved == l.reservations[i].cost {
      assert AttemptOk(u, p, w, w.journal.attempts[i], l.reservations[i]);
    }
    SpentIsUsed(l.reservations, None);
    forall window: nat ensures Within(Spent(l.reservations, Some(window)), p.window) {
      SpentIsUsed(l.reservations, Some(window));
      assert Affords(Used(l.reservations, Some(window)), p.window);
    }
  }

  /** When a new intake is charged: the limits of a request are positive, fewer than 16384
      attempts are journaled, and one more fits both budgets. */
  lemma ChargedWhenAffordable(u: Universe, p: Policy, w: World, intent: nat, artifact: Bundle)
    requires Good(u, p, w) && !Reserves(w.journal.ledger, intent)
    ensures Reserve(w.journal.ledger, p, intent, artifact, p.limits).Some? <==>
      && Positive(p.limits) && |w.journal.attempts| < 16384
      && var more := w.journal.ledger.reservations + [Reservation(intent, artifact, p.limits, w.journal.ledger.window)];
         Within(Spent(more, None), p.retained) && Within(Spent(more, Some(w.journal.ledger.window)), p.window)
  {
    hide Planned, PairOk, AttemptOk, Spent, Used;
    var l := w.journal.ledger;
    var r := Reservation(intent, artifact, p.limits, l.window);
    SpentIsUsed(l.reservations + [r], None);
    SpentIsUsed(l.reservations + [r], Some(l.window));
    UsedNext(l.reservations, r, None);
    UsedNext(l.reservations, r, Some(l.window));
  }

  lemma GoodIsBudgeted(u: Universe, p: Policy, w: World)
    requires Good(u, p, w)
    ensures Budgeted(u, w)
  {
    hide LedgerOk, Afforded, Planned, PairOk, Passes, CrossConflict, ObjectsFor, Charge, PlanFits, HeadFor;
    forall i | 0 <= i < |w.journal.attempts| ensures WithinReservation(u, w.journal.attempts[i]) {
      var a := w.journal.attempts[i];
      assert AttemptOk(u, p, w, a, w.journal.ledger.reservations[i]);
      forall k | 0 <= k < |a.plans| ensures FullyCharged(u, a.plans[k]) {
        assert PlanOk(u, a, a.plans[k]);
      }
    }
  }

  lemma GoodIsSound(u: Universe, p: Policy, w: World)
    requires Good(u, p, w)
    ensures Sound(u, p, w)
  {
    hide Good, Loadable, ChargedFor, PlannedObjects, PlannedBytes, Budgeted, Solvent, AllCertified;
    GoodLoads(u, p, w);
    GoodIsBudgeted(u, p, w);
    GoodIsCertified(u, p, w);
    GoodIsSolvent(u, p, w);
    forall i, j | 0 <= i < |w.journal.attempts| && 0 <= j < |w.journal.attempts|
      ensures PendingApart(u, w, w.journal.attempts[i], w.journal.attempts[j])
    {
      GoodIsApart(u, p, w, i, j);
    }
    forall o | o in w.objects ensures exists i, k :: ChargedFor(u, w, o, i, k) {
      GoodCharges(u, p, w, o);
    }
  }

  lemma GoodIsApart(u: Universe, p: Policy, w: World, i: nat, j: nat)
    requires Good(u, p, w) && i < |w.journal.attempts| && j < |w.journal.attempts|
    ensures PendingApart(u, w, w.journal.attempts[i], w.journal.attempts[j])
  {
    hide Good;
    var a, b := w.journal.attempts[i], w.journal.attempts[j];
    if a.status == Pending && b.status == Pending {
      PendingDurable(u, p, w, i);
      PendingDurable(u, p, w, j);
      forall x, y | x in a.artifact.records && y in b.artifact.records ensures !Clash(u, x, y) {
        PendingNeverClash(u, p, w, i, j, x, y);
      }
    }
  }

  lemma PendingDurable(u: Universe, p: Policy, w: World, i: nat)
    requires Good(u, p, w) && i < |w.journal.attempts| && w.journal.attempts[i].status == Pending
    ensures w.journal.attempts[i].artifact in w.files
  {
    assert AttemptOk(u, p, w, w.journal.attempts[i], w.journal.ledger.reservations[i]);
  }

  lemma GoodCharges(u: Universe, p: Policy, w: World, o: GitObject)
    requires Good(u, p, w) && o in w.objects
    ensures exists i, k :: ChargedFor(u, w, o, i, k)
  {
    hide Good;
    var i, k := WrittenIsCharged(u, p, w, o);
    assert ChargedFor(u, w, o, i, k);
  }

  // ---------------------------------------------------------------- what holds of a step

  /** What an operation of each kind leaves alone. */
  ghost predicate Touches(op: Operation, w: World, v: World) {
    match op
    case Receiving(intent, artifact, _, _, _) =>
      && v.objects == w.objects && v.refs == w.refs && v.journal.bound == w.journal.bound
      && (v.files == w.files || v.files == w.files + {artifact})
      && (v == w || Charged(w.journal.ledger, v.journal.ledger, intent, artifact))
    case Recovering(_, _) =>
      v.objects == w.objects && v.refs == w.refs && v.files == w.files && v.journal.ledger == w.journal.ledger
    case Rolling(expected, next, authorized, writes) =>
      var rolled := MayRoll(w.journal.ledger, expected, next, authorized) && writes > 0;
      v == if rolled then w.(journal := w.journal.(ledger := Rolled(w.journal.ledger, next))) else w
    case Retaining(_, _, actor, _, _) =>
      v.files == w.files && v.journal.ledger == w.journal.ledger && OnlyActor(w.refs, v.refs, actor)
  }

  /** Perform one operation. */
  method Execute(x: ContributionExchange, op: Operation)
    requires x.Valid()
    modifies x
    ensures x.Valid() && Evolves(old(x.State()), x.State()) && RefsFollowPlans(old(x.State()), x.State())
    ensures Touches(op, old(x.State()), x.State())
  {
    hide Good, Evolves, RefsFollowPlans, Loadable;
    var loaded := LoadJournal(x.policy, x.journal);
    assert loaded by {
      GoodLoads(x.u, x.policy, x.State());
    }
    match op {
      case Receiving(intent, artifact, selected, source, env) =>
        var r, charged := x.Receive(intent, artifact, selected, source, env);
        RefsStay(old(x.State()), x.State());
      case Recovering(intent, env) =>
        var r := x.Recover(intent, env);
        RefsStay(old(x.State()), x.State());
      case Rolling(expected, next, authorized, writes) =>
        var ok := x.Rollover(expected, next, authorized, writes);
        RefsStay(old(x.State()), x.State());
      case Retaining(gitDir, intent, actor, expected, env) =>
        var r := x.RetainActor(gitDir, intent, actor, expected, env);
    }
  }

  // ---------------------------------------------------------------- runs

  /** Every world is good, and each operation takes one to the next as it may. */
  ghost predicate Trace(u: Universe, p: Policy, ops: seq<Operation>, worlds: seq<World>) {
    && |worlds| == |ops| + 1
    && (forall n :: 0 <= n < |worlds| ==> Good(u, p, worlds[n]))
    && forall n :: 0 <= n < |ops| ==> StepOk(ops[n], worlds[n], worlds[n + 1])
  }

  ghost predicate StepOk(op: Operation, w: World, v: World) {
    Evolves(w, v) && RefsFollowPlans(w, v) && Touches(op, w, v)
  }

  lemma {:induction false} TraceEvolves(u: Universe, p: Policy, ops: seq<Operation>, worlds: seq<World>, i: nat, j: nat)
    requires Trace(u, p, ops, worlds) && i <= j < |worlds|
    ensures Evolves(worlds[i], worlds[j])
  {
    hide Good, Evolves, RefsFollowPlans, Touches;
    if i == j {
      EvolvesReflexive(worlds[i]);
    } else {
      TraceEvolves(u, p, ops, worlds, i, j - 1);
      assert StepOk(ops[j - 1], worlds[j - 1], worlds[j - 1 + 1]);
      EvolvesTransitive(worlds[i], worlds[j - 1], worlds[j]);
    }
  }

  /** An attempt in conflict stays in conflict. */
  ghost predicate ConflictsStay(w: World, v: World) {
    forall n :: 0 <= n < |w.journal.attempts| && w.journal.attempts[n].status == Conflict ==>
      n < |v.journal.attempts| && v.journal.attempts[n].status == Conflict
  }

  /** What a whole run keeps between two of its worlds: files, objects and retained
      records are not lost, conflicts stay, attempts keep their identity and plans. */
  ghost predicate Lasting(w: World, v: World) {
    ConflictsStay(w, v) && Evolves(w, v)
  }

  lemma EvolvesLasts(w: World, v: World)
    requires Evolves(w, v)
    ensures Lasting(w, v)
  {
    forall n | 0 <= n < |w.journal.attempts| && w.journal.attempts[n].status == Conflict
      ensures n < |v.journal.attempts| && v.journal.attempts[n].status == Conflict
    {
      assert AttemptEvolves(w.journal.attempts[n], v.journal.attempts[n]);
    }
  }

  /** Run any operations on a fresh exchange. In every world of the run the journal
      passes the next load, no two pending attempts clash, the artifact of every settled
      attempt is certified, all charges are within the budgets, everything written is
      charged and every attempt stays within its reservation; between any two worlds nothing
      durable is undone; and each operation moves refs only along durable plans and touches
      only what its kind may touch. */
  method RunAll(u: Universe, policy: Policy, window: nat, refs: map<Actor, Manifest>, ops: seq<Operation>)
      returns (journal: Journal, ghost worlds: seq<World>)
    ensures |worlds| == |ops| + 1 && worlds[0] == Opening(window, refs) && worlds[|ops|].journal == journal
    ensures Loadable(policy, journal)
    ensures forall n :: 0 <= n < |worlds| ==> Sound(u, policy, worlds[n])
    ensures forall n :: 0 <= n < |ops| ==> StepOk(ops[n], worlds[n], worlds[n + 1])
    ensures forall i, j :: 0 <= i <= j < |worlds| ==> Lasting(worlds[i], worlds[j])
  {
    hide Good, Evolves, RefsFollowPlans, Touches, Sound, Lasting;
    var x := new ContributionExchange(u, policy, window, refs);
    worlds := [x.State()];
    for n := 0 to |ops|
      invariant x.Valid() && x.u == u && x.policy == policy && fresh(x)
      invariant |worlds| == n + 1 && worlds[0] == Opening(window, refs) && worlds[n] == x.State()
      invariant forall m :: 0 <= m < |worlds| ==> Good(u, policy, worlds[m])
      invariant forall m :: 0 <= m < n ==> StepOk(ops[m], worlds[m], worlds[m + 1])
    {
      Execute(x, ops[n]);
      worlds := worlds + [x.State()];
    }
    journal := x.journal;
    forall n | 0 <= n < |worlds| ensures Sound(u, policy, worlds[n]) {
      GoodIsSound(u, policy, worlds[n]);
    }
    GoodLoads(u, policy, worlds[|ops|]);
    forall i, j | 0 <= i <= j < |worlds| ensures Lasting(worlds[i], worlds[j]) {
      TraceEvolves(u, policy, ops, worlds, i, j);
      EvolvesLasts(worlds[i], worlds[j]);
    }
  }

  // ---------------------------------------------------------------- intake that locks up

  /** The attempt names a durable artifact that fails its refs or its limits. */
  ghost predicate Locks(u: Universe, p: Policy, w: World, i: int) {
    && 0 <= i < |w.journal.attempts| && w.journal.attempts[i].artifact in w.files
    && !Inspectable(u, p, w.files, w.journal.attempts[i])
  }

  /** When a new intake can settle: its own artifact passes inspection, and no journaled
      attempt names a durable artifact that fails the attempt's refs or limits. */
  lemma SettlesUnlessLocked(u: Universe, p: Policy, w: World, intent: nat, artifact: Bundle, refs: set<nat>)
    ensures CleanRead(u, p, w.files, Started(w.journal, p, intent, artifact, refs), |w.journal.attempts|) <==>
      && artifact.sound && artifact.project == p.project && artifact.refs == refs
      && artifact.wire <= p.limits.wire && artifact.depth <= p.limits.depth
      && artifact.events + |artifact.records| <= p.limits.events
      && (var actors := |ActorsOf(u, artifact.records)|;
          && artifact.bytes + 4096 * actors + 512 * |artifact.records| <= p.limits.decoded
          && artifact.native + 3 * actors + 2 * |artifact.records| <= p.limits.objects)
      && forall i :: !Locks(u, p, w, i)
  {
    var start, n := Started(w.journal, p, intent, artifact, refs), |w.journal.attempts|;
    assert forall i :: 0 <= i < n ==> start[i] == w.journal.attempts[i];
    if OthersInspectable(u, p, w.files, start, n) {
      forall i ensures !Locks(u, p, w, i) {
        assert 0 <= i < n ==> start[i] == w.journal.attempts[i];
      }
    }
    if forall i :: !Locks(u, p, w, i) {
      forall i | 0 <= i < |start| && i != n && start[i].artifact in w.files
        ensures Inspectable(u, p, w.files, start[i])
      {
        assert !Locks(u, p, w, i);
      }
    }
  }

  /** A lock is never lifted, and while it lasts no attempt can be recovered, neither the
      one that locks nor any other. */
  lemma LockLasts(u: Universe, p: Policy, w: World, v: World, i: int)
    requires Locks(u, p, w, i) && Evolves(w, v)
    ensures Locks(u, p, v, i)
    ensures forall intent: nat, n: int :: !Recoverable(v, u, p, intent, n)
  {
    hide Passes;
    assert AttemptEvolves(w.journal.attempts[i], v.journal.attempts[i]);
    assert Locks(u, p, v, i);
  }

  /** With the wrong refs nothing becomes durable, and the failed attempt is journaled. */
  lemma WrongRefs(u: Universe, p: Policy, w: World, v: World, intent: nat, b: Bundle, wrong: set<nat>)
    requires w.journal.attempts == [] && w.files == {} && wrong != b.refs
    requires Received(u, p, w, v, intent, b, wrong, true)
    ensures |v.journal.attempts| == 1 && v.files == {}
    ensures
      var a := v.journal.attempts[0];
      a.status == Failed && a.artifact == b && a.refs == wrong && a.intent == intent
  {
    var start := Started(w.journal, p, intent, b, wrong);
    assert start[0] == NewAttempt(intent, b, wrong, p.limits);
  }

  /** With the right refs the artifact becomes durable, also for the failed attempt. */
  lemma RightRefs(u: Universe, p: Policy, w: World, v: World, intent: nat, b: Bundle)
    requires |w.journal.attempts| == 1 && w.files == {}
    requires var a := w.journal.attempts[0]; a.status == Failed && a.artifact == b && a.refs != b.refs
    requires Passes(u, p.project, b, b.refs, p.limits)
    requires Received(u, p, w, v, intent, b, b.refs, true)
    ensures Locks(u, p, v, 0) && |v.journal.attempts| == 2
    ensures v.journal.attempts[0].status == Failed && v.journal.attempts[1].Settled()
  {
    var start := Started(w.journal, p, intent, b, b.refs);
    assert start[0] == w.journal.attempts[0] && start[1] == NewAttempt(intent, b, b.refs, p.limits);
    assert CleanRead(u, p, w.files, start, 1);
    assert v.journal.attempts[0] == MarkedFor(u, w.files, start[0], b.records);
  }

  /** The policy affords two intakes. */
  predicate AffordsTwo(p: Policy) {
    var two := Plus(Plus(Usage(0, 0, 0, 0), p.limits), p.limits);
    Positive(p.limits) && Affords(two, p.window) && Affords(two, p.retained)
  }

  lemma TwoReserved(p: Policy, window: nat, b: Bundle, other: Bundle)
    requires AffordsTwo(p)
    ensures
      var empty := Opening(window, map[]).journal.ledger;
      var first := Reserve(empty, p, 1, b, p.limits);
      first.Some? && Reserve(first.value, p, 2, other, p.limits).Some?
  {
    var empty := Opening(window, map[]).journal.ledger;
    assert LedgerOk(empty) && !Reserves(empty, 1);
    var first := Reserve(empty, p, 1, b, p.limits);
    ReserveAppends(empty, p, 1, b, p.limits);
    assert !Reserves(first.value, 2);
  }

  /** How a lock comes about: an intake with the wrong refs fails and is journaled, then
      an intake of the same artifact with the right refs settles. From then on, whatever
      else happens, no new intake settles. */
  method LockUp(u: Universe, policy: Policy, window: nat, refs: map<Actor, Manifest>, b: Bundle, wrong: set<nat>)
      returns (journal: Journal, files: set<Bundle>)
    requires AffordsTwo(policy)
    requires wrong != b.refs && Passes(u, policy.project, b, b.refs, policy.limits)
    ensures
      var w := World(journal, files, {}, refs);
      && Good(u, policy, w) && Locks(u, policy, w, 0) && |journal.attempts| == 2
      && journal.attempts[0].status == Failed && journal.attempts[1].Settled()
    ensures
      forall v: World, intent: nat, artifact: Bundle, selected: set<nat> ::
        Evolves(World(journal, files, {}, refs), v) ==>
        !CleanRead(u, policy, v.files, Started(v.journal, policy, intent, artifact, selected), |v.journal.attempts|)
  {
    hide Good, Evolves, Reserve, Received, CleanRead, Passes, Locks, AffordsTwo;
    var clean := Environment(3, {});
    var x := new ContributionExchange(u, policy, window, refs);
    ghost var before := x.State();
    TwoReserved(policy, window, b, b);
    var r, charged := x.Receive(1, b, wrong, Some(b), clean);
    ghost var middle := x.State();
    WrongRefs(u, policy, before, middle, 1, b, wrong);
    r, charged := x.Receive(2, b, b.refs, Some(b), clean);
    ghost var w := x.State();
    RightRefs(u, policy, middle, w, 2, b);
    forall v: World, intent: nat, artifact: Bundle, selected: set<nat> | Evolves(w, v)
      ensures
        var start := Started(v.journal, policy, intent, artifact, selected);
        !CleanRead(u, policy, v.files, start, |v.journal.attempts|)
    {
      LockLasts(u, policy, w, v, 0);
      SettlesUnlessLocked(u, policy, v, intent, artifact, selected);
    }
    journal, files := x.journal, x.files;
  }

  // ---------------------------------------------------------------- measurements left behind

  /** An interrupted intake with a durable artifact, and then the other side of a clash. */
  lemma MarkedUnread(u: Universe, p: Policy, w: World, v: World, b: Bundle, other: Bundle)
    requires |w.journal.attempts| == 1 && w.journal.attempts[0] == NewAttempt(1, b, b.refs, p.limits)
    requires b in w.files && w.files <= v.files
    requires Passes(u, p.project, b, b.refs, p.limits) && Passes(u, p.project, other, other.refs, p.limits)
    requires CrossConflict(u, b.records, other.records)
    requires Received(u, p, w, v, 2, other, other.refs, true)
    ensures |v.journal.attempts| == 2
    ensures v.journal.attempts[0] == NewAttempt(1, b, b.refs, p.limits).(status := Conflict)
    ensures Recoverable(v, u, p, 1, 0)
  {
    hide Passes, CrossConflict;
    var start := Started(w.journal, p, 2, other, other.refs);
    assert start[0] == w.journal.attempts[0] && start[1] == NewAttempt(2, other, other.refs, p.limits);
    assert CleanRead(u, p, w.files, start, 1);
    assert v.journal.attempts[0] == MarkedFor(u, w.files, start[0], other.records);
  }

  lemma FirstReads(u: Universe, p: Policy, w: World, b: Bundle)
    requires w.journal.attempts == [] && Passes(u, p.project, b, b.refs, p.limits)
    ensures CleanRead(u, p, w.files, Started(w.journal, p, 1, b, b.refs), 0)
  {
    assert Started(w.journal, p, 1, b, b.refs)[0] == NewAttempt(1, b, b.refs, p.limits);
  }

  /** Records take up space, so an artifact that holds one does not measure zero. */
  lemma RecordsMeasure(u: Universe, b: Bundle, other: Bundle)
    requires CrossConflict(u, b.records, other.records)
    ensures !Amounts(u, b, Cost(0, 0, 0, 0, 0))
  {
  }

  /** How an attempt in conflict comes to carry no measurements: its process dies after its
      artifact has become durable and before the outcome is saved, and a clashing artifact
      marks it. Recovering the attempt measures it. */
  method MarkUnmeasured(u: Universe, policy: Policy, window: nat, refs: map<Actor, Manifest>, b: Bundle, other: Bundle)
      returns (marked: Attempt, recovered: Attempt)
    requires AffordsTwo(policy) && CrossConflict(u, b.records, other.records)
    requires Passes(u, policy.project, b, b.refs, policy.limits)
    requires Passes(u, policy.project, other, other.refs, policy.limits)
    ensures marked.status == Conflict && marked.artifact == b
    ensures marked.measured == Cost(0, 0, 0, 0, 0) && !Amounts(u, b, marked.measured)
    ensures recovered.status == Conflict && recovered.artifact == b && Amounts(u, b, recovered.measured)
  {
    hide Good, Evolves, Reserve, Received, CleanRead, Passes, AffordsTwo, Amounts, CrossConflict;
    var x := new ContributionExchange(u, policy, window, refs);
    ghost var before := x.State();
    TwoReserved(policy, window, b, other);
    FirstReads(u, policy, before, b);
    var r, charged := x.Receive(1, b, b.refs, Some(b), Environment(2, {}));
    ghost var middle := x.State();
    r, charged := x.Receive(2, other, other.refs, Some(other), Environment(3, {}));
    MarkedUnread(u, policy, middle, x.State(), b, other);
    marked := x.journal.attempts[0];
    RecordsMeasure(u, b, other);
    r := x.Recover(1, Environment(1, {}));
    recovered := x.journal.attempts[0];
  }
}
