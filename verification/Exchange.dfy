/** The contribution exchange: receiving artifacts, recovering interrupted attempts and
    retaining an actor's records. Each method takes the faults it meets and the number of
    durable writes it completes before the process dies; since its contract holds for all
    of them, it holds at every point where a crash can stop it. */
module Exchange {
  import opened Basics
  import opened Manifests
  import opened Ledgers
  import opened Journal
  import opened JournalSteps
  import opened Intake
  import opened Retention

  class ContributionExchange {
    const u: Universe
    const policy: Policy
    var journal: Journal
    var files: set<Bundle>
    var objects: set<GitObject>
    var refs: map<Actor, Manifest>

    /** A new exchange over the contribution refs found in the repository. */
    constructor (u: Universe, policy: Policy, window: nat, refs: map<Actor, Manifest>)
      ensures Valid() && this.u == u && this.policy == policy && this.refs == refs
      ensures files == {} && objects == {}
      ensures journal == Journal(None, Ledger(window, [], NOTHING, NOTHING, []), [])
    {
      this.u, this.policy := u, policy;
      journal := Journal(None, Ledger(window, [], NOTHING, NOTHING, []), []);
      files, objects := {}, {};
      this.refs := refs;
    }

    ghost function State(): World
      reads this
    {
      World(journal, files, objects, refs)
    }

    ghost predicate Valid()
      reads this
    {
      Good(u, policy, State())
    }

    /** Read the source of a reserved attempt, mark conflicts and make the artifact
        durable. `alive` is false when the process dies on the way. */
    method Examine(index: nat, source: Option<Bundle>, env: Environment)
        returns (alive: bool, left: nat, result: Attempt, marked: seq<Attempt>)
      requires Valid() && index < |journal.attempts| == |journal.ledger.reservations|
      requires journal.attempts[index].status == Reserved
      requires journal.attempts[index].measured == Cost(0, 0, 0, 0, 0)
      modifies this`files
      ensures Valid() && Evolves(old(State()), State())
      ensures files == old(files) || files == old(files) + {journal.attempts[index].artifact}
      ensures alive ==> Savable(u, policy, State(), index, result, marked) && env.writes <= left + 1
      ensures alive ==> result == journal.attempts[index].(status := result.status, measured := result.measured)
      ensures env.faults == {} && env.writes > 0 ==>
        && alive
        && (result.Settled() <==>
              source == Some(journal.attempts[index].artifact)
              && CleanRead(u, policy, old(files), journal.attempts, index))
      ensures env.faults == {} && alive && result.Settled() ==>
        && left == env.writes - (if journal.attempts[index].artifact in old(files) then 0 else 1)
        && journal.attempts[index].artifact in files
        && CleanResult(u, policy, old(files), journal.attempts, index, result, marked)
      ensures env.faults == {} && alive && !result.Settled() ==> result.status == Failed && files == old(files)
    {
      hide Good, Evolves, Savable, Marked, Passes, Amounts, AllMarked, Opposed, OthersInspectable;
      ghost var w := State();
      left := env.writes;
      var a := journal.attempts[index];
      EvolvesReflexive(w);
      NothingMarked(u, policy, files, journal.attempts, index);
      marked := journal.attempts;
      var reading, measured := Read(u, policy, a, source, env.faults);
      result := a.(status := Failed, measured := measured);
      UnsettledSavable(u, policy, w, index, Failed, measured, marked);
      if reading.None? {
        return true, left, result, marked;
      }
      var ok, conflicted;
      ok, conflicted, marked := MarkConflicts(u, policy, files, journal.attempts, index, a.artifact.records);
      UnsettledSavable(u, policy, w, index, Failed, measured, marked);
      if !ok || AfterConflicts in env.faults || (a.artifact !in files && AtPublish in env.faults) {
        return true, left, result, marked;
      }
      if a.artifact !in files {
        if env.writes == 0 {
          return false, 0, result, marked;
        }
        FileKeeps(u, policy, w, a.artifact);
        files := files + {a.artifact};
        left := left - 1;
      }
      MarkedWiden(u, policy, w.files, files, journal.attempts, marked, index);
      if AtArtifactDurable in env.faults {
        result := a.(status := Uncertain, measured := measured);
        UnsettledSavable(u, policy, State(), index, Uncertain, measured, marked);
        return true, left, result, marked;
      }
      result := a.(status := if conflicted then Conflict else Pending, measured := measured);
      SettledSavable(u, policy, State(), w.files, index, result, marked);
      return true, left, result, marked;
    }

    /** Take in an artifact under an operation intent. `source` is what the source file
        holds when it is read, if it can be read. */
    method Receive(intent: nat, artifact: Bundle, selected: set<nat>, source: Option<Bundle>, env: Environment)
        returns (r: Outcome<Attempt, Code>, charged: bool)
      requires Valid()
      modifies this`journal, this`files
      ensures Valid() && Evolves(old(State()), State())
      ensures r.Ok? ==> r.value in journal.attempts && r.value.artifact == artifact && r.value.refs == selected
      ensures r.Ok? ==> r.value.status != Conflict
      ensures files == old(files) || (files == old(files) + {artifact} && charged)
      ensures charged ==> Charged(old(journal).ledger, journal.ledger, intent, artifact)
      ensures charged ==>
        Reserve(old(journal).ledger, policy, intent, artifact, policy.limits) == Some(journal.ledger)
      ensures journal.bound == old(journal).bound
      ensures !charged ==> State() == old(State())
      ensures charged <==>
        && Unseen(old(journal), intent, artifact, selected) && env.writes > 0
        && Reserve(old(journal).ledger, policy, intent, artifact, policy.limits).Some?
      ensures !Unseen(old(journal), intent, artifact, selected) ==>
        Answers(old(journal).attempts, intent, artifact, selected, r)
      ensures charged && env.faults == {} && env.writes >= 3 ==>
        Received(u, policy, old(State()), State(), intent, artifact, selected, source == Some(artifact))
      ensures
        var start, n := Started(old(journal), policy, intent, artifact, selected), |old(journal).attempts|;
        charged && env == Environment(2, {}) && source == Some(artifact) && artifact !in old(files) ==>
        CleanRead(u, policy, old(files), start, n) ==> artifact in files && journal.attempts == start
      ensures charged && env.faults == {} && env.writes >= 3 ==>
        (r.Ok? <==> journal.attempts[|old(journal).attempts|].status == Pending)
    {
      hide Good, Evolves, Reserve, Reserves, Savable, CleanRead, CleanResult, SameIntake, Fits, Answers,
        DistinctIntents;
      ghost var w := State();
      EvolvesReflexive(w);
      IntentsDistinct(u, policy, w);
      var known := Replay(journal.attempts, intent, artifact, selected);
      if known.Some? {
        return known.value, false;
      }
      var next := TryReserve(journal.ledger, policy, intent, artifact, policy.limits);
      if next.None? {
        return Refused(Exhausted), false;
      }
      if env.writes == 0 {
        return Refused(Stopped), false;
      }
      UnseenIsUnreserved(u, policy, w, intent);
      AppendKeeps(u, policy, w, intent, artifact, selected, next.value);
      Appended(journal, policy, intent, artifact, selected, next.value);
      journal := Journal(journal.bound, next.value, Started(journal, policy, intent, artifact, selected));
      charged := true;
      ghost var started := State();
      Aligned(u, policy, started);
      if AtReserved in env.faults {
        return Refused(Stopped), true;
      }
      var index := |journal.attempts| - 1;
      var alive, left, result, marked := Examine(index, source, Environment(env.writes - 1, env.faults));
      EvolvesTransitive(w, started, State());
      if !alive || left == 0 {
        return Refused(Stopped), true;
      }
      ghost var examined := State();
      SaveKeeps(u, policy, examined, index, result, marked);
      if CleanResult(u, policy, w.files, journal.attempts, index, result, marked) {
        CleanSaved(u, policy, w.files, journal.attempts, index, result, marked);
      }
      journal := journal.(attempts := marked[index := result]);
      EvolvesTransitive(w, examined, State());
      assert journal.attempts[index] == result;
      r := if result.status == Pending then Ok(result)
           else if result.status == Conflict then Refused(SignedConflict)
           else Refused(Unreadable);
    }

    /** Close the open window of the ledger and open a new one. Nothing else changes. */
    method Rollover(expected: nat, next: nat, authorized: bool, writes: nat) returns (ok: bool)
      requires Valid()
      modifies this`journal
      ensures Valid() && Evolves(old(State()), State())
      ensures ok <==> MayRoll(old(journal).ledger, expected, next, authorized) && writes > 0
      ensures journal == if ok then old(journal).(ledger := Rolled(old(journal).ledger, next)) else old(journal)
    {
      hide Good, Evolves, MayRoll;
      EvolvesReflexive(State());
      var rolled := RollLedger(journal.ledger, expected, next, authorized);
      if rolled.None? || writes == 0 {
        return false;
      }
      RolloverKeeps(u, policy, State(), expected, next, authorized);
      journal := journal.(ledger := rolled.value);
      ok := true;
    }

    /** Reconcile an interrupted attempt from its durable artifact alone. */
    method Recover(intent: nat, env: Environment) returns (r: Outcome<Attempt, Code>)
      requires Valid()
      modifies this`journal
      ensures Valid() && Evolves(old(State()), State())
      ensures journal.bound == old(journal).bound && journal.ledger == old(journal).ledger
      ensures r.Ok? ==> r.value in journal.attempts && r.value.intent == intent && r.value.status == Pending
      ensures forall index :: Recoverable(old(State()), u, policy, intent, index) && env.writes > 0 ==>
        && |journal.attempts| == |old(journal).attempts|
        && CleanResult(u, policy, files, old(journal).attempts, index, journal.attempts[index], journal.attempts)
        && r == if journal.attempts[index].status == Pending then Ok(journal.attempts[index])
                else Refused(SignedConflict)
      ensures (env.writes == 0 || forall index :: !Recoverable(old(State()), u, policy, intent, index)) ==>
        State() == old(State()) && r.Refused?
    {
      hide Good, Evolves, Savable, CleanResult, Passes, Amounts, Opposed, AllMarked, OthersInspectable, Marked, Fits;
      ghost var w := State();
      EvolvesReflexive(w);
      var found := FindIntent(journal.attempts, intent);
      if found.None? {
        return Refused(Unknown);
      }
      var index := found.value;
      OnlyRecoverable(u, policy, w, intent, index);
      var a := journal.attempts[index];
      var reading := Inspect(u, policy.project, a.artifact, a.refs, a.reserved);
      if a.artifact !in files || reading.None? {
        return Refused(Unreadable);
      }
      var ok, conflicted, marked := MarkConflicts(u, policy, files, journal.attempts, index, a.artifact.records);
      if !ok {
        return Refused(Unreadable);
      }
      assert Recoverable(w, u, policy, intent, index);
      if env.writes == 0 {
        return Refused(Stopped);
      }
      var result := a.(status := if conflicted then Conflict else Pending, measured := reading.value);
      SettledSavable(u, policy, w, files, index, result, marked);
      SaveKeeps(u, policy, w, index, result, marked);
      CleanIs(u, policy, files, journal.attempts, index, result, marked);
      CleanSaved(u, policy, files, journal.attempts, index, result, marked);
      journal := journal.(attempts := marked[index := result]);
      assert journal.attempts[index] == result;
      r := if conflicted then Refused(SignedConflict) else Ok(result);
    }

    /** Write the objects of a journaled plan, one durable write each. */
    method WriteObjects(index: nat, k: nat, list: seq<GitObject>, writes: nat) returns (left: Option<nat>)
      requires Valid() && index < |journal.attempts| && k < |journal.attempts[index].plans|
      requires var plan := journal.attempts[index].plans[k]; list == ObjectsFor(plan.expected, plan.head)
      modifies this`objects
      ensures Valid() && Evolves(old(State()), State())
      ensures left.Some? ==> SetOf(list) <= objects
      ensures if writes >= |list| then left == Some(writes - |list|) else left == None
    {
      hide Good, Evolves, ObjectsFor;
      EvolvesReflexive(State());
      for n := 0 to |list|
        invariant Valid() && Evolves(old(State()), State()) && n <= writes
        invariant forall m :: 0 <= m < n ==> list[m] in objects
      {
        if n == writes {
          return None;
        }
        ghost var w := State();
        ObjectKeeps(u, policy, w, index, k, list[n]);
        objects := objects + {list[n]};
        EvolvesTransitive(old(State()), w, State());
      }
      return Some(writes - |list|);
    }

    /** Move the ref of a plan whose objects are durable, unless it has moved already, and
        mark the plan complete. */
    method Finish(index: nat, k: nat, env: Environment) returns (r: Outcome<Manifest, Code>)
      requires Valid() && index < |journal.attempts| && k < |journal.attempts[index].plans|
      requires journal.attempts[index].plans[k].durable
      modifies this`refs, this`journal
      ensures Valid() && Evolves(old(State()), State()) && RefsFollowPlans(old(State()), State())
      ensures journal.ledger == old(journal).ledger
      ensures OnlyActor(old(refs), refs, old(journal.attempts[index].plans[k].actor))
      ensures r.Ok? ==> r.value == old(journal.attempts[index].plans[k].head)
      ensures r.Ok? ==>
        SetOf(r.value.records) <= RecordsAt(Lookup(refs, old(journal.attempts[index].plans[k].actor)))
      ensures env.faults == {} && env.writes >= 2 ==>
        var plan := old(journal.attempts[index].plans[k]);
        r.Ok? <==> plan.complete || Lookup(old(refs), plan.actor) in {Some(plan.head), plan.expected}
    {
      hide Good, Evolves, RefsFollowPlans, FlagsTrue;
      ghost var w := State();
      EvolvesReflexive(w);
      RefsStay(w, w);
      var a := journal.attempts[index];
      var plan := a.plans[k];
      if plan.complete {
        CompleteRetained(u, policy, w, index, k);
        return Ok(plan.head);
      }
      var left := env.writes;
      if Lookup(refs, plan.actor) != Some(plan.head) {
        if Lookup(refs, plan.actor) != plan.expected {
          return Refused(RefChanged);
        }
        if left == 0 {
          return Refused(Stopped);
        }
        RefKeeps(u, policy, w, index, k);
        refs := refs[plan.actor := plan.head];
        left := left - 1;
      }
      ghost var moved := State();
      if AtRefUpdated in env.faults || left == 0 {
        return Refused(Stopped);
      }
      var done := plan.(complete := true);
      Completes(u, policy, moved, index, k);
      journal := journal.(attempts := journal.attempts[index := a.(plans := a.plans[k := done])]);
      EvolvesTransitive(w, moved, State());
      MovesKept(w, moved, State());
      return Ok(plan.head);
    }

    /** Install a journaled plan: write its objects, mark them durable, move the ref. */
    method Install(index: nat, k: nat, list: seq<GitObject>, env: Environment) returns (r: Outcome<Manifest, Code>)
      requires Valid() && index < |journal.attempts| && k < |journal.attempts[index].plans|
      requires var plan := journal.attempts[index].plans[k];
        list == ObjectsFor(plan.expected, plan.head) && !plan.durable && !plan.complete
      modifies this`journal, this`objects, this`refs
      ensures Valid() && Evolves(old(State()), State()) && RefsFollowPlans(old(State()), State())
      ensures journal.ledger == old(journal).ledger
      ensures OnlyActor(old(refs), refs, old(journal.attempts[index].plans[k].actor))
      ensures r.Ok? ==> r.value == old(journal.attempts[index].plans[k].head)
      ensures r.Ok? ==>
        SetOf(r.value.records) <= RecordsAt(Lookup(refs, old(journal.attempts[index].plans[k].actor)))
      ensures env.faults == {} && env.writes >= |list| + 3 ==>
        var a := old(journal.attempts[index]);
        r.Ok? <==>
          && Installable(u, a.plans[k].head, a.reserved)
          && Lookup(old(refs), a.plans[k].actor) in {Some(a.plans[k].head), a.plans[k].expected}
      ensures !Installable(u, old(journal.attempts[index].plans[k].head), old(journal.attempts[index].reserved)) ==>
        journal == old(journal) && refs == old(refs)
    {
      hide Good, Evolves, RefsFollowPlans, ObjectsFor, FlagsTrue, RecordsAt, SetOf, ClosureFits, Digests, Sorted;
      ghost var w := State();
      RefsStay(w, w);
      var a := journal.attempts[index];
      var plan := a.plans[k];
      var left := WriteObjects(index, k, list, env.writes);
      ghost var written := State();
      RefsStay(w, written);
      if left.None? {
        return Refused(Stopped);
      }
      var reached := TraverseObjects(u, plan.head, a.reserved);
      if reached.None? || HistoryDepth(plan.head) + 1 > a.reserved.depth {
        return Refused(TooLarge);
      }
      if AtObjectsDurable in env.faults || left.value == 0 {
        return Refused(Stopped);
      }
      var durable := plan.(durable := true);
      DurableTrue(written, plan);
      FlagKeeps(u, policy, written, index, k, durable);
      journal := journal.(attempts := journal.attempts[index := a.(plans := a.plans[k := durable])]);
      ghost var marked := State();
      EvolvesTransitive(w, written, marked);
      r := Finish(index, k, Environment(left.value - 1, env.faults));
      EvolvesTransitive(w, marked, State());
      SameRefs(w, marked, State());
    }

    /** A later try for an actor: go on where the journaled plan stands. Recomputing the
        plan gives the journaled one, within its limits, so that no try is refused for
        different material or charge. */
    method Resume(index: nat, k: nat, expected: Option<Manifest>, env: Environment)
        returns (r: Outcome<Manifest, Code>)
      requires Valid() && index < |journal.attempts| && k < |journal.attempts[index].plans|
      modifies this`journal, this`objects, this`refs
      ensures Valid() && Evolves(old(State()), State()) && RefsFollowPlans(old(State()), State())
      ensures journal.ledger == old(journal).ledger
      ensures OnlyActor(old(refs), refs, old(journal.attempts[index].plans[k].actor))
      ensures r.Ok? ==> r.value == old(journal.attempts[index].plans[k].head)
      ensures r.Ok? ==>
        SetOf(r.value.records) <= RecordsAt(Lookup(refs, old(journal.attempts[index].plans[k].actor)))
      ensures
        var a := old(journal.attempts[index]);
        Undisturbed(u, a, a.plans[k].actor, expected, env) ==>
        (r.Ok? <==> CanResume(u, old(State()), a, a.plans[k], expected))
    {
      hide Good, Evolves, RefsFollowPlans, PlanFor, PlanFits, RecordsAt, SetOf, ObjectsFor, Installable;
      EvolvesReflexive(State());
      RefsStay(State(), State());
      var a := journal.attempts[index];
      var plan := a.plans[k];
      if plan.expected != expected {
        return Refused(ConflictingIntent);
      }
      PlanShape(u, a, plan.actor, expected);
      if plan.durable {
        r := Finish(index, k, env);
        return;
      }
      SamePlan(u, policy, State(), index, k);
      if Lookup(refs, plan.actor) != expected {
        return Refused(RefChanged);
      }
      var planned, list := PlanManifest(u, a, plan.actor, expected);
      r := Install(index, k, list, env);
    }

    /** A first try for an actor: journal the plan, then install it. */
    method Start(gitDir: nat, index: nat, actor: Actor, expected: Option<Manifest>, env: Environment)
        returns (r: Outcome<Manifest, Code>)
      requires Valid() && index < |journal.attempts| && journal.attempts[index].Settled()
      requires journal.bound.None? || journal.bound == Some(gitDir)
      requires Planless(journal.attempts[index], actor)
      modifies this`journal, this`objects, this`refs
      ensures Valid() && Evolves(old(State()), State()) && RefsFollowPlans(old(State()), State())
      ensures journal.ledger == old(journal).ledger && OnlyActor(old(refs), refs, actor)
      ensures r.Ok? ==> r.value == PlanFor(u, old(journal.attempts[index]), actor, expected).head
      ensures r.Ok? ==> SetOf(r.value.records) <= RecordsAt(Lookup(refs, actor))
      ensures
        var a := old(journal.attempts[index]);
        Undisturbed(u, a, actor, expected, env) ==> (r.Ok? <==> CanStart(u, old(State()), a, actor, expected))
      ensures
        var a := old(journal.attempts[index]);
        Undisturbed(u, a, actor, expected, env) && Overreaches(u, old(refs), a, actor, expected) ==>
        && refs == old(refs)
        && journal == WithPlan(old(journal), gitDir, index, PlanFor(u, a, actor, expected))
    {
      hide Good, Evolves, RefsFollowPlans, PlanFor, PlanFits, RoomFor, RecordsAt, SetOf, ObjectsFor, Installable,
        Passes;
      ghost var w := State();
      EvolvesReflexive(w);
      RefsStay(w, w);
      var a := journal.attempts[index];
      PlanShape(u, a, actor, expected);
      SettledPasses(u, policy, w, index);
      var verified := Inspect(u, policy.project, a.artifact, a.refs, a.reserved);
      if RecordsBy(u, a.artifact.records, actor) == [] {
        return Refused(NotSelected);
      }
      if Lookup(refs, actor) != expected {
        return Refused(RefChanged);
      }
      var plan, list := PlanManifest(u, a, actor, expected);
      if plan.None? {
        return Refused(TooLarge);
      }
      var room := HasRoom(u, a, verified.value, plan.value);
      if !room {
        return Refused(TooLarge);
      }
      if env.writes == 0 {
        return Refused(Stopped);
      }
      AddPlanKeeps(u, policy, w, index, plan.value, Some(gitDir));
      var b := a.(plans := a.plans + [plan.value]);
      journal := Journal(Some(gitDir), journal.ledger, journal.attempts[index := b]);
      ghost var planned := State();
      RefsStay(w, planned);
      if AtPlanDurable in env.faults {
        return Refused(Stopped);
      }
      r := Install(index, |a.plans|, list, Environment(env.writes - 1, env.faults));
      EvolvesTransitive(w, planned, State());
      SameRefs(w, planned, State());
    }

    /** Retain one actor's records of a settled attempt in that actor's contribution ref.
        Success means that they are retained now; an undisturbed try, first or repeated,
        succeeds exactly when it is allowed to. A settled attempt can always be inspected
        again, so the refusal for a failed inspection does not appear. */
    method RetainActor(gitDir: nat, intent: nat, actor: Actor, expected: Option<Manifest>, env: Environment)
        returns (r: Outcome<Manifest, Code>)
      requires Valid()
      modifies this`journal, this`objects, this`refs
      ensures Valid() && Evolves(old(State()), State()) && RefsFollowPlans(old(State()), State())
      ensures journal.ledger == old(journal).ledger && OnlyActor(old(refs), refs, actor)
      ensures r.Ok? ==> exists i :: RetainedFor(u, old(journal), i, intent, actor, r.value)
      ensures r.Ok? ==> SetOf(r.value.records) <= RecordsAt(Lookup(refs, actor))
      ensures forall i :: Tried(u, old(journal), i, intent, actor, expected, env) ==>
        (r.Ok? <==> CanRetain(u, old(State()), gitDir, i, actor, expected))
      ensures forall i :: Tried(u, old(journal), i, intent, actor, expected, env) ==>
        StartsInVain(u, old(State()), gitDir, i, actor, expected) ==>
        && refs == old(refs)
        && journal == WithPlan(old(journal), gitDir, i, PlanFor(u, old(journal).attempts[i], actor, expected))
    {
      hide Good, Evolves, RefsFollowPlans, RetainedFor, CanStart, CanResume, Undisturbed, RecordsAt, SetOf, PlanFor;
      ghost var w := State();
      EvolvesReflexive(w);
      RefsStay(w, w);
      if journal.bound.Some? && journal.bound != Some(gitDir) {
        return Refused(OtherDirectory);
      }
      var found := FindIntent(journal.attempts, intent);
      if found.None? {
        return Refused(Unknown);
      }
      var index := found.value;
      OnlyIntent(u, policy, w, intent, index);
      var a := journal.attempts[index];
      if a.status != Pending && a.status != Conflict {
        return Refused(NotCompleted);
      }
      var existing := FindPlan(a.plans, actor);
      if existing.Some? {
        OnlyPlan(u, policy, w, index, existing.value);
        PlanCovers(u, policy, w, index, existing.value);
        r := Resume(index, existing.value, expected, env);
      } else {
        NewPlanCovers(u, a, actor, expected, journal, index);
        r := Start(gitDir, index, actor, expected, env);
      }
    }
  }
}
