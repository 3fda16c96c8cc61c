/** Taking in contributions: searching the journal, marking signed conflicts, and the
    outcomes an attempt may be saved with. */
module Intake {
  import opened Basics
  import opened Manifests
  import opened Ledgers
  import opened Journal
  import opened JournalSteps

  datatype Fault =
    | AtReserved | AtSource | AfterConflicts | AtPublish | AtArtifactDurable
    | AtPlanDurable | AtObjectsDurable | AtRefUpdated

  datatype Environment = Environment(writes: nat, faults: set<Fault>)

  datatype Code =
    | ConflictingIntent | SignedConflict | Exhausted | Stopped | Unreadable | Unknown | NotCompleted
    | OtherDirectory | NotSelected | RefChanged | TooLarge

  // ---------------------------------------------------------------- signed conflicts

  /** Does some record of `b` clash with some record of `a`? */
  method FindCrossConflict(u: Universe, a: seq<Id>, b: seq<Id>) returns (conflict: bool)
    ensures conflict <==> CrossConflict(u, a, b)
  {
    var intents: map<(Actor, nat), set<Id>> := map[];
    for i := 0 to |a|
      invariant forall k :: 0 <= k < i ==> KeyOf(u, a[k]) in intents && a[k] in intents[KeyOf(u, a[k])]
      invariant forall key, x :: key in intents && x in intents[key] ==> x in a && KeyOf(u, x) == key
    {
      var key := KeyOf(u, a[i]);
      intents := intents[key := (if key in intents then intents[key] else {}) + {a[i]}];
    }
    for j := 0 to |b|
      invariant forall i, k :: 0 <= i < |a| && 0 <= k < j ==> !Clash(u, a[i], b[k])
    {
      var key := KeyOf(u, b[j]);
      if key in intents && exists x :: x in intents[key] && x != b[j] {
        var x :| x in intents[key] && x != b[j];
        assert x in a;
        ghost var i :| 0 <= i < |a| && a[i] == x;
        assert Clash(u, a[i], b[j]);
        return true;
      }
      forall i | 0 <= i < |a| ensures !Clash(u, a[i], b[j]) {
        assert KeyOf(u, a[i]) == key ==> a[i] in intents[key];
      }
    }
    return false;
  }

  function KeyOf(u: Universe, id: Id): (Actor, nat) {
    (u.actor(id), u.intent(id))
  }

  /** Do the records of one artifact clash among themselves? */
  method FindIntentConflict(u: Universe, records: seq<Id>) returns (conflict: bool)
    ensures conflict <==> CrossConflict(u, records, records)
  {
    var intents: map<(Actor, nat), Id> := map[];
    for i := 0 to |records|
      invariant forall k :: 0 <= k < i ==>
        KeyOf(u, records[k]) in intents && intents[KeyOf(u, records[k])] == records[k]
      invariant forall key :: key in intents ==> intents[key] in records && KeyOf(u, intents[key]) == key
    {
      var key := KeyOf(u, records[i]);
      if key in intents && intents[key] != records[i] {
        var k :| 0 <= k < |records| && records[k] == intents[key];
        assert Clash(u, records[k], records[i]);
        return true;
      }
      intents := intents[key := records[i]];
    }
    return false;
  }

  // ---------------------------------------------------------------- searches

  /** The first attempt with this intent. */
  method FindIntent(attempts: seq<Attempt>, intent: nat) returns (index: Option<nat>)
    ensures index.Some? ==> index.value < |attempts| && attempts[index.value].intent == intent
    ensures index.None? ==> forall i :: 0 <= i < |attempts| ==> attempts[i].intent != intent
  {
    for i := 0 to |attempts|
      invariant forall k :: 0 <= k < i ==> attempts[k].intent != intent
    {
      if attempts[i].intent == intent {
        return Some(i);
      }
    }
    return None;
  }

  /** A settled attempt of this very artifact and selection. */
  ghost predicate SameIntake(a: Attempt, artifact: Bundle, refs: set<nat>) {
    a.Settled() && a.artifact == artifact && a.refs == refs
  }

  method FindSettled(attempts: seq<Attempt>, artifact: Bundle, refs: set<nat>) returns (index: Option<nat>)
    ensures index.Some? ==>
      && index.value < |attempts| && SameIntake(attempts[index.value], artifact, refs)
      && forall i :: 0 <= i < index.value ==> !SameIntake(attempts[i], artifact, refs)
    ensures index.None? ==> forall i :: 0 <= i < |attempts| ==> !SameIntake(attempts[i], artifact, refs)
  {
    for i := 0 to |attempts|
      invariant forall k :: 0 <= k < i ==> !SameIntake(attempts[k], artifact, refs)
    {
      var a := attempts[i];
      if (a.status == Pending || a.status == Conflict) && a.artifact == artifact && a.refs == refs {
        return Some(i);
      }
    }
    return None;
  }

  ghost predicate FirstSettled(attempts: seq<Attempt>, artifact: Bundle, refs: set<nat>, i: int) {
    && 0 <= i < |attempts| && SameIntake(attempts[i], artifact, refs)
    && forall k :: 0 <= k < i ==> !SameIntake(attempts[k], artifact, refs)
  }

  ghost predicate DistinctIntents(attempts: seq<Attempt>) {
    forall i, j :: 0 <= i < j < |attempts| ==> attempts[i].intent != attempts[j].intent
  }

  ghost predicate KnownIntent(attempts: seq<Attempt>, intent: nat) {
    exists i :: 0 <= i < |attempts| && attempts[i].intent == intent
  }

  /** What a request that the journal answers already is told: a known intent must repeat
      its artifact and selection, and a repeated artifact and selection get the first
      settled attempt of them; an attempt in conflict is refused as such. */
  ghost predicate Answers(attempts: seq<Attempt>, intent: nat, artifact: Bundle, refs: set<nat>,
                          r: Outcome<Attempt, Code>)
  {
    if KnownIntent(attempts, intent) then
      forall i :: 0 <= i < |attempts| && attempts[i].intent == intent ==>
        var a := attempts[i];
        r == if a.artifact != artifact || a.refs != refs then Refused(ConflictingIntent)
             else if a.status == Conflict then Refused(SignedConflict) else Ok(a)
    else
      forall i :: FirstSettled(attempts, artifact, refs, i) ==>
        r == if attempts[i].status == Conflict then Refused(SignedConflict) else Ok(attempts[i])
  }

  /** Answer a request from the journal, if it can be answered so. */
  method Replay(attempts: seq<Attempt>, intent: nat, artifact: Bundle, refs: set<nat>)
      returns (r: Option<Outcome<Attempt, Code>>)
    requires DistinctIntents(attempts)
    ensures r.None? <==>
      forall i :: 0 <= i < |attempts| ==> attempts[i].intent != intent && !SameIntake(attempts[i], artifact, refs)
    ensures r.Some? ==> Answers(attempts, intent, artifact, refs, r.value)
    ensures r.Some? && r.value.Ok? ==>
      && r.value.value in attempts && r.value.value.artifact == artifact && r.value.value.refs == refs
      && r.value.value.status != Conflict
  {
    var known := FindIntent(attempts, intent);
    if known.Some? {
      var a := attempts[known.value];
      if a.artifact != artifact || a.refs != refs {
        return Some(Refused(ConflictingIntent));
      }
      return Some(if a.status == Conflict then Refused(SignedConflict) else Ok(a));
    }
    var same := FindSettled(attempts, artifact, refs);
    if same.Some? {
      var a := attempts[same.value];
      return Some(if a.status == Conflict then Refused(SignedConflict) else Ok(a));
    }
    return None;
  }

  method FindPlan(plans: seq<Plan>, actor: Actor) returns (index: Option<nat>)
    ensures index.Some? ==> index.value < |plans| && plans[index.value].actor == actor
    ensures index.None? ==> forall k :: 0 <= k < |plans| ==> plans[k].actor != actor
  {
    for k := 0 to |plans|
      invariant forall i :: 0 <= i < k ==> plans[i].actor != actor
    {
      if plans[k].actor == actor {
        return Some(k);
      }
    }
    return None;
  }

  // ---------------------------------------------------------------- marking conflicts

  /** The attempt as marking leaves it: in conflict when its durable artifact clashes. */
  ghost function MarkedFor(u: Universe, files: set<Bundle>, a: Attempt, records: seq<Id>): Attempt {
    if Opposes(u, files, a, records) then a.(status := Conflict) else a
  }

  ghost predicate AllMarked(u: Universe, files: set<Bundle>, before: seq<Attempt>, after: seq<Attempt>, index: nat,
                            records: seq<Id>, n: nat)
    requires n <= |before| == |after|
  {
    forall i :: 0 <= i < |before| && i != index ==>
      after[i] == if i < n then MarkedFor(u, files, before[i], records) else before[i]
  }

  /** Every other attempt with a durable artifact can be inspected. */
  ghost predicate OthersInspectable(u: Universe, p: Policy, files: set<Bundle>, attempts: seq<Attempt>, index: nat) {
    forall i :: 0 <= i < |attempts| && i != index && attempts[i].artifact in files ==>
      Inspectable(u, p, files, attempts[i])
  }

  ghost predicate Opposed(u: Universe, files: set<Bundle>, attempts: seq<Attempt>, index: nat, records: seq<Id>) {
    CrossConflict(u, records, records) || !Unopposed(u, files, attempts, index, records)
  }

  /** Mark every attempt whose durable artifact clashes with `records`; tell whether the
      attempt at `index` is in conflict itself. An artifact that cannot be inspected ends
      the pass, and the marks made so far stay. */
  method MarkConflicts(u: Universe, p: Policy, files: set<Bundle>, attempts: seq<Attempt>, index: nat, records: seq<Id>)
      returns (ok: bool, conflicted: bool, marked: seq<Attempt>)
    requires index < |attempts|
    ensures |marked| == |attempts| && Marked(u, p, files, attempts, marked, index)
    ensures ok <==> OthersInspectable(u, p, files, attempts, index)
    ensures ok ==> AllMarked(u, files, attempts, marked, index, records, |attempts|)
    ensures ok ==> (conflicted <==> attempts[index].status == Conflict || Opposed(u, files, attempts, index, records))
  {
    hide CrossConflict, Inspect, Passes;
    marked := attempts;
    conflicted := FindIntentConflict(u, records);
    ghost var own := conflicted;
    conflicted := conflicted || attempts[index].status == Conflict;
    ghost var first := conflicted;
    for i := 0 to |attempts|
      invariant |marked| == |attempts| && Marked(u, p, files, attempts, marked, index)
      invariant AllMarked(u, files, attempts, marked, index, records, i)
      invariant forall k :: 0 <= k < i && k != index && attempts[k].artifact in files ==>
        Inspectable(u, p, files, attempts[k])
      invariant conflicted <==>
        first || exists k :: 0 <= k < i && k != index && Opposes(u, files, attempts[k], records)
    {
      if i != index && attempts[i].artifact in files {
        if Inspect(u, p.project, attempts[i].artifact, attempts[i].refs, attempts[i].reserved).None? {
          assert !Inspectable(u, p, files, attempts[i]);
          return false, conflicted, marked;
        }
        var conflict := FindCrossConflict(u, attempts[i].artifact.records, records);
        if conflict {
          conflicted := true;
          marked := marked[i := marked[i].(status := Conflict)];
        }
      }
    }
    ok := true;
  }

  // ---------------------------------------------------------------- receiving

  /** The attempt as a clean read of its artifact settles it. */
  ghost predicate SettledBy(u: Universe, p: Policy, files: set<Bundle>, attempts: seq<Attempt>, index: nat, a: Attempt)
    requires index < |attempts|
  {
    var before := attempts[index];
    && Passes(u, p.project, before.artifact, before.refs, before.reserved)
    && Amounts(u, before.artifact, a.measured)
    && a == before.(
         status := (if before.status == Conflict || Opposed(u, files, attempts, index, before.artifact.records)
                    then Conflict else Pending),
         measured := a.measured)
  }

  lemma MarkedWiden(u: Universe, p: Policy, files: set<Bundle>, more: set<Bundle>, before: seq<Attempt>,
                    after: seq<Attempt>, index: nat)
    requires Marked(u, p, files, before, after, index) && files <= more
    ensures Marked(u, p, more, before, after, index)
  {
  }

  /** No attempt is in the way of a new intake of this artifact. */
  ghost predicate Unseen(j: Journal, intent: nat, artifact: Bundle, refs: set<nat>) {
    forall i :: 0 <= i < |j.attempts| ==> j.attempts[i].intent != intent && !SameIntake(j.attempts[i], artifact, refs)
  }

  lemma IntentsDistinct(u: Universe, p: Policy, w: World)
    requires Good(u, p, w)
    ensures DistinctIntents(w.journal.attempts)
  {
    hide Afforded, PairOk, PlansOk, Planned, ReservationOk;
    forall i | 0 <= i < |w.journal.attempts|
      ensures w.journal.attempts[i].intent == w.journal.ledger.reservations[i].intent
    {
      assert AttemptOk(u, p, w, w.journal.attempts[i], w.journal.ledger.reservations[i]);
    }
  }

  lemma UnseenIsUnreserved(u: Universe, p: Policy, w: World, intent: nat)
    requires Good(u, p, w) && forall i :: 0 <= i < |w.journal.attempts| ==> w.journal.attempts[i].intent != intent
    ensures !Reserves(w.journal.ledger, intent)
  {
  }

  /** The outcome of an attempt may be saved together with the marks it made. */
  ghost predicate Savable(u: Universe, p: Policy, w: World, index: nat, result: Attempt, marked: seq<Attempt>)
    requires index < |w.journal.attempts| == |w.journal.ledger.reservations|
  {
    && AttemptOk(u, p, w, result, w.journal.ledger.reservations[index])
    && AttemptEvolves(w.journal.attempts[index], result)
    && Marked(u, p, w.files, w.journal.attempts, marked, index)
    && (result.status == Pending ==> Unopposed(u, w.files, w.journal.attempts, index, result.artifact.records))
  }

  /** The attempt's own artifact and every other durable one can be inspected. */
  ghost predicate CleanRead(u: Universe, p: Policy, files: set<Bundle>, attempts: seq<Attempt>, index: nat)
    requires index < |attempts|
  {
    && OthersInspectable(u, p, files, attempts, index)
    && var a := attempts[index]; Passes(u, p.project, a.artifact, a.refs, a.reserved)
  }

  /** What an undisturbed pass computes. */
  ghost predicate CleanResult(u: Universe, p: Policy, files: set<Bundle>, attempts: seq<Attempt>, index: nat,
                              result: Attempt, marked: seq<Attempt>)
    requires index < |attempts|
  {
    && SettledBy(u, p, files, attempts, index, result)
    && |marked| == |attempts|
    && AllMarked(u, files, attempts, marked, index, result.artifact.records, |attempts|)
  }

  lemma UnsettledSavable(u: Universe, p: Policy, w: World, index: nat, status: Status, measured: Cost,
                         marked: seq<Attempt>)
    requires Good(u, p, w) && index < |w.journal.attempts| && !w.journal.attempts[index].Settled()
    requires status == Failed || status == Uncertain
    requires Fits(measured, w.journal.attempts[index].reserved)
    requires measured == Cost(measured.wire, 0, 0, 0, 0) || Amounts(u, w.journal.attempts[index].artifact, measured)
    requires Marked(u, p, w.files, w.journal.attempts, marked, index)
    ensures Savable(u, p, w, index, w.journal.attempts[index].(status := status, measured := measured), marked)
  {
  }

  /** A settled outcome, after its artifact has become durable. */
  lemma SettledSavable(u: Universe, p: Policy, w: World, files: set<Bundle>, index: nat, result: Attempt,
                       marked: seq<Attempt>)
    requires Good(u, p, w) && index < |w.journal.attempts|
    requires var a := w.journal.attempts[index].artifact; a in w.files && files <= w.files <= files + {a}
    requires SettledBy(u, p, files, w.journal.attempts, index, result)
    requires Marked(u, p, files, w.journal.attempts, marked, index)
    ensures Savable(u, p, w, index, result, marked)
  {
    hide Planned, PairOk, LedgerOk, Afforded, PlansOk, CrossConflict, Passes, Marked, PlanEvolves;
    var before := w.journal.attempts[index];
    assert AttemptOk(u, p, w, before, w.journal.ledger.reservations[index]);
    MarkedWiden(u, p, files, w.files, w.journal.attempts, marked, index);
    PlansStay(u, w, before, result);
    AmountsFit(u, p.project, before.artifact, before.refs, before.reserved, result.measured);
  }

  /** Status and measurements do not matter to plans. */
  lemma PlansStay(u: Universe, w: World, a: Attempt, b: Attempt)
    requires PlansOk(u, a, w) && b == a.(status := b.status, measured := b.measured)
    ensures PlansOk(u, b, w)
    ensures forall k :: 0 <= k < |a.plans| ==> PlanEvolves(a.plans[k], b.plans[k])
  {
    hide FlagsTrue, ObjectsFor, Charge, HeadFor, RecordsBy, PlanFits, Installable;
    forall k | 0 <= k < |a.plans| ensures PlanOk(u, b, b.plans[k]) {
      assert PlanOk(u, a, a.plans[k]);
    }
  }

  lemma AmountsFit(u: Universe, project: nat, b: Bundle, refs: set<nat>, limits: Cost, measured: Cost)
    requires Passes(u, project, b, refs, limits) && Amounts(u, b, measured)
    ensures Fits(measured, limits)
  {
  }

  /** Saving a savable outcome. */
  lemma SaveKeeps(u: Universe, p: Policy, w: World, index: nat, result: Attempt, marked: seq<Attempt>)
    requires Good(u, p, w) && index < |w.journal.attempts|
    requires Savable(u, p, w, index, result, marked)
    ensures |marked| == |w.journal.attempts|
    ensures var v := w.(journal := w.journal.(attempts := marked[index := result]));
      Good(u, p, v) && Evolves(w, v)
  {
    hide Good, AttemptOk, AttemptEvolves, Unopposed, Evolves;
    Aligned(u, p, w);
    assert AttemptEvolves(w.journal.attempts[index], result);
    SameArtifact(w.journal.attempts[index], result);
    SettleKeeps(u, p, w, marked, index, result);
  }

  lemma SameArtifact(a: Attempt, b: Attempt)
    requires AttemptEvolves(a, b)
    ensures b.artifact == a.artifact
  {
  }

  lemma Aligned(u: Universe, p: Policy, w: World)
    requires Good(u, p, w)
    ensures |w.journal.attempts| == |w.journal.ledger.reservations|
  {
  }

  /** Read the source of an attempt within its reservation. */
  method Read(u: Universe, p: Policy, a: Attempt, source: Option<Bundle>, faults: set<Fault>)
      returns (reading: Option<Cost>, measured: Cost)
    requires a.measured == Cost(0, 0, 0, 0, 0)
    ensures Fits(measured, a.reserved)
    ensures if reading.Some? then measured == reading.value else measured == Cost(measured.wire, 0, 0, 0, 0)
    ensures reading.Some? ==> source == Some(a.artifact) && Passes(u, p.project, a.artifact, a.refs, a.reserved)
    ensures reading.Some? ==> Amounts(u, a.artifact, reading.value)
    ensures faults == {} && source == Some(a.artifact) && Passes(u, p.project, a.artifact, a.refs, a.reserved) ==>
      reading.Some?
  {
    measured := a.measured;
    if AtSource in faults || source.None? || source.value.wire > a.reserved.wire {
      return None, measured;
    }
    measured := measured.(wire := source.value.wire);
    if source.value != a.artifact {
      return None, measured;
    }
    reading := Inspect(u, p.project, a.artifact, a.refs, a.reserved);
    if reading.Some? {
      measured := reading.value;
    }
  }

  // ---------------------------------------------------------------- new attempts

  function NewAttempt(intent: nat, artifact: Bundle, refs: set<nat>, limits: Cost): Attempt {
    Attempt(intent, artifact, refs, Reserved, limits, Cost(0, 0, 0, 0, 0), [])
  }

  function Started(j: Journal, p: Policy, intent: nat, artifact: Bundle, refs: set<nat>): seq<Attempt> {
    j.attempts + [NewAttempt(intent, artifact, refs, p.limits)]
  }

  /** Exactly one reservation was appended, for this intent and artifact. */
  ghost predicate Charged(before: Ledger, after: Ledger, intent: nat, artifact: Bundle) {
    var n := |before.reservations|;
    && |after.reservations| == n + 1 && before.reservations <= after.reservations
    && after.reservations[n].intent == intent && after.reservations[n].artifact == artifact
  }

  /** An undisturbed new intake: it settles exactly when the source holds the artifact and
      it and every other durable artifact can be inspected as journaled, with exact
      outcome, measurements and marks; otherwise it fails and makes nothing durable. */
  ghost predicate Received(u: Universe, p: Policy, w: World, v: World, intent: nat, artifact: Bundle, refs: set<nat>,
                           sourced: bool)
  {
    var start, index := Started(w.journal, p, intent, artifact, refs), |w.journal.attempts|;
    && |v.journal.attempts| == index + 1
    && var result := v.journal.attempts[index];
       && result == start[index].(status := result.status, measured := result.measured)
       && if sourced && CleanRead(u, p, w.files, start, index)
       then artifact in v.files && CleanResult(u, p, w.files, start, index, result, v.journal.attempts)
       else result.status == Failed && v.files == w.files
  }

  lemma Appended(j: Journal, p: Policy, intent: nat, artifact: Bundle, refs: set<nat>, l: Ledger)
    requires Reserve(j.ledger, p, intent, artifact, p.limits) == Some(l) && !Reserves(j.ledger, intent)
    ensures var start := Started(j, p, intent, artifact, refs);
      && |start| == |j.attempts| + 1 && start[|j.attempts|] == NewAttempt(intent, artifact, refs, p.limits)
      && start[|j.attempts|].status == Reserved && start[|j.attempts|].artifact == artifact
      && start[|j.attempts|].refs == refs
      && Charged(j.ledger, l, intent, artifact)
  {
  }

  // ---------------------------------------------------------------- recovering

  /** The attempt has this intent, its artifact is durable, and everything reads cleanly. */
  ghost predicate Recoverable(w: World, u: Universe, p: Policy, intent: nat, index: int) {
    && 0 <= index < |w.journal.attempts| && w.journal.attempts[index].intent == intent
    && w.journal.attempts[index].artifact in w.files && CleanRead(u, p, w.files, w.journal.attempts, index)
  }

  lemma OnlyRecoverable(u: Universe, p: Policy, w: World, intent: nat, index: nat)
    requires Good(u, p, w) && index < |w.journal.attempts| && w.journal.attempts[index].intent == intent
    ensures forall i :: Recoverable(w, u, p, intent, i) ==> i == index
  {
  }

  lemma CleanIs(u: Universe, p: Policy, files: set<Bundle>, attempts: seq<Attempt>, index: nat, result: Attempt,
                marked: seq<Attempt>)
    requires index < |attempts| == |marked| && SettledBy(u, p, files, attempts, index, result)
    requires AllMarked(u, files, attempts, marked, index, attempts[index].artifact.records, |attempts|)
    ensures CleanResult(u, p, files, attempts, index, result, marked)
  {
  }

  lemma CleanSaved(u: Universe, p: Policy, files: set<Bundle>, attempts: seq<Attempt>, index: nat,
                   result: Attempt, marked: seq<Attempt>)
    requires index < |attempts| && CleanResult(u, p, files, attempts, index, result, marked)
    ensures CleanResult(u, p, files, attempts, index, result, marked[index := result])
  {
  }

  lemma NothingMarked(u: Universe, p: Policy, files: set<Bundle>, attempts: seq<Attempt>, index: nat)
    ensures Marked(u, p, files, attempts, attempts, index)
  {
  }
}
