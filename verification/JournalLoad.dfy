/** Reading the intake journal back: the checks made before any operation uses it. */
module JournalLoad {
  import opened Basics
  import opened Manifests
  import opened Ledgers
  import opened Journal

  method CheckMeasured(measured: Cost, reserved: Cost) returns (ok: bool)
    ensures ok <==> measured.wire <= reserved.wire && measured.decoded <= reserved.decoded
                    && measured.objects <= reserved.objects && measured.events <= reserved.events
  {
    if measured.wire > reserved.wire || measured.decoded > reserved.decoded {
      return false;
    }
    ok := !(measured.objects > reserved.objects || measured.events > reserved.events);
  }

  method CheckPlan(j: Journal, a: Attempt, plan: Plan) returns (ok: bool)
    ensures ok <==> LoadablePlan(j, a, plan)
  {
    if plan.material == [] || plan.objects > a.reserved.objects || plan.bytes > a.reserved.decoded {
      return false;
    }
    if plan.complete && !plan.durable {
      return false;
    }
    ok := !(j.bound == None || (a.status != Pending && a.status != Conflict));
  }

  /** One pass over the plans of an attempt: no actor twice, each plan sound, their sums. */
  method CheckPlans(j: Journal, a: Attempt) returns (ok: bool)
    ensures ok <==>
      && DistinctActors(a.plans) && (forall k :: 0 <= k < |a.plans| ==> LoadablePlan(j, a, a.plans[k]))
      && PlannedObjects(a.plans) <= a.reserved.objects && PlannedBytes(a.plans) <= a.reserved.decoded
      && |a.plans| * 3 <= a.reserved.objects
  {
    hide LoadablePlan;
    var seen: set<Actor> := {};
    var objects, bytes := 0, 0;
    for k := 0 to |a.plans|
      invariant forall x :: x in seen <==> exists i :: 0 <= i < k && a.plans[i].actor == x
      invariant forall i, m :: 0 <= i < m < k ==> a.plans[i].actor != a.plans[m].actor
      invariant forall i :: 0 <= i < k ==> LoadablePlan(j, a, a.plans[i])
      invariant objects == PlannedObjects(a.plans[..k]) && bytes == PlannedBytes(a.plans[..k])
    {
      var plan := a.plans[k];
      var fine := CheckPlan(j, a, plan);
      if plan.actor in seen || !fine {
        return false;
      }
      assert a.plans[..k + 1][..k] == a.plans[..k];
      seen, objects, bytes := seen + {plan.actor}, objects + plan.objects, bytes + plan.bytes;
    }
    assert a.plans[..|a.plans|] == a.plans;
    if objects > a.reserved.objects || bytes > a.reserved.decoded {
      return false;
    }
    ok := |a.plans| * 3 <= a.reserved.objects;
  }

  method CheckAttempt(j: Journal, a: Attempt, r: Reservation) returns (ok: bool)
    ensures ok <==> LoadableAttempt(j, a, r)
  {
    hide LoadablePlan, DistinctActors, PlannedObjects, PlannedBytes;
    if a.intent != r.intent || a.artifact != r.artifact || a.reserved != r.cost {
      return false;
    }
    var measured := CheckMeasured(a.measured, a.reserved);
    var planned := CheckPlans(j, a);
    ok := measured && planned;
  }

  /** Read the journal back. */
  method LoadJournal(p: Policy, j: Journal) returns (ok: bool)
    ensures ok <==> Loadable(p, j)
  {
    hide Reserve, LoadableAttempt;
    var rs := j.ledger.reservations;
    if |j.attempts| != |rs| || |j.attempts| > MAX_RECORDS {
      return false;
    }
    if |j.attempts| > 0 {
      var replayed := TryReserve(j.ledger, p, rs[0].intent, rs[0].artifact, rs[0].cost);
      if replayed != Some(j.ledger) {
        return false;
      }
    } else if j.ledger.windowUsed != NOTHING || j.ledger.retainedUsed != NOTHING || |j.ledger.prior| != 0 {
      return false;
    }
    for i := 0 to |j.attempts|
      invariant forall k :: 0 <= k < i ==> LoadableAttempt(j, j.attempts[k], rs[k])
    {
      var fine := CheckAttempt(j, j.attempts[i], rs[i]);
      if !fine {
        return false;
      }
    }
    return true;
  }
}
