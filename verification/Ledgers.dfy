/** The project ledger of the contribution exchange: what each request reserves, the
    budgets of a window and of retention, and rolling a window over. */
module Ledgers {
  import opened Basics
  import opened Manifests

  // ---------------------------------------------------------------- data

  datatype Usage = Usage(bytes: nat, objects: nat, events: nat, requests: nat)

  datatype Policy = Policy(project: nat, limits: Cost, window: Usage, retained: Usage)

  /** The bytes of one artifact, standing for their own digest. `bytes`, `native` and
      `events` measure the manifest plus bundle, the native objects and the native
      events; `sound` says that signatures, closure and content agree. */
  datatype Bundle = Bundle(
    project: nat, refs: set<nat>, records: seq<Id>,
    wire: nat, bytes: nat, native: nat, events: nat, depth: nat, sound: bool)

  datatype Reservation = Reservation(intent: nat, artifact: Bundle, cost: Cost, window: nat)

  datatype Ledger = Ledger(
    window: nat, prior: seq<nat>, windowUsed: Usage, retainedUsed: Usage, reservations: seq<Reservation>)

  const MAX_RECORDS: nat := 16384

  const ENTRY_BYTES: nat := 4096

  const NOTHING := Usage(0, 0, 0, 0)

  // ---------------------------------------------------------------- costs and sums

  predicate Positive(c: Cost) {
    c.wire > 0 && c.decoded > 0 && c.objects > 0 && c.events > 0 && c.depth > 0
  }

  predicate Fits(c: Cost, max: Cost) {
    c.wire <= max.wire && c.decoded <= max.decoded && c.objects <= max.objects
    && c.events <= max.events && c.depth <= max.depth
  }

  predicate Affords(u: Usage, max: Usage) {
    u.bytes <= max.bytes && u.objects <= max.objects && u.events <= max.events && u.requests <= max.requests
  }

  function Plus(u: Usage, c: Cost): Usage {
    Usage(u.bytes + c.wire + c.decoded + ENTRY_BYTES, u.objects + c.objects, u.events + c.events, u.requests + 1)
  }

  /** What the reservations of one window, or of all, add up to. */
  function Used(rs: seq<Reservation>, window: Option<nat>): Usage {
    if rs == [] then NOTHING
    else
      var last, before := rs[|rs| - 1], Used(rs[..|rs| - 1], window);
      if window.Some? && last.window != window.value then before else Plus(before, last.cost)
  }

  lemma UsedNext(rs: seq<Reservation>, r: Reservation, window: Option<nat>)
    ensures Used(rs + [r], window) ==
      if window.Some? && r.window != window.value then Used(rs, window) else Plus(Used(rs, window), r.cost)
  {
    assert (rs + [r])[..|rs|] == rs;
  }

  lemma {:induction false} UnusedWindow(rs: seq<Reservation>, window: nat)
    requires forall i :: 0 <= i < |rs| ==> rs[i].window != window
    ensures Used(rs, Some(window)) == NOTHING
  {
    if rs != [] {
      UnusedWindow(rs[..|rs| - 1], window);
    }
  }

  // ---------------------------------------------------------------- consistency

  predicate HasWindow(rs: seq<Reservation>, window: nat) {
    exists i :: 0 <= i < |rs| && rs[i].window == window
  }

  ghost predicate Distinct(l: Ledger) {
    && l.window !in l.prior
    && (forall i, j :: 0 <= i < j < |l.prior| ==> l.prior[i] != l.prior[j])
    && (forall i, j :: 0 <= i < j < |l.reservations| ==> l.reservations[i].intent != l.reservations[j].intent)
  }

  ghost predicate ReservationOk(l: Ledger, r: Reservation) {
    Positive(r.cost) && (r.window == l.window || r.window in l.prior)
  }

  /** The counters are the sums, windows and intents are distinct, and every reservation
      belongs to a known window. */
  ghost predicate LedgerOk(l: Ledger) {
    && |l.reservations| <= MAX_RECORDS && |l.prior| <= |l.reservations| && Distinct(l)
    && (forall i :: 0 <= i < |l.reservations| ==> ReservationOk(l, l.reservations[i]))
    && l.retainedUsed == Used(l.reservations, None)
    && l.windowUsed == Used(l.reservations, Some(l.window))
  }

  /** Detect counters that were truncated or reset. */
  method ValidateLedger(l: Ledger) returns (ok: bool)
    ensures ok <==> LedgerOk(l)
  {
    hide Used, ReservationOk;
    var rs := l.reservations;
    if |rs| > MAX_RECORDS || |l.prior| > |rs| {
      return false;
    }
    var distinct := CheckWindows(l);
    if !distinct {
      return false;
    }
    var intents: set<nat> := {};
    var retained, window := NOTHING, NOTHING;
    assert rs[..0] == [];
    NothingUsed(l.window);
    for k := 0 to |rs|
      invariant forall i :: 0 <= i < k ==> ReservationOk(l, rs[i])
      invariant forall i :: 0 <= i < k ==> rs[i].intent in intents
      invariant forall x :: x in intents ==> exists i :: 0 <= i < k && rs[i].intent == x
      invariant forall i, j :: 0 <= i < j < k ==> rs[i].intent != rs[j].intent
      invariant retained == Used(rs[..k], None) && window == Used(rs[..k], Some(l.window))
    {
      var r := rs[k];
      var known := CheckReservation(l, r);
      if !known || r.intent in intents {
        return false;
      }
      intents := intents + {r.intent};
      assert rs[..k + 1] == rs[..k] + [r];
      UsedNext(rs[..k], r, None);
      UsedNext(rs[..k], r, Some(l.window));
      retained := AddCost(retained, r.cost);
      if r.window == l.window {
        window := AddCost(window, r.cost);
      }
    }
    assert rs[..|rs|] == rs;
    return retained == l.retainedUsed && window == l.windowUsed;
  }

  lemma NothingUsed(window: nat)
    ensures Used([], None) == NOTHING && Used([], Some(window)) == NOTHING
  {
  }

  method AddCost(u: Usage, c: Cost) returns (sum: Usage)
    ensures sum == Plus(u, c)
  {
    sum := Usage(u.bytes + (c.wire + c.decoded + 4096), u.objects + c.objects, u.events + c.events, u.requests + 1);
  }

  method CheckWindows(l: Ledger) returns (ok: bool)
    ensures ok <==> l.window !in l.prior && forall i, j :: 0 <= i < j < |l.prior| ==> l.prior[i] != l.prior[j]
  {
    var windows := {l.window};
    for k := 0 to |l.prior|
      invariant forall x :: x in windows <==> x == l.window || x in l.prior[..k]
      invariant l.window !in l.prior[..k] && forall i, j :: 0 <= i < j < k ==> l.prior[i] != l.prior[j]
    {
      if l.prior[k] in windows {
        assert l.prior[k] != l.window ==> exists i :: 0 <= i < k && l.prior[i] == l.prior[k];
        return false;
      }
      windows := windows + {l.prior[k]};
    }
    return true;
  }

  method CheckReservation(l: Ledger, r: Reservation) returns (ok: bool)
    ensures ok <==> ReservationOk(l, r)
  {
    var c := r.cost;
    if c.wire == 0 || c.decoded == 0 || c.objects == 0 || c.events == 0 || c.depth == 0 {
      return false;
    }
    ok := r.window == l.window || r.window in l.prior;
  }

  // ---------------------------------------------------------------- reserving

  ghost predicate Reserves(l: Ledger, intent: nat) {
    exists i :: 0 <= i < |l.reservations| && l.reservations[i].intent == intent
  }

  /** Replay an identical reservation, or charge and append one. */
  ghost function Reserve(l: Ledger, p: Policy, intent: nat, artifact: Bundle, cost: Cost): Option<Ledger> {
    if !LedgerOk(l) then None
    else if Reserves(l, intent) then
      if exists i :: 0 <= i < |l.reservations|
          && l.reservations[i] == Reservation(intent, artifact, cost, l.reservations[i].window)
      then Some(l) else None
    else if !Positive(cost) || !Fits(cost, p.limits) then None
    else
      var window, retained := Plus(l.windowUsed, cost), Plus(l.retainedUsed, cost);
      if !Affords(window, p.window) || !Affords(retained, p.retained) || |l.reservations| >= MAX_RECORDS then None
      else
        var r := Reservation(intent, artifact, cost, l.window);
        Some(l.(windowUsed := window, retainedUsed := retained, reservations := l.reservations + [r]))
  }

  method TryReserve(l: Ledger, p: Policy, intent: nat, artifact: Bundle, cost: Cost) returns (next: Option<Ledger>)
    ensures next == Reserve(l, p, intent, artifact, cost)
  {
    hide LedgerOk, Plus;
    var ok := ValidateLedger(l);
    if !ok {
      return None;
    }
    for k := 0 to |l.reservations|
      invariant forall i :: 0 <= i < k ==> l.reservations[i].intent != intent
    {
      var r := l.reservations[k];
      if r.intent == intent {
        OnlyReservation(l, k);
        if r.artifact != artifact || r.cost != cost {
          return None;
        }
        assert r == Reservation(intent, artifact, cost, r.window);
        return Some(l);
      }
    }
    if cost.wire == 0 || cost.decoded == 0 || cost.objects == 0 || cost.events == 0 || cost.depth == 0 {
      return None;
    }
    if cost.wire > p.limits.wire || cost.decoded > p.limits.decoded || cost.objects > p.limits.objects
       || cost.events > p.limits.events || cost.depth > p.limits.depth
    {
      return None;
    }
    var window := AddCost(l.windowUsed, cost);
    var retained := AddCost(l.retainedUsed, cost);
    if !Affords(window, p.window) || !Affords(retained, p.retained) || |l.reservations| >= MAX_RECORDS {
      return None;
    }
    next := Some(Ledger(l.window, l.prior, window, retained,
                        l.reservations + [Reservation(intent, artifact, cost, l.window)]));
  }

  lemma OnlyReservation(l: Ledger, k: nat)
    requires LedgerOk(l) && k < |l.reservations|
    ensures forall i :: 0 <= i < |l.reservations| && l.reservations[i].intent == l.reservations[k].intent ==> i == k
  {
  }

  // ---------------------------------------------------------------- budgets

  /** The reservations are within the budgets of the policy: all of them within what may be
      retained, and those of any one window, past or open, within what a window allows. Each
      is within the limits of a request, and no past window is empty. */
  ghost predicate Afforded(p: Policy, l: Ledger) {
    && Affords(Used(l.reservations, None), p.retained)
    && (forall window: nat :: Affords(Used(l.reservations, Some(window)), p.window))
    && (forall i :: 0 <= i < |l.reservations| ==> Fits(l.reservations[i].cost, p.limits))
    && forall k :: 0 <= k < |l.prior| ==> HasWindow(l.reservations, l.prior[k])
  }

  /** A new reservation keeps the ledger consistent and carries what was asked for. */
  lemma ReserveAppends(l: Ledger, p: Policy, intent: nat, artifact: Bundle, cost: Cost)
    requires Reserve(l, p, intent, artifact, cost).Some? && !Reserves(l, intent)
    ensures var next := Reserve(l, p, intent, artifact, cost).value;
      && LedgerOk(next) && next.window == l.window && next.prior == l.prior
      && next.reservations == l.reservations + [Reservation(intent, artifact, cost, l.window)]
  {
    var r := Reservation(intent, artifact, cost, l.window);
    UsedNext(l.reservations, r, None);
    UsedNext(l.reservations, r, Some(l.window));
  }

  /** A reservation stays within every budget. */
  lemma ReserveAfforded(l: Ledger, p: Policy, intent: nat, artifact: Bundle, cost: Cost)
    requires Reserve(l, p, intent, artifact, cost).Some? && !Reserves(l, intent) && Afforded(p, l)
    ensures Afforded(p, Reserve(l, p, intent, artifact, cost).value)
  {
    hide Used, Reserves;
    var r := Reservation(intent, artifact, cost, l.window);
    var next := Reserve(l, p, intent, artifact, cost).value;
    UsedNext(l.reservations, r, None);
    forall window: nat ensures Affords(Used(next.reservations, Some(window)), p.window) {
      UsedNext(l.reservations, r, Some(window));
    }
    forall k | 0 <= k < |l.prior| ensures HasWindow(next.reservations, l.prior[k]) {
      var i :| 0 <= i < |l.reservations| && l.reservations[i].window == l.prior[k];
      assert next.reservations[i].window == l.prior[k];
    }
  }

  // ---------------------------------------------------------------- rolling over

  /** A maintainer may close the window that is open, once something is charged to it, and
      open one never used before. */
  ghost predicate MayRoll(l: Ledger, expected: nat, next: nat, authorized: bool) {
    && authorized && l.window == expected && next != expected && next !in l.prior && LedgerOk(l)
    && HasWindow(l.reservations, l.window) && |l.prior| < MAX_RECORDS
  }

  ghost function Rolled(l: Ledger, next: nat): Ledger {
    l.(window := next, prior := l.prior + [l.window], windowUsed := NOTHING)
  }

  method RollLedger(l: Ledger, expected: nat, next: nat, authorized: bool) returns (r: Option<Ledger>)
    ensures r.Some? <==> MayRoll(l, expected, next, authorized)
    ensures r.Some? ==> r.value == Rolled(l, next)
  {
    hide LedgerOk;
    var ok := ValidateLedger(l);
    if !authorized || l.window != expected || next == expected || next in l.prior || !ok {
      return None;
    }
    var charged := false;
    for k := 0 to |l.reservations|
      invariant !charged && forall i :: 0 <= i < k ==> l.reservations[i].window != l.window
    {
      if l.reservations[k].window == l.window {
        charged := true;
        break;
      }
    }
    if !charged || |l.prior| >= MAX_RECORDS {
      return None;
    }
    r := Some(Ledger(next, l.prior + [l.window], NOTHING, l.retainedUsed, l.reservations));
  }

  /** Distinct windows that all have a reservation are no more than the reservations. */
  lemma {:induction false} FewWindows(rs: seq<Reservation>, windows: seq<nat>)
    requires forall i, j :: 0 <= i < j < |windows| ==> windows[i] != windows[j]
    requires forall k :: 0 <= k < |windows| ==> HasWindow(rs, windows[k])
    ensures |windows| <= |rs|
  {
    var used := set i | 0 <= i < |rs| :: rs[i].window;
    forall k | 0 <= k < |windows| ensures windows[k] in used {
      assert HasWindow(rs, windows[k]);
    }
    WindowsOf(rs, used);
    DistinctWithin(windows, used);
  }

  lemma {:induction false} WindowsOf(rs: seq<Reservation>, used: set<nat>)
    requires used == set i | 0 <= i < |rs| :: rs[i].window
    ensures |used| <= |rs|
  {
    if rs != [] {
      var n := |rs| - 1;
      var before := set i | 0 <= i < n :: rs[..n][i].window;
      WindowsOf(rs[..n], before);
      assert used == before + {rs[n].window};
    } else {
      assert used == {};
    }
  }

  lemma {:induction false} DistinctWithin(windows: seq<nat>, used: set<nat>)
    requires forall i, j :: 0 <= i < j < |windows| ==> windows[i] != windows[j]
    requires forall k :: 0 <= k < |windows| ==> windows[k] in used
    ensures |windows| <= |used|
  {
    if windows != [] {
      var n := |windows| - 1;
      DistinctWithin(windows[..n], used - {windows[n]});
    }
  }

  /** Rolling over keeps the ledger consistent and within every budget: retention is not
      reset, and the new window begins empty. */
  lemma RollKeeps(p: Policy, l: Ledger, expected: nat, next: nat, authorized: bool)
    requires MayRoll(l, expected, next, authorized) && Afforded(p, l)
    ensures LedgerOk(Rolled(l, next)) && Afforded(p, Rolled(l, next))
  {
    hide Used, Affords, HasWindow;
    var r := Rolled(l, next);
    UnusedWindow(l.reservations, next);
    assert forall k :: 0 <= k < |r.prior| ==> HasWindow(r.reservations, r.prior[k]);
    FewWindows(r.reservations, r.prior);
  }
}
