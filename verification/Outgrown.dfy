/** Retention that can never finish: a plan that fits the limits while the history it
    leads to does not. */
module Outgrown {
  import opened Basics
  import D = Depth
  import opened Manifests
  import opened Ledgers
  import opened Journal
  import opened JournalSteps
  import opened Intake
  import opened Retention
  import opened Exchange
  import opened IntakeRuns

  /** Take in an artifact and retain one actor's records of it, where the history the plan
      leads to outgrows the limits. The try is refused with the ref unmoved, its plan stays
      in the journal, and no later try for this actor succeeds, whatever else happens. */
  method RetainInVain(u: Universe, policy: Policy, window: nat, refs: map<Actor, Manifest>, b: Bundle,
                      gitDir: nat, actor: Actor, expected: Option<Manifest>)
      returns (journal: Journal, files: set<Bundle>, objects: set<GitObject>)
    requires AffordsTwo(policy) && Passes(u, policy.project, b, b.refs, policy.limits)
    requires Overreaches(u, refs, NewAttempt(1, b, b.refs, policy.limits), actor, expected)
    ensures Good(u, policy, World(journal, files, objects, refs)) && |journal.attempts| == 1
    ensures journal.attempts[0].plans == [PlanFor(u, NewAttempt(1, b, b.refs, policy.limits), actor, expected)]
    ensures forall v: World, dir: nat, again: Option<Manifest> ::
      Good(u, policy, v) && Evolves(World(journal, files, objects, refs), v) ==>
        !CanRetain(u, v, dir, 0, actor, again)
  {
    hide Good, Evolves, Reserve, Received, CleanRead, Passes, AffordsTwo, Overreaches, PlanFor, CanRetain;
    var x := new ContributionExchange(u, policy, window, refs);
    ghost var before := x.State();
    TwoReserved(policy, window, b, b);
    var taken, charged := x.Receive(1, b, b.refs, Some(b), Environment(3, {}));
    FirstSettles(u, policy, before, x.State(), b);
    var a := x.journal.attempts[0];
    OverreachesStill(u, refs, NewAttempt(1, b, b.refs, policy.limits), a, actor, expected);
    var writes := PlanFor(u, a, actor, expected).objects + 4;
    var r := x.RetainActor(gitDir, 1, actor, expected, Environment(writes, {}));
    journal, files, objects := x.journal, x.files, x.objects;
    ghost var w := x.State();
    NotInstallable(u, refs, a, actor, expected);
    forall v: World, dir: nat, again: Option<Manifest> | Good(u, policy, v) && Evolves(w, v)
      ensures !CanRetain(u, v, dir, 0, actor, again)
    {
      DoomedPlan(u, policy, w, v, 0, 0, dir, again);
    }
  }

  lemma NotInstallable(u: Universe, refs: map<Actor, Manifest>, a: Attempt, actor: Actor, expected: Option<Manifest>)
    requires Overreaches(u, refs, a, actor, expected)
    ensures !Installable(u, PlanFor(u, a, actor, expected).head, a.reserved)
    ensures PlanFor(u, a, actor, expected).actor == actor
  {
  }

  /** The first intake of a readable artifact settles, as a new attempt without plans. */
  lemma FirstSettles(u: Universe, p: Policy, w: World, v: World, b: Bundle)
    requires w.journal.attempts == [] && w.files == {}
    requires Passes(u, p.project, b, b.refs, p.limits)
    requires Received(u, p, w, v, 1, b, b.refs, true)
    ensures |v.journal.attempts| == 1 && v.journal.attempts[0].Settled()
    ensures var a := v.journal.attempts[0];
      a == NewAttempt(1, b, b.refs, p.limits).(status := a.status, measured := a.measured)
  {
    var start := Started(w.journal, p, 1, b, b.refs);
    assert start[0] == NewAttempt(1, b, b.refs, p.limits);
    assert CleanRead(u, p, w.files, start, 0);
  }

  // ---------------------------------------------------------------- an input

  /** One actor; objects of no length, under headers of fifty bytes, with digests that
      tell the objects below apart. */
  function Number(o: GitObject): Id {
    match o
    case ManifestBlob(_, records) => 10 * |records| + 1
    case Tree(_, records) => 10 * |records| + 2
    case CommitObject(m) => 10 * |m.records| + 3
    case Payload(id) => 100 * id + 4
    case Signature(id) => 100 * id + 5
  }

  function Digested(): Universe {
    Universe(_ => 0, id => id, Number, _ => 0, _ => 50, _ => true)
  }

  function Limits(): Cost {
    Cost(1000, 100000, 9, 10, 10)
  }

  /** Record 1 is retained, and the artifact brings record 2. */
  function First(): Manifest {
    Manifest(0, [1], None)
  }

  function Head(): Manifest {
    Manifest(0, [1, 2], Some(First()))
  }

  function Second(): Bundle {
    Bundle(0, {7}, [2], 1, 1, 0, 0, 1, true)
  }

  lemma {:induction false} NoBytes(ids: seq<Id>)
    ensures Bytes(Digested(), ids) == 0 && FramedLength(Digested(), ids) == 17 + 51 * |ids|
  {
    if ids != [] {
      NoBytes(ids[..|ids| - 1]);
    }
  }

  lemma {:induction false} ChargeByCount(objects: seq<GitObject>)
    ensures Charge(Digested(), objects) == 256 * |objects|
  {
    if objects != [] {
      ChargeByCount(objects[..|objects| - 1]);
    }
  }

  lemma {:induction false} ImageIsSmall(list: seq<GitObject>)
    ensures |set o | o in SetOf(list) :: Number(o)| <= |list|
  {
    var image := set o | o in SetOf(list) :: Number(o);
    if list != [] {
      var n := |list| - 1;
      ImageIsSmall(list[..n]);
      var rest := set o | o in SetOf(list[..n]) :: Number(o);
      assert image == rest + {Number(list[n])};
    } else {
      assert image == {};
    }
  }

  lemma FewDigests()
    ensures |Digests(Digested(), First())| <= 5
  {
    var list := ObjectList(First());
    ImageIsSmall(list);
    assert Digests(Digested(), First()) == set o | o in SetOf(list) :: Number(o);
  }

  lemma FewFit(ids: seq<Id>)
    requires |ids| <= 5
    ensures Bytes(Digested(), ids) <= 100000 && FramesFit(Digested(), ids, 100000)
  {
    NoBytes(ids);
    forall i | 0 <= i < |ids| ensures FramedLength(Digested(), ids[..i]) <= 17 + 51 * 5 {
      NoBytes(ids[..i]);
    }
  }

  /** The prior ref can be read: five objects. */
  lemma FirstReads()
    ensures Readable(Digested(), 0, First(), Limits())
  {
    hide Digests, FramesFit, Bytes, Sorted;
    FewDigests();
    IncreasingLength(Sorted(Digests(Digested(), First())));
    FewFit(Sorted(Digests(Digested(), First())));
  }

  lemma TwoRecords()
    ensures HeadFor(0, Some(First()), [2]) == Head()
  {
    var all := RecordsAt(Some(First())) + SetOf([2]);
    assert 2 in all && all == SetOf([1, 2]) && 2 !in SetOf([1]);
    SameMembersSameList(Sorted(all), [1, 2]);
  }

  lemma HeadReaches()
    ensures SetOf(ObjectList(First())) <= Reach(Head()) && SetOf(ObjectList(Head())) <= Reach(Head())
    ensures ObjectList(First()) ==
      [ManifestBlob(0, [1]), Payload(1), Signature(1), Tree(0, [1]), CommitObject(First())]
    ensures ObjectList(Head()) ==
      [ManifestBlob(0, [1, 2]), Payload(1), Signature(1), Payload(2), Signature(2),
       Tree(0, [1, 2]), CommitObject(Head())]
  {
    var two: seq<Id> := [1, 2];
    assert two[..1] == [1] && Blobs(two) == Blobs(two[..1]) + [Payload(2), Signature(2)];
    assert Reach(Head()) == SetOf(ObjectList(Head())) + Reach(First());
  }

  /** The resulting history does not fit: ten objects. */
  lemma HeadOutgrows()
    ensures !Installable(Digested(), Head(), Limits())
  {
    hide Reach, ObjectList;
    HeadReaches();
    var a, b := ObjectList(First()), ObjectList(Head());
    var ten := [11, 104, 105, 12, 13, 21, 204, 205, 22, 23];
    var objects := [a[0], a[1], a[2], a[3], a[4], b[0], b[3], b[4], b[5], b[6]];
    forall i | 0 <= i < 10 ensures ten[i] in Digests(Digested(), Head()) {
      assert objects[i] in SetOf(a) + SetOf(b);
      assert Number(objects[i]) == ten[i];
    }
    D.DistinctFit(ten, Digests(Digested(), Head()));
  }

  /** All of this input together meets what retention in vain supposes. */
  lemma OutgrowsHere()
    ensures
      var a := NewAttempt(1, Second(), {7}, Limits());
      Overreaches(Digested(), map[0 := First()], a, 0, Some(First()))
    ensures Passes(Digested(), 0, Second(), {7}, Limits())
  {
    hide Installable, Readable, HeadFor, Reach;
    var u, a := Digested(), NewAttempt(1, Second(), {7}, Limits());
    OneWanted();
    TwoRecords();
    FirstReads();
    HeadOutgrows();
    ChargeByCount(ObjectList(Head()));
    assert ActorsOf(u, [2]) == {0};
  }

  lemma OneWanted()
    ensures RecordsBy(Digested(), [2], 0) == [2]
  {
    var records: seq<Id> := [2];
    assert records[..0] == [];
  }

  lemma SevenPlanned()
    ensures
      var plan := PlanFor(Digested(), NewAttempt(1, Second(), {7}, Limits()), 0, Some(First()));
      plan.expected == Some(First()) && plan.head == Head() && plan.objects == 7 && !plan.durable
  {
    hide HeadFor, ObjectList, Reach;
    OneWanted();
    TwoRecords();
    HeadReaches();
  }

  /** Retention in vain on this input. */
  method RetainSecondInVain() returns (journal: Journal, files: set<Bundle>, objects: set<GitObject>)
    ensures |journal.attempts| == 1 && |journal.attempts[0].plans| == 1
    ensures
      var plan := journal.attempts[0].plans[0];
      plan.expected == Some(First()) && plan.head == Head() && plan.objects == 7 && !plan.durable
    ensures
      var policy := Policy(0, Limits(), Usage(1000000, 1000, 1000, 1000), Usage(1000000, 1000, 1000, 1000));
      var w := World(journal, files, objects, map[0 := First()]);
      && Good(Digested(), policy, w)
      && forall v: World, dir: nat, again: Option<Manifest> :: Good(Digested(), policy, v) && Evolves(w, v) ==>
           !CanRetain(Digested(), v, dir, 0, 0, again)
  {
    hide Good, Evolves, Overreaches, Passes, CanRetain, PlanFor;
    var policy := Policy(0, Limits(), Usage(1000000, 1000, 1000, 1000), Usage(1000000, 1000, 1000, 1000));
    OutgrowsHere();
    SevenPlanned();
    journal, files, objects :=
      RetainInVain(Digested(), policy, 0, map[0 := First()], Second(), 0, 0, Some(First()));
  }
}
