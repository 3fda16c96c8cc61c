/** Two actors who revise one record at the same time: what the heads then are. */
module ProtocolRace {
  import opened Basics
  import opened Streams
  import opened Protocol
  import opened ProtocolInvariant
  import opened ProtocolTheorems
  import opened ProtocolHeads
  import opened ProtocolProgress
  import opened ProtocolRuns

  // ---------------------------------------------------------------- up to the swap

  /** Begin a first attempt and take it to the point before its swap. */
  lemma BeginToSwap(s: State, pid: Pid, r: Request, t: nat) returns (actions: seq<Action>, draft: Option<Commit>)
    requires MayStart(s.sh, r) && KeyFor(r) !in s.sh.intents && pid !in s.procs && KeyFor(r) !in s.sh.locks
    ensures var locked, c := Locked(s.sh, KeyFor(r), pid), Candidate(s.sh.refs, r, t);
      Leads(s, actions, State(JournaledState(locked, r, c), s.procs[pid := Carrying(locked, r, c, draft, Publish)]))
  {
    hide Loadable, Public, Checked, SigningRoot, Reaches, JournaledState, Carrying, Candidate, Leads, StepResult,
         StepEnabled;
    var locked, c := Locked(s.sh, KeyFor(r), pid), Candidate(s.sh.refs, r, t);
    var n;
    n, draft := ReachesCheck(locked, r, t);
    var mid, checked, last := JournaledState(locked, r, c), Carrying(locked, r, c, draft, CheckSources),
      Carrying(locked, r, c, draft, Publish);
    CandidateParent(s.sh.refs, r, t);
    SwapSteps(locked, r, t, c, draft);
    ReachesHere(mid, last, t);
    StepFirst(mid, checked, t, 0, mid, last);
    ReachesOn(locked, Started(r), t, n, mid, checked, 1, mid, last);
    assert Apply(s, Begin(pid, Mutation(r))) == State(locked, s.procs[pid := Started(r)]);
    actions := BeginLeads(s, pid, Mutation(r), t, n + 1, mid, last);
  }

  /** The swap of a process that carries a journaled candidate on the current local head. */
  lemma SwapsNow(s: State, pid: Pid, sh: Shared, r: Request, t: nat, c: Commit, draft: Option<Commit>)
    requires pid in s.procs && s.procs[pid] == Carrying(sh, r, c, draft, Publish)
    requires Lookup(s.sh.refs, Local(r.actor)) == c.parent
    ensures Enabled(s, Step(pid, t))
    ensures Apply(s, Step(pid, t)).sh.refs == s.sh.refs[Local(r.actor) := c]
    ensures forall q :: q in s.procs && q != pid ==> q in Apply(s, Step(pid, t)).procs
    ensures forall q :: q in s.procs && q != pid ==> Apply(s, Step(pid, t)).procs[q] == s.procs[q]
  {
  }

  // ---------------------------------------------------------------- the race

  /** Two actors may each start a successor of the same record. */
  ghost predicate Races(sh: Shared, r: Request, q: Request) {
    && MayStart(sh, r) && MayStart(sh, q) && r.actor != q.actor
    && r.kind !in {TypePublish, RecordOpen} && q.kind !in {TypePublish, RecordOpen}
    && r.record.Some? && q.record == r.record
    && KeyFor(r) !in sh.intents && KeyFor(q) !in sh.intents
  }

  lemma NotYetAccepted(refs: Refs, r: Request, t: nat)
    requires Loadable(refs) && Public(refs, Key(r.actor, r.operation)) == None
    ensures Candidate(refs, r, t).artifact !in Accepted(refs)
  {
    hide Public, Lineage;
    var key, a := Key(r.actor, r.operation), Candidate(refs, r, t).artifact;
    UnusedOnEverySource(refs, key);
    forall s, c | s in refs && c in Stream(Some(refs[s])) ensures c.artifact != a {
      ValidOnStream(c, Some(refs[s]), s.actor);
      assert s.actor == key.actor ==> !Uses(Stream(Some(refs[s])), key.operation);
    }
  }

  /** Both successors are heads afterwards. */
  lemma BothAreHeads(refs: Refs, r: Request, q: Request, t: nat, sh: Shared)
    requires sh.refs == refs && Races(sh, r, q)
    ensures var c, d := Candidate(refs, r, t), Candidate(refs, q, t);
      Heads(Accepted(refs[Local(r.actor) := c][Local(q.actor) := d]), r.record.value) == {c.artifact, d.artifact}
  {
    hide Loadable, Public, Lineage, Heads, Accepted, Candidate, SigningRoot;
    var c, d, opening := Candidate(refs, r, t), Candidate(refs, q, t), r.record.value;
    var base := Accepted(refs);
    LoadableParts(refs);
    CandidateParent(refs, r, t);
    CandidateParent(refs, q, t);
    NotYetAccepted(refs, r, t);
    NotYetAccepted(refs, q, t);
    CheckedSuccessor(refs, r);
    CheckedSuccessor(refs, q);
    AcceptedAfterAppend(refs, r.actor, c);
    AcceptedAfterAppend(refs[Local(r.actor) := c], q.actor, d);
    ObservesItself(refs);
    LineageAppends(refs, refs, r.actor, c);
    SuccessorOnTop(base, base, c.artifact, opening);
    HeadsInside(base, opening);
    SuccessorOnTop(base, base + {c.artifact}, d.artifact, opening);
  }

  /** Both stand before their swaps, on refs that nobody has moved. */
  ghost predicate BothReady(s: State, both: State, r: Request, q: Request, t: nat) {
    && both.sh.refs == s.sh.refs && 0 in both.procs && 1 in both.procs
    && (exists sh, draft :: both.procs[0] == Carrying(sh, r, Candidate(s.sh.refs, r, t), draft, Publish))
    && (exists sh, draft :: both.procs[1] == Carrying(sh, q, Candidate(s.sh.refs, q, t), draft, Publish))
  }

  lemma ReachBoth(s: State, r: Request, q: Request, t: nat) returns (actions: seq<Action>, both: State)
    requires Initial(s) && Races(s.sh, r, q)
    ensures Leads(s, actions, both) && BothReady(s, both, r, q, t)
  {
    hide MayStart, Leads, Candidate, Carrying;
    var c, d := Candidate(s.sh.refs, r, t), Candidate(s.sh.refs, q, t);
    var first := Locked(s.sh, KeyFor(r), 0);
    var one, drafted := BeginToSwap(s, 0, r, t);
    var held := State(JournaledState(first, r, c), s.procs[0 := Carrying(first, r, c, drafted, Publish)]);
    var second := Locked(held.sh, KeyFor(q), 1);
    OtherMayStart(s.sh, r, q, c, first);
    var two, draft := BeginToSwap(held, 1, q, t);
    both := State(JournaledState(second, q, d), held.procs[1 := Carrying(second, q, d, draft, Publish)]);
    LeadsOn(s, one, held, two, both);
    actions := one + two;
  }

  /** Two actors load the same history, and each revises one record. Both pass the check
      of their sources before either swaps, both swaps succeed, and the record has two
      heads: a checked successor need not end as the only head. */
  lemma RaceLeavesTwoHeads(s: State, r: Request, q: Request, t: nat)
      returns (states: seq<State>, actions: seq<Action>)
    requires Initial(s) && Races(s.sh, r, q)
    ensures Run(states, actions) && states[0] == s
    ensures |Heads(Accepted(states[|actions|].sh.refs), r.record.value)| == 2
  {
    hide MayStart, Heads, Accepted, Enabled, Apply, Leads, Candidate, Carrying;
    var c, d := Candidate(s.sh.refs, r, t), Candidate(s.sh.refs, q, t);
    CandidateParent(s.sh.refs, r, t);
    CandidateParent(s.sh.refs, q, t);
    var ready, both := ReachBoth(s, r, q, t);
    var sh, draft :| both.procs[0] == Carrying(sh, r, c, draft, Publish);
    SwapsNow(both, 0, sh, r, t, c, draft);
    var swapped := Apply(both, Step(0, t));
    var sh', draft' :| both.procs[1] == Carrying(sh', q, d, draft', Publish);
    SwapsNow(swapped, 1, sh', q, t, d, draft');
    var last := Apply(swapped, Step(1, t));
    LeadsOne(both, Step(0, t));
    LeadsOne(swapped, Step(1, t));
    LeadsOn(s, ready, both, [Step(0, t)], swapped);
    LeadsOn(s, ready + [Step(0, t)], swapped, [Step(1, t)], last);
    actions := ready + [Step(0, t)] + [Step(1, t)];
    states := LeadsIsRun(s, actions, last);
    BothAreHeads(s.sh.refs, r, q, t, s.sh);
    DifferentActors(s.sh.refs, r, q, t);
  }

  /** Journaling one actor's candidate leaves the other's start open. */
  lemma OtherMayStart(sh: Shared, r: Request, q: Request, c: Commit, locked: Shared)
    requires Races(sh, r, q) && locked == Locked(sh, KeyFor(r), 0)
    ensures MayStart(JournaledState(locked, r, c), q) && KeyFor(q) !in JournaledState(locked, r, c).intents
    ensures KeyFor(q) !in sh.locks ==> KeyFor(q) !in JournaledState(locked, r, c).locks
  {
    hide Loadable, Public, Checked, SigningRoot;
  }

  lemma DifferentActors(refs: Refs, r: Request, q: Request, t: nat)
    requires r.actor != q.actor
    ensures Candidate(refs, r, t).artifact != Candidate(refs, q, t).artifact
  {
  }

  /** A repository in which actor 1 has opened one record. */
  function Opened(): Commit {
    Commit(Artifact(Request(1, 0, RecordOpen, None, {}, 0), 0, 1, None), None)
  }

  function OpenedRefs(): Refs {
    map[Local(1) := Opened()]
  }

  lemma OpenedStreams(s: Source)
    ensures Stream(Lookup(OpenedRefs(), s)) == if s == Local(1) then [Opened()] else []
  {
  }

  lemma OpenedAccepted()
    ensures Accepted(OpenedRefs()) == {Opened().artifact}
    ensures Heads({Opened().artifact}, Opened().artifact) == {Opened().artifact}
  {
    OpenedStreams(Local(1));
  }

  lemma OpenedLoads()
    ensures Loadable(OpenedRefs())
  {
    hide Loadable, Accepted, Stream;
    OpenedAccepted();
    forall a: Actor ensures Prefixed(OpenedRefs(), a) {
      OpenedStreams(Local(a));
      OpenedStreams(Imported(a));
    }
    OpenedStreams(Local(1));
    LoadableParts(OpenedRefs());
  }

  /** Any actor may revise the record. */
  lemma MayRevise(sh: Shared, actor: Actor)
    requires sh.refs == OpenedRefs() && sh.intents == map[]
    ensures MayStart(sh, Request(actor, 1, RecordRevise, Some(Opened().artifact), {Opened().artifact}, 0))
  {
    hide Loadable, Accepted, Stream, Heads;
    OpenedLoads();
    OpenedAccepted();
    OpenedStreams(Local(actor));
    OpenedStreams(Imported(actor));
    assert Stream(Tip(OpenedRefs(), actor)) in {[], [Opened()]};
    assert !Uses([], 1) && !Uses([Opened()], 1);
  }

  lemma OpenedInitial()
    ensures Initial(State(Shared(OpenedRefs(), map[], {}, map[], {Opened()}), map[]))
  {
    hide Stream;
    var refs := OpenedRefs();
    OpenedStreams(Local(1));
    assert refs.Keys == {Local(1)} && refs[Local(1)] == Opened();
    assert Stream(Some(Opened())) == [Opened()];
    assert ValidCommit(Opened(), 1) && DistinctOperations([Opened()]);
  }

  /** Such a race exists: one actor has opened a record, and two actors revise it. */
  lemma RaceExists() returns (s: State, r: Request, q: Request)
    ensures Initial(s) && Races(s.sh, r, q)
  {
    hide MayStart, Initial, Opened, OpenedRefs;
    var c := Opened();
    s := State(Shared(OpenedRefs(), map[], {}, map[], {c}), map[]);
    OpenedInitial();
    r := Request(1, 1, RecordRevise, Some(c.artifact), {c.artifact}, 0);
    q := Request(2, 1, RecordRevise, Some(c.artifact), {c.artifact}, 0);
    MayRevise(s.sh, 1);
    MayRevise(s.sh, 2);
  }
}
