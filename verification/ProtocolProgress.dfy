/** What attempts and imports do when nobody disturbs them: a first try, a retry after a
    crash at any point, and an import each come to their end. */
module ProtocolProgress {
  import opened Basics
  import opened Streams
  import opened Protocol
  import opened ProtocolInvariant
  import opened ProtocolSteps
  import opened ProtocolTheorems
  import opened ProtocolHeads

  /** The process takes `n` enabled steps in a row. */
  ghost predicate Reaches(sh: Shared, p: Proc, t: nat, n: nat, sh': Shared, p': Proc)
    decreases n
  {
    if n == 0 then sh' == sh && p' == p
    else
      && StepEnabled(sh, p)
      && Reaches(StepResult(sh, p, t).0, StepResult(sh, p, t).1, t, n - 1, sh', p')
  }

  lemma {:induction false} ReachesOn(sh: Shared, p: Proc, t: nat, n: nat, mid: Shared, q: Proc, m: nat, sh': Shared,
                                     p': Proc)
    requires Reaches(sh, p, t, n, mid, q) && Reaches(mid, q, t, m, sh', p')
    ensures Reaches(sh, p, t, n + m, sh', p')
    decreases n
  {
    hide StepResult, StepEnabled;
    if n > 0 {
      ReachesOn(StepResult(sh, p, t).0, StepResult(sh, p, t).1, t, n - 1, mid, q, m, sh', p');
    }
  }

  /** Prepend one enabled step. */
  lemma StepFirst(sh: Shared, p: Proc, t: nat, n: nat, sh': Shared, p': Proc)
    requires StepEnabled(sh, p) && Reaches(StepResult(sh, p, t).0, StepResult(sh, p, t).1, t, n, sh', p')
    ensures Reaches(sh, p, t, n + 1, sh', p')
  {
  }

  lemma ReachesHere(sh: Shared, p: Proc, t: nat)
    ensures Reaches(sh, p, t, 0, sh, p)
  {
  }

  // ---------------------------------------------------------------- evidence

  function KeyFor(r: Request): Key {
    Key(r.actor, r.operation)
  }

  /** The unfinished intent of an interrupted attempt, still on the current local head.
      Intents of reachable states are sound. */
  ghost predicate Resumes(sh: Shared, r: Request, i: Intent) {
    && i.request == r && i.stage != Published && IntentSound(sh, KeyFor(r), i)
    && i.expected == Lookup(sh.refs, Local(r.actor))
  }

  /** What an attempt needs: a repository that loads, an unused key, the local stream as
      the actor's latest, a request that passes the lineage checks, and either no intent
      or one that can be resumed. */
  ghost predicate MayStart(sh: Shared, r: Request) {
    && Loadable(sh.refs) && Public(sh.refs, KeyFor(r)) == None
    && SigningRoot(sh.refs, r.actor) && Checked(sh.refs, r)
    && (KeyFor(r) in sh.intents ==> Resumes(sh, r, sh.intents[KeyFor(r)]))
  }

  function Started(r: Request): Proc {
    Proc(Mutation(r), Loading, map[], false, false, false, None, None, None)
  }

  /** The attempt with its evidence read, at a later point of its program. */
  function Informed(sh: Shared, r: Request, pc: Pc): Proc {
    Proc(Mutation(r), pc, sh.refs, KeyFor(r) in sh.lockFiles, KeyFor(r) !in sh.locks, true,
         Lookup(sh.intents, KeyFor(r)), None, None)
  }

  /** Loading and the seven observations lead to the decision. */
  lemma ReadsEvidence(sh: Shared, r: Request, t: nat)
    requires Loadable(sh.refs) && Coheres(sh.objects, sh.refs, KeyFor(r), Lookup(sh.intents, KeyFor(r)))
    ensures Reaches(sh, Started(r), t, 8, sh, Informed(sh, r, Decide))
  {
    hide Reaches, Loadable, Coheres;
    var p0 := Started(r);
    var p1 := StepResult(sh, p0, t).1;
    var p2 := StepResult(sh, p1, t).1;
    var p3 := StepResult(sh, p2, t).1;
    var last := Informed(sh, r, Decide);
    ReachesHere(sh, last, t);
    StepFirst(sh, Informed(sh, r, Probe3), t, 0, sh, last);
    StepFirst(sh, Informed(sh, r, Read3), t, 1, sh, last);
    StepFirst(sh, Informed(sh, r, Refs2), t, 2, sh, last);
    StepFirst(sh, Informed(sh, r, Probe2), t, 3, sh, last);
    StepFirst(sh, Informed(sh, r, Read2), t, 4, sh, last);
    assert p3 == Informed(sh, r, Read2);
    StepFirst(sh, p2, t, 5, sh, last);
    StepFirst(sh, p1, t, 6, sh, last);
    StepFirst(sh, p0, t, 7, sh, last);
  }

  lemma HeadOnTip(refs: Refs, actor: Actor)
    requires Loadable(refs) && SigningRoot(refs, actor)
    ensures Tip(refs, actor) == Lookup(refs, Local(actor))
    ensures Lookup(refs, Local(actor)).Some? ==> Lookup(refs, Local(actor)).value in Stream(Tip(refs, actor))
  {
    hide Lineage, Accepted;
    TipCovers(refs, actor);
  }

  /** The evidence of an attempt that may start agrees with itself. */
  lemma StartCoheres(sh: Shared, r: Request)
    requires MayStart(sh, r)
    ensures Coheres(sh.objects, sh.refs, KeyFor(r), Lookup(sh.intents, KeyFor(r)))
    ensures !Unavailable(sh.refs, KeyFor(r), Lookup(sh.intents, KeyFor(r)))
  {
    hide Loadable, Public, Checked, SigningRoot, Tip;
    HeadOnTip(sh.refs, r.actor);
  }

  // ---------------------------------------------------------------- up to the journaled candidate

  /** The candidate the attempt will publish: the journaled one, or a new one. */
  function Chosen(sh: Shared, r: Request, t: nat): Commit {
    if KeyFor(r) in sh.intents && sh.intents[KeyFor(r)].candidate.Some? then sh.intents[KeyFor(r)].candidate.value
    else Candidate(sh.refs, r, t)
  }

  /** The durable state with `c` journaled. */
  function JournaledState(sh: Shared, r: Request, c: Commit): Shared {
    sh.(objects := sh.objects + {c},
        intents := sh.intents[KeyFor(r) := Intent(r, c.parent, Publishing, Some(c), None)])
  }

  /** The attempt with `c` journaled; it still has its draft if it signed `c` itself. */
  function Carrying(sh: Shared, r: Request, c: Commit, draft: Option<Commit>, pc: Pc): Proc {
    Informed(sh, r, pc).(intent := Some(Intent(r, c.parent, Publishing, Some(c), None)), draft := draft)
  }

  function PreparedState(sh: Shared, r: Request): Shared {
    Save(sh, KeyFor(r), Intent(r, Lookup(sh.refs, Local(r.actor)), Prepared, None, None))
  }

  function Preparing(sh: Shared, r: Request, pc: Pc): Proc {
    Informed(sh, r, pc).(intent := Some(Intent(r, Lookup(sh.refs, Local(r.actor)), Prepared, None, None)))
  }

  lemma DecideEnabled(sh: Shared, r: Request)
    requires MayStart(sh, r)
    ensures StepEnabled(sh, Informed(sh, r, Decide))
  {
    hide Loadable, Public, Checked, SigningRoot, Coheres, IntentSound, Unavailable;
    StartCoheres(sh, r);
  }

  /** Without an intent the attempt prepares one. */
  lemma DecidePrepares(sh: Shared, r: Request, t: nat)
    requires MayStart(sh, r) && KeyFor(r) !in sh.intents
    ensures StepResult(sh, Informed(sh, r, Decide), t) == (sh, Informed(sh, r, Prepare))
    ensures StepEnabled(sh, Informed(sh, r, Prepare))
    ensures StepResult(sh, Informed(sh, r, Prepare), t) == (PreparedState(sh, r), Preparing(sh, r, Sign))
  {
    hide Loadable, Public, Checked, SigningRoot;
  }

  /** With a prepared intent it goes on to sign. */
  lemma DecideSigns(sh: Shared, r: Request, t: nat)
    requires MayStart(sh, r) && KeyFor(r) in sh.intents && sh.intents[KeyFor(r)].candidate == None
    ensures StepResult(sh, Informed(sh, r, Decide), t) == (PreparedState(sh, r), Preparing(sh, r, Sign))
  {
    hide Loadable, Public, Checked, SigningRoot, Bound, OnAcceptedStream;
    var key := KeyFor(r);
    assert sh.intents[key := sh.intents[key]] == sh.intents;
  }

  /** With a journaled candidate it goes on to publish it. */
  lemma DecidePublishes(sh: Shared, r: Request, t: nat)
    requires MayStart(sh, r) && KeyFor(r) in sh.intents && sh.intents[KeyFor(r)].candidate.Some?
    ensures var c := sh.intents[KeyFor(r)].candidate.value;
      StepResult(sh, Informed(sh, r, Decide), t) == (JournaledState(sh, r, c), Carrying(sh, r, c, None, CheckSources))
  {
    hide Loadable, Public, Checked, SigningRoot, OnAcceptedStream, ValidCommit;
    var key := KeyFor(r);
    var i := sh.intents[key];
    assert i == Intent(r, i.candidate.value.parent, Publishing, i.candidate, None);
    assert sh.intents[key := i] == sh.intents && sh.objects + {i.candidate.value} == sh.objects;
  }

  lemma SignStep(sh: Shared, r: Request, t: nat)
    ensures var p := Preparing(sh, r, Sign);
      && StepEnabled(PreparedState(sh, r), p)
      && StepResult(PreparedState(sh, r), p, t) ==
         (PreparedState(sh, r), Preparing(sh, r, Write).(draft := Some(Candidate(sh.refs, r, t))))
  {
    hide Candidate;
  }

  lemma WriteStep(sh: Shared, r: Request, t: nat, c: Commit)
    ensures var p := Preparing(sh, r, Write).(draft := Some(c));
      && StepEnabled(PreparedState(sh, r), p)
      && StepResult(PreparedState(sh, r), p, t) ==
         (PreparedState(sh, r).(objects := sh.objects + {c}), Preparing(sh, r, Journal).(draft := Some(c)))
  {
  }

  lemma JournalStep(sh: Shared, r: Request, t: nat, c: Commit)
    requires c.parent == Lookup(sh.refs, Local(r.actor))
    ensures var p := Preparing(sh, r, Journal).(draft := Some(c));
      var written := PreparedState(sh, r).(objects := sh.objects + {c});
      && StepEnabled(written, p)
      && StepResult(written, p, t) == (JournaledState(sh, r, c), Carrying(sh, r, c, Some(c), CheckSources))
  {
    var i := Intent(r, c.parent, Publishing, Some(c), None);
    assert PreparedState(sh, r).intents[KeyFor(r) := i] == sh.intents[KeyFor(r) := i];
  }

  /** Sign, write, journal. */
  lemma Signs(sh: Shared, r: Request, t: nat)
    ensures var c := Candidate(sh.refs, r, t);
      Reaches(PreparedState(sh, r), Preparing(sh, r, Sign), t, 3,
              JournaledState(sh, r, c), Carrying(sh, r, c, Some(c), CheckSources))
  {
    hide *;
    var c, prepared := Candidate(sh.refs, r, t), PreparedState(sh, r);
    var end, last := JournaledState(sh, r, c), Carrying(sh, r, c, Some(c), CheckSources);
    CandidateParent(sh.refs, r, t);
    ReachesHere(end, last, t);
    JournalStep(sh, r, t, c);
    StepFirst(prepared.(objects := sh.objects + {c}), Preparing(sh, r, Journal).(draft := Some(c)), t, 0, end, last);
    WriteStep(sh, r, t, c);
    StepFirst(prepared, Preparing(sh, r, Write).(draft := Some(c)), t, 1, end, last);
    SignStep(sh, r, t);
    StepFirst(prepared, Preparing(sh, r, Sign), t, 2, end, last);
  }

  /** From the decision to the check of the sources, wherever the intent stood. */
  lemma Journals(sh: Shared, r: Request, t: nat) returns (n: nat, draft: Option<Commit>)
    requires MayStart(sh, r)
    ensures var c := Chosen(sh, r, t);
      Reaches(sh, Informed(sh, r, Decide), t, n, JournaledState(sh, r, c), Carrying(sh, r, c, draft, CheckSources))
  {
    hide MayStart, Reaches, StepResult, StepEnabled, JournaledState, Carrying, Candidate, Informed, PreparedState;
    var key, c := KeyFor(r), Chosen(sh, r, t);
    DecideEnabled(sh, r);
    if key in sh.intents && sh.intents[key].candidate.Some? {
      DecidePublishes(sh, r, t);
      draft := None;
      ReachesHere(JournaledState(sh, r, c), Carrying(sh, r, c, None, CheckSources), t);
      StepFirst(sh, Informed(sh, r, Decide), t, 0, JournaledState(sh, r, c), Carrying(sh, r, c, None, CheckSources));
      n := 1;
    } else {
      Signs(sh, r, t);
      draft := Some(c);
      var end, last := JournaledState(sh, r, c), Carrying(sh, r, c, draft, CheckSources);
      if key in sh.intents {
        DecideSigns(sh, r, t);
        StepFirst(sh, Informed(sh, r, Decide), t, 3, end, last);
        n := 4;
      } else {
        DecidePrepares(sh, r, t);
        StepFirst(sh, Informed(sh, r, Prepare), t, 3, end, last);
        StepFirst(sh, Informed(sh, r, Decide), t, 4, end, last);
        n := 5;
      }
    }
  }

  lemma CandidateParent(h: Refs, r: Request, t: nat)
    ensures Candidate(h, r, t).parent == Lookup(h, Local(r.actor)) && Candidate(h, r, t).artifact.request == r
  {
  }

  lemma ObservesItself(refs: Refs)
    ensures Observed(refs, refs)
  {
  }

  // ---------------------------------------------------------------- the repository with it loads

  /** A valid commit with the request on top of the local stream. */
  ghost predicate Extends(refs: Refs, r: Request, c: Commit) {
    c.artifact.request == r && c.parent == Lookup(refs, Local(r.actor)) && ValidCommit(c, r.actor)
  }

  /** Either way the chosen commit extends the local stream. */
  lemma ChosenExtends(sh: Shared, r: Request, t: nat)
    requires MayStart(sh, r)
    ensures Extends(sh.refs, r, Chosen(sh, r, t))
  {
    hide Public, Checked, Lineage, Accepted;
    CandidateParent(sh.refs, r, t);
    HeadOnTip(sh.refs, r.actor);
    TipCovers(sh.refs, r.actor);
    SequenceIsPosition(Tip(sh.refs, r.actor), r.actor);
  }

  lemma ExtendsStreams(refs: Refs, r: Request, c: Commit)
    requires Loadable(refs) && Public(refs, KeyFor(r)) == None && SigningRoot(refs, r.actor) && Extends(refs, r, c)
    ensures DistinctOperations(Stream(Some(c))) && Stream(Some(c)) == Stream(c.parent) + [c]
    ensures Stream(Lookup(refs, Imported(r.actor))) <= Stream(c.parent)
  {
    hide Lineage, Accepted;
    HeadOnTip(refs, r.actor);
    TipCovers(refs, r.actor);
    AppendKeepsDistinct(Stream(Tip(refs, r.actor)), c);
  }

  ghost predicate Prefixed(refs: Refs, a: Actor) {
    var l, i := Stream(Lookup(refs, Local(a))), Stream(Lookup(refs, Imported(a)));
    l <= i || i <= l
  }

  ghost predicate SourcesSound(refs: Refs) {
    forall s :: s in refs ==> ValidCommit(refs[s], s.actor) && DistinctOperations(Stream(Some(refs[s])))
  }

  lemma LoadableParts(refs: Refs)
    ensures Loadable(refs) <==>
      SourcesSound(refs) && (forall a: Actor :: Prefixed(refs, a)) && Lineage(Accepted(refs))
  {
    hide Lineage, Accepted;
    if SourcesSound(refs) && forall a: Actor :: Prefixed(refs, a) {
      forall a: Actor
        ensures Stream(Lookup(refs, Local(a))) <= Stream(Lookup(refs, Imported(a)))
                || Stream(Lookup(refs, Imported(a))) <= Stream(Lookup(refs, Local(a)))
      {
        assert Prefixed(refs, a);
      }
    }
  }

  lemma AppendPrefixed(refs: Refs, actor: Actor, c: Commit, a: Actor)
    requires Prefixed(refs, a) && Stream(Lookup(refs, Imported(actor))) <= Stream(Some(c))
    ensures Prefixed(refs[Local(actor) := c], a)
  {
  }

  lemma AppendTip(refs: Refs, actor: Actor, c: Commit)
    requires Stream(Lookup(refs, Imported(actor))) <= Stream(Some(c))
    ensures Tip(refs[Local(actor) := c], actor) == Some(c)
  {
  }

  /** The repository with the commit appended still loads, and finds it. */
  lemma AppendLoads(refs: Refs, r: Request, c: Commit)
    requires Loadable(refs) && Public(refs, KeyFor(r)) == None && SigningRoot(refs, r.actor)
    requires Checked(refs, r) && Extends(refs, r, c)
    ensures Loadable(refs[Local(r.actor) := c]) && Tip(refs[Local(r.actor) := c], r.actor) == Some(c)
  {
    hide ValidCommit, DistinctOperations, Public, SigningRoot, Stream, Loadable, Prefixed, Tip,
         Lineage, Accepted, Checked, Observed;
    ExtendsStreams(refs, r, c);
    ObservesItself(refs);
    AppendTip(refs, r.actor, c);
    LoadableParts(refs);
    LineageAppends(refs, refs, r.actor, c);
    var after := refs[Local(r.actor) := c];
    LoadableParts(after);
    forall a: Actor ensures Prefixed(after, a) {
      AppendPrefixed(refs, r.actor, c, a);
    }
  }

  // ---------------------------------------------------------------- publication

  /** The durable state once the intent is marked published. */
  function PublishedState(sh: Shared, r: Request, c: Commit): Shared {
    JournaledState(sh, r, c).(
      refs := sh.refs[Local(r.actor) := c],
      intents := sh.intents[KeyFor(r) := Intent(r, c.parent, Published, Some(c), Some(c.artifact))])
  }

  function SwappedState(sh: Shared, r: Request, c: Commit): Shared {
    JournaledState(sh, r, c).(refs := sh.refs[Local(r.actor) := c])
  }

  function Reloaded(sh: Shared, r: Request, c: Commit): Proc {
    Carrying(sh, r, c, Some(c), Finish).(h := SwappedState(sh, r, c).refs)
  }

  lemma SwapSteps(sh: Shared, r: Request, t: nat, c: Commit, draft: Option<Commit>)
    requires c.parent == Lookup(sh.refs, Local(r.actor))
    ensures var p, q := Carrying(sh, r, c, draft, CheckSources), Carrying(sh, r, c, draft, Publish);
      && StepEnabled(JournaledState(sh, r, c), p)
      && StepResult(JournaledState(sh, r, c), p, t) == (JournaledState(sh, r, c), q)
      && StepEnabled(JournaledState(sh, r, c), q)
      && StepResult(JournaledState(sh, r, c), q, t) == (SwappedState(sh, r, c), Carrying(sh, r, c, draft, Reload))
  {
  }

  lemma ReloadStep(sh: Shared, r: Request, t: nat, c: Commit, draft: Option<Commit>)
    requires MayStart(sh, r) && Extends(sh.refs, r, c)
    ensures var p := Carrying(sh, r, c, draft, Reload);
      && StepEnabled(SwappedState(sh, r, c), p)
      && StepResult(SwappedState(sh, r, c), p, t) == (SwappedState(sh, r, c), Reloaded(sh, r, c))
  {
    hide Loadable, Public, Checked, SigningRoot, Tip, Stream, Resumes;
    AppendLoads(sh.refs, r, c);
    OnOwnStream(c);
  }

  lemma OnOwnStream(c: Commit)
    ensures c in Stream(Some(c))
  {
  }

  lemma FinishStep(sh: Shared, r: Request, t: nat, c: Commit)
    ensures var p := Reloaded(sh, r, c);
      && StepEnabled(SwappedState(sh, r, c), p)
      && StepResult(SwappedState(sh, r, c), p, t).0 == PublishedState(sh, r, c)
      && StepResult(SwappedState(sh, r, c), p, t).1.pc == Done
  {
    var end := PublishedState(sh, r, c).intents[KeyFor(r)];
    assert SwappedState(sh, r, c).intents[KeyFor(r) := end] == sh.intents[KeyFor(r) := end];
  }

  /** Check the sources, swap the ref, reload, finish. */
  lemma Publishes(sh: Shared, r: Request, t: nat, c: Commit, draft: Option<Commit>) returns (p: Proc)
    requires MayStart(sh, r) && Extends(sh.refs, r, c)
    ensures p.pc == Done
    ensures
      Reaches(JournaledState(sh, r, c), Carrying(sh, r, c, draft, CheckSources), t, 4, PublishedState(sh, r, c), p)
  {
    hide MayStart, Reaches, StepResult, StepEnabled, JournaledState, Carrying, SwappedState, PublishedState, Reloaded,
         ValidCommit;
    var end := PublishedState(sh, r, c);
    FinishStep(sh, r, t, c);
    p := StepResult(SwappedState(sh, r, c), Reloaded(sh, r, c), t).1;
    ReachesHere(end, p, t);
    StepFirst(SwappedState(sh, r, c), Reloaded(sh, r, c), t, 0, end, p);
    ReloadStep(sh, r, t, c, draft);
    StepFirst(SwappedState(sh, r, c), Carrying(sh, r, c, draft, Reload), t, 1, end, p);
    SwapSteps(sh, r, t, c, draft);
    StepFirst(JournaledState(sh, r, c), Carrying(sh, r, c, draft, Publish), t, 2, end, p);
    StepFirst(JournaledState(sh, r, c), Carrying(sh, r, c, draft, CheckSources), t, 3, end, p);
  }

  /** From its start to the check of its sources. */
  lemma ReachesCheck(sh: Shared, r: Request, t: nat) returns (n: nat, draft: Option<Commit>)
    requires MayStart(sh, r)
    ensures var c := Chosen(sh, r, t);
      Reaches(sh, Started(r), t, n, JournaledState(sh, r, c), Carrying(sh, r, c, draft, CheckSources))
  {
    hide *;
    StartCoheres(sh, r);
    StartLoads(sh, r);
    ReadsEvidence(sh, r, t);
    var m;
    m, draft := Journals(sh, r, t);
    var c := Chosen(sh, r, t);
    ReachesOn(sh, Started(r), t, 8, sh, Informed(sh, r, Decide), m,
              JournaledState(sh, r, c), Carrying(sh, r, c, draft, CheckSources));
    n := 8 + m;
  }

  lemma StartLoads(sh: Shared, r: Request)
    requires MayStart(sh, r)
    ensures Loadable(sh.refs)
  {
  }

  /** An undisturbed attempt that may start, first or after a crash at any point, runs to
      its end: the actor's stream is extended by exactly one artifact, which has the
      request and is the journaled candidate if there was one; no other ref moves; and the
      intent is published with it. */
  lemma AttemptCompletes(sh: Shared, r: Request, t: nat) returns (n: nat, sh': Shared, p: Proc, c: Commit)
    requires MayStart(sh, r)
    ensures Reaches(sh, Started(r), t, n, sh', p) && p.pc == Done
    ensures Stream(Lookup(sh'.refs, Local(r.actor))) == Stream(Lookup(sh.refs, Local(r.actor))) + [c]
    ensures forall s: Source :: s != Local(r.actor) ==> Lookup(sh'.refs, s) == Lookup(sh.refs, s)
    ensures c.artifact.request == r
    ensures KeyFor(r) in sh.intents && sh.intents[KeyFor(r)].candidate.Some? ==>
      sh.intents[KeyFor(r)].candidate == Some(c)
    ensures KeyFor(r) in sh'.intents
    ensures sh'.intents[KeyFor(r)] == Intent(r, c.parent, Published, Some(c), Some(c.artifact))
    ensures forall k :: k != KeyFor(r) ==> Lookup(sh'.intents, k) == Lookup(sh.intents, k)
  {
    hide MayStart, Reaches, Candidate, Carrying, ValidCommit;
    c := Chosen(sh, r, t);
    ChosenExtends(sh, r, t);
    var draft, m;
    m, draft := ReachesCheck(sh, r, t);
    p := Publishes(sh, r, t, c, draft);
    sh' := PublishedState(sh, r, c);
    n := m + 4;
    ReachesOn(sh, Started(r), t, m, JournaledState(sh, r, c), Carrying(sh, r, c, draft, CheckSources), 4, sh', p);
  }

  // ---------------------------------------------------------------- an artifact already accepted

  /** The key is already on the accepted stream, with the request, as the intent has it. */
  ghost predicate AlreadyAccepted(sh: Shared, r: Request, w: Commit) {
    && Loadable(sh.refs) && Public(sh.refs, KeyFor(r)) == Some(w) && w.artifact.request == r
    && (KeyFor(r) in sh.intents ==>
          var i := sh.intents[KeyFor(r)];
          && i.request == r && IntentSound(sh, KeyFor(r), i) && i.expected == w.parent
          && (i.candidate == None || i.candidate == Some(w)))
  }

  lemma AcceptedCoheres(sh: Shared, r: Request, w: Commit)
    requires AlreadyAccepted(sh, r, w)
    ensures Coheres(sh.objects, sh.refs, KeyFor(r), Lookup(sh.intents, KeyFor(r)))
  {
    hide Lineage, Accepted, OnAcceptedStream;
    TipCovers(sh.refs, r.actor);
    ValidOnStream(w, Tip(sh.refs, r.actor), r.actor);
  }

  /** What finishing leaves: an unfinished intent published with the accepted commit. */
  function FinishedState(sh: Shared, r: Request, w: Commit): Shared {
    if KeyFor(r) in sh.intents && sh.intents[KeyFor(r)].stage != Published
    then Save(sh, KeyFor(r), Intent(r, w.parent, Published, Some(w), Some(w.artifact)))
    else sh
  }

  lemma DecideFinishes(sh: Shared, r: Request, t: nat, w: Commit) returns (n: nat, p: Proc)
    requires AlreadyAccepted(sh, r, w)
    ensures Reaches(sh, Informed(sh, r, Decide), t, n, FinishedState(sh, r, w), p) && p.pc == Done
  {
    hide Loadable, Public, Reaches, Bound, OnAcceptedStream, Coheres;
    var key, decide := KeyFor(r), Informed(sh, r, Decide);
    assert StepEnabled(sh, decide);
    var (sh1, p1) := StepResult(sh, decide, t);
    if key in sh.intents && sh.intents[key].stage != Published {
      var (sh2, p2) := StepResult(sh, p1, t);
      assert StepEnabled(sh, p1) && sh2 == FinishedState(sh, r, w);
      ReachesHere(sh2, p2, t);
      StepFirst(sh, p1, t, 0, sh2, p2);
      StepFirst(sh, decide, t, 1, sh2, p2);
      n, p := 2, p2;
    } else {
      ReachesHere(sh1, p1, t);
      StepFirst(sh, decide, t, 0, sh1, p1);
      n, p := 1, p1;
    }
  }

  /** An undisturbed attempt whose key is already accepted moves no ref: it publishes an
      unfinished intent with the accepted artifact, and otherwise changes nothing. */
  lemma AcceptedCompletes(sh: Shared, r: Request, t: nat, w: Commit) returns (n: nat, sh': Shared, p: Proc)
    requires AlreadyAccepted(sh, r, w)
    ensures Reaches(sh, Started(r), t, n, sh', p) && p.pc == Done
    ensures sh'.refs == sh.refs && sh'.objects == sh.objects
    ensures forall k :: k != KeyFor(r) ==> Lookup(sh'.intents, k) == Lookup(sh.intents, k)
    ensures KeyFor(r) in sh.intents <==> KeyFor(r) in sh'.intents
    ensures KeyFor(r) in sh.intents ==>
      sh'.intents[KeyFor(r)] == if sh.intents[KeyFor(r)].stage == Published then sh.intents[KeyFor(r)]
                                else Intent(r, w.parent, Published, Some(w), Some(w.artifact))
  {
    hide Reaches, Loadable, Public, Coheres, IntentSound;
    AcceptedCoheres(sh, r, w);
    ReadsEvidence(sh, r, t);
    var m;
    m, p := DecideFinishes(sh, r, t, w);
    sh' := FinishedState(sh, r, w);
    ReachesOn(sh, Started(r), t, 8, sh, Informed(sh, r, Decide), m, sh', p);
    n := 8 + m;
  }

  // ---------------------------------------------------------------- imports

  function StartedImport(incoming: map<Actor, Commit>): Proc {
    Proc(Import(incoming), Loading, map[], false, false, false, None, None, None)
  }

  /** The artifacts of the incoming streams. */
  ghost function Incoming(incoming: map<Actor, Commit>): set<Artifact> {
    set a, c | a in incoming && c in Stream(Some(incoming[a])) :: c.artifact
  }

  /** Every incoming actor's imported ref names the incoming commit, no other ref moved,
      and what is accepted has grown by exactly the incoming artifacts. */
  ghost predicate Imports(refs: Refs, refs': Refs, incoming: map<Actor, Commit>) {
    && (forall a :: a in incoming ==> Lookup(refs', Imported(a)) == Some(incoming[a]))
    && (forall s: Source :: (s.Local? || s.actor !in incoming) ==> Lookup(refs', s) == Lookup(refs, s))
    && Accepted(refs') == Accepted(refs) + Incoming(incoming)
  }

  lemma PromotedImports(sh: Shared, h: Refs, incoming: map<Actor, Commit>)
    requires Promotable(h, incoming)
    requires forall a :: a in incoming ==> Lookup(sh.refs, Imported(a)) == Lookup(h, Imported(a))
    ensures Imports(sh.refs, Promoted(sh.refs, incoming), incoming)
  {
    hide Promotable, Accepted, Promoted;
    var refs' := Promoted(sh.refs, incoming);
    forall s: Source ensures Continues(sh.refs, refs', s) {
      PromotionContinues(sh, h, incoming, s);
    }
    AcceptedGrows(sh.refs, refs');
    forall x | x in Incoming(incoming) ensures x in Accepted(refs') {
      IncomingAccepted(sh.refs, incoming, x);
    }
    forall x | x in Accepted(refs') ensures x in Accepted(sh.refs) + Incoming(incoming) {
      AcceptedIncoming(sh.refs, incoming, x);
    }
  }

  lemma IncomingAccepted(refs: Refs, incoming: map<Actor, Commit>, x: Artifact)
    requires x in Incoming(incoming)
    ensures x in Accepted(Promoted(refs, incoming))
  {
    var a, c :| a in incoming && c in Stream(Some(incoming[a])) && c.artifact == x;
    assert Imported(a) in Promoted(refs, incoming) && Promoted(refs, incoming)[Imported(a)] == incoming[a];
  }

  lemma AcceptedIncoming(refs: Refs, incoming: map<Actor, Commit>, x: Artifact)
    requires x in Accepted(Promoted(refs, incoming))
    ensures x in Accepted(refs) || x in Incoming(incoming)
  {
    var refs' := Promoted(refs, incoming);
    var s, c :| s in refs' && c in Stream(Some(refs'[s])) && c.artifact == x;
    if !(s.Imported? && s.actor in incoming) {
      assert Lookup(refs', s) == Lookup(refs, s);
    }
  }

  /** An undisturbed import of promotable streams into a repository that loads. */
  lemma ImportCompletes(sh: Shared, incoming: map<Actor, Commit>, t: nat) returns (sh': Shared, p: Proc)
    requires Loadable(sh.refs) && Promotable(sh.refs, incoming)
    ensures Reaches(sh, StartedImport(incoming), t, 4, sh', p) && p.pc == Done
    ensures Imports(sh.refs, sh'.refs, incoming) && sh'.intents == sh.intents
    ensures forall a, c :: a in incoming && c in Stream(Some(incoming[a])) ==> c in sh'.objects
  {
    hide Reaches, Loadable, Promotable, Imports, Promoted;
    var p0 := StartedImport(incoming);
    var (sh1, p1) := StepResult(sh, p0, t);
    var (sh2, p2) := StepResult(sh1, p1, t);
    var (sh3, p3) := StepResult(sh2, p2, t);
    var (sh4, p4) := StepResult(sh3, p3, t);
    PromotedImports(sh3, sh.refs, incoming);
    sh', p := sh4, p4;
    ReachesHere(sh4, p4, t);
    StepFirst(sh3, p3, t, 0, sh4, p4);
    StepFirst(sh2, p2, t, 1, sh4, p4);
    StepFirst(sh1, p1, t, 2, sh4, p4);
    StepFirst(sh, p0, t, 3, sh4, p4);
  }

  /** In every run each promotion has this effect, whatever happened since it was checked. */
  lemma PromotionImports(states: seq<State>, actions: seq<Action>, n: nat, pid: Pid)
    requires Run(states, actions) && n < |actions| && actions[n].Step? && actions[n].pid == pid
    requires pid in states[n].procs && states[n].procs[pid].pc == Promote
    ensures states[n].procs[pid].role.Import?
    ensures Imports(states[n].sh.refs, states[n + 1].sh.refs, states[n].procs[pid].role.incoming)
    ensures pid in states[n + 1].procs && states[n + 1].procs[pid].pc == Done
  {
    hide Imports, Promotable, Promoted, RefsSound, IntentsSound, Journaled, ProcSound;
    RunKeeps(states, actions, n);
    assert Happens(states, actions, n);
    var sh, p := states[n].sh, states[n].procs[pid];
    assert ProcSound(sh, pid, p);
    PromoteIsImport(sh, pid, p);
    PromotedImports(sh, p.h, p.role.incoming);
  }
}
