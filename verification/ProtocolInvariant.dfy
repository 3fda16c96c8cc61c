/** What every action of the protocol keeps. */
module ProtocolInvariant {
  import opened Basics
  import opened Streams
  import opened Protocol

  // ---------------------------------------------------------------- the invariant

  ghost predicate StreamSound(objects: set<Commit>, actor: Actor, head: Commit) {
    && ValidCommit(head, actor)
    && DistinctOperations(Stream(Some(head)))
    && forall c :: c in Stream(Some(head)) ==> c in objects
  }

  ghost predicate RefsSound(sh: Shared) {
    forall r :: r in sh.refs ==> StreamSound(sh.objects, r.actor, sh.refs[r])
  }

  /** The commit lies on an accepted stream of the actor. */
  ghost predicate OnAcceptedStream(refs: Refs, actor: Actor, c: Commit) {
    || c in Stream(Lookup(refs, Local(actor)))
    || c in Stream(Lookup(refs, Imported(actor)))
  }

  /** `c` carries exactly the bound request on top of the bound expected head. */
  ghost predicate Bound(i: Intent, c: Commit) {
    && c.artifact.request == i.request
    && c.parent == i.expected
    && ValidCommit(c, i.request.actor)
  }

  ghost predicate IntentSound(sh: Shared, key: Key, i: Intent) {
    && Decodes(key, i)
    && (i.candidate.Some? ==> Bound(i, i.candidate.value) && i.candidate.value in sh.objects)
    && (i.stage == Published ==> OnAcceptedStream(sh.refs, key.actor, i.candidate.value))
  }

  ghost predicate IntentsSound(sh: Shared) {
    forall k :: k in sh.intents ==> IntentSound(sh, k, sh.intents[k])
  }

  /** Every commit the writers put on a local stream is the journaled candidate of its key. */
  ghost predicate Journaled(base: Refs, sh: Shared) {
    forall a: Actor, c :: c in Stream(Lookup(sh.refs, Local(a))) ==> JournaledAt(base, sh.intents, a, c)
  }

  ghost predicate JournaledAt(base: Refs, intents: map<Key, Intent>, a: Actor, c: Commit) {
    || c in Stream(Lookup(base, Local(a)))
    || (var k := Key(a, c.artifact.request.operation);
        k in intents && intents[k].candidate == Some(c))
  }

  /** The loaded chain is the local stream, and the key is unused on it. */
  ghost predicate Rooted(h: Refs, r: Request) {
    && Loadable(h)
    && Tip(h, r.actor) == Lookup(h, Local(r.actor))
    && !Uses(Stream(Lookup(h, Local(r.actor))), r.operation)
    && Checked(h, r)
  }

  ghost predicate InMemory(sh: Shared, p: Proc) {
    Lookup(sh.intents, KeyOf(p.role)) == p.intent
  }

  ghost predicate Working(p: Proc, stage: Stage)
    requires p.role.Mutation?
  {
    && Rooted(p.h, p.role.request)
    && p.intent.Some?
    && p.intent.value.stage == stage
    && p.intent.value.request == p.role.request
    && p.intent.value.expected == Lookup(p.h, Local(p.role.request.actor))
  }

  ghost predicate Drafted(p: Proc) {
    p.intent.Some? && p.draft.Some? && Bound(p.intent.value, p.draft.value)
  }

  /** Evidence read under the lock. */
  ghost predicate Evident(sh: Shared, p: Proc) {
    && Loadable(p.h) && InMemory(sh, p)
    && Coheres(sh.objects, p.h, KeyOf(p.role), p.intent)
  }

  /** The compare-and-swap to the journaled candidate has happened. */
  ghost predicate Swapped(sh: Shared, p: Proc)
    requires p.role.Mutation?
  {
    && InMemory(sh, p) && p.intent.Some? && p.intent.value.candidate.Some?
    && p.intent.value.stage == Publishing
    && p.intent.value.candidate.value in Stream(Lookup(sh.refs, Local(p.role.request.actor)))
  }

  /** The accepted artifact of an unfinished intent is at hand. */
  ghost predicate Finishing(sh: Shared, p: Proc)
    requires p.role.Mutation?
  {
    && InMemory(sh, p) && Drafted(p)
    && p.intent.value.stage != Published
    && (p.intent.value.candidate == None || p.intent.value.candidate == p.draft)
    && OnAcceptedStream(sh.refs, p.role.request.actor, p.draft.value)
  }

  ghost predicate WriterSound(sh: Shared, p: Proc)
    requires p.role.Mutation?
  {
    match p.pc
    case Loading => true
    case Probe1 => Loadable(p.h)
    case Read1 => Loadable(p.h)
    case Prepare => InMemory(sh, p) && p.intent == None && Rooted(p.h, p.role.request)
    case Sign => InMemory(sh, p) && Working(p, Prepared)
    case Write => InMemory(sh, p) && Working(p, Prepared) && Drafted(p)
    case Journal =>
      InMemory(sh, p) && Working(p, Prepared) && Drafted(p) && p.draft.value in sh.objects
    case CheckSources => InMemory(sh, p) && Working(p, Publishing)
    case Publish => InMemory(sh, p) && Working(p, Publishing)
    case Reload => Swapped(sh, p)
    case Finish => Finishing(sh, p)
    case Done => true
    case Copy => false
    case Promote => false
    case _ => Evident(sh, p)
  }

  ghost predicate ImporterSound(sh: Shared, p: Proc)
    requires p.role.Import?
  {
    match p.pc
    case Loading => true
    case Done => true
    case CheckSources => Promotable(p.h, p.role.incoming)
    case Copy => Promotable(p.h, p.role.incoming)
    case Promote =>
      && Promotable(p.h, p.role.incoming)
      && forall a, c :: a in p.role.incoming && c in Stream(Some(p.role.incoming[a])) ==>
           c in sh.objects
    case _ => false
  }

  predicate ReadOnlyPc(pc: Pc) {
    pc in {Loading, Probe1, Read1, Read2, Probe2, Refs2, Read3, Probe3, Decide, Done}
  }

  ghost predicate ProcSound(sh: Shared, pid: Pid, p: Proc) {
    match p.role
    case Status(_) =>
      && ReadOnlyPc(p.pc)
      && (p.pc != Loading ==> Loadable(p.h))
      && (p.answer.Some? ==> p.pc == Done && p.answer == Some(Classify(p)))
    case Mutation(_) =>
      && Lookup(sh.locks, KeyOf(p.role)) == Some(pid)
      && (p.pc != Loading ==> Observed(p.h, sh.refs))
      && WriterSound(sh, p)
    case Import(_) => ImporterSound(sh, p)
  }

  ghost predicate Inv(base: Refs, s: State) {
    && RefsSound(s.sh)
    && IntentsSound(s.sh)
    && Journaled(base, s.sh)
    && forall pid :: pid in s.procs ==> ProcSound(s.sh, pid, s.procs[pid])
  }

  // ---------------------------------------------------------------- growth

  /** Every accepted stream keeps its prefix, objects and intents are never removed,
      and an intent keeps its binding while its stage and candidate only move forward. */
  ghost predicate Grows(sh: Shared, sh': Shared) {
    && Observed(sh.refs, sh'.refs)
    && sh.objects <= sh'.objects
    && forall k :: k in sh.intents ==> k in sh'.intents && Advances(sh.intents[k], sh'.intents[k])
  }

  ghost predicate Continues(refs: Refs, refs': Refs, s: Source) {
    Stream(Lookup(refs, s)) <= Stream(Lookup(refs', s))
  }

  /** Every source observed earlier is a prefix of that source now. */
  ghost predicate Observed(h: Refs, refs: Refs) {
    forall s: Source :: Continues(h, refs, s)
  }

  function Rank(s: Stage): nat {
    match s case Prepared => 0 case Publishing => 1 case Published => 2
  }

  predicate Advances(i: Intent, i': Intent) {
    && i'.request == i.request
    && i'.expected == i.expected
    && Rank(i.stage) <= Rank(i'.stage)
    && (i.candidate.Some? ==> i'.candidate == i.candidate)
    && (i.result.Some? ==> i'.result == i.result)
  }

  lemma ObservedTransitive(a: Refs, b: Refs, c: Refs)
    requires Observed(a, b) && Observed(b, c)
    ensures Observed(a, c)
  {
    forall s: Source ensures Continues(a, c, s) {
      assert Continues(a, b, s) && Continues(b, c, s);
    }
  }

  lemma GrowsTransitive(a: Shared, b: Shared, c: Shared)
    requires Grows(a, b) && Grows(b, c)
    ensures Grows(a, c)
  {
    forall k | k in a.intents ensures k in c.intents && Advances(a.intents[k], c.intents[k]) {
      assert k in b.intents;
    }
    ObservedTransitive(a.refs, b.refs, c.refs);
  }

  // ---------------------------------------------------------------- chains

  /** A loaded tip covers both sources of its actor. */
  lemma TipCovers(refs: Refs, actor: Actor)
    requires Loadable(refs)
    ensures Stream(Lookup(refs, Local(actor))) <= Stream(Tip(refs, actor))
    ensures Stream(Lookup(refs, Imported(actor))) <= Stream(Tip(refs, actor))
    ensures ValidHead(Tip(refs, actor), actor)
    ensures DistinctOperations(Stream(Tip(refs, actor)))
  {
  }

  /** Appending an unused operation keeps operations distinct. */
  lemma AppendKeepsDistinct(s: seq<Commit>, c: Commit)
    requires DistinctOperations(s) && !Uses(s, c.artifact.request.operation)
    ensures DistinctOperations(s + [c])
  {
  }

  /** A signed candidate extends the loaded local stream. */
  lemma CandidateBound(h: Refs, r: Request, timestamp: nat)
    requires Rooted(h, r)
    ensures ValidCommit(Candidate(h, r, timestamp), r.actor)
  {
    TipCovers(h, r.actor);
    SequenceIsPosition(Tip(h, r.actor), r.actor);
  }
}
