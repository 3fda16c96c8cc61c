/** Every action of the protocol keeps the invariant and only grows durable state. */
module ProtocolSteps {
  import opened Basics
  import opened Streams
  import opened Protocol
  import opened ProtocolInvariant

  ghost predicate Sound(base: Refs, sh: Shared) {
    RefsSound(sh) && IntentsSound(sh) && Journaled(base, sh)
  }

  // ---------------------------------------------------------------- durable writes

  lemma IntentStaysSound(sh: Shared, sh': Shared, key: Key, i: Intent)
    requires IntentSound(sh, key, i) && sh.objects <= sh'.objects
    requires Continues(sh.refs, sh'.refs, Local(key.actor))
    requires Continues(sh.refs, sh'.refs, Imported(key.actor))
    ensures IntentSound(sh', key, i)
  {
  }

  lemma IntentsStaySound(sh: Shared, sh': Shared)
    requires IntentsSound(sh) && sh.objects <= sh'.objects && sh'.intents == sh.intents
    requires Observed(sh.refs, sh'.refs)
    ensures IntentsSound(sh')
  {
    forall k | k in sh'.intents ensures IntentSound(sh', k, sh'.intents[k]) {
      IntentStaysSound(sh, sh', k, sh.intents[k]);
    }
  }

  lemma JournalStays(base: Refs, sh: Shared, sh': Shared)
    requires Journaled(base, sh)
    requires forall a: Actor :: Lookup(sh'.refs, Local(a)) == Lookup(sh.refs, Local(a))
    requires forall k :: k in sh.intents ==> k in sh'.intents && Advances(sh.intents[k], sh'.intents[k])
    ensures Journaled(base, sh')
  {
  }

  /** Saving an intent that advances the stored one. */
  lemma SaveKeeps(base: Refs, sh: Shared, key: Key, i: Intent)
    requires Sound(base, sh) && IntentSound(sh, key, i)
    requires key in sh.intents ==> Advances(sh.intents[key], i)
    ensures Sound(base, Save(sh, key, i)) && Grows(sh, Save(sh, key, i))
  {
    var sh' := Save(sh, key, i);
    forall k | k in sh'.intents ensures IntentSound(sh', k, sh'.intents[k]) {
      IntentStaysSound(sh, sh', k, if k == key then i else sh.intents[k]);
    }
    JournalStays(base, sh, sh');
  }

  lemma ObjectsKeep(base: Refs, sh: Shared, more: set<Commit>)
    requires Sound(base, sh)
    ensures Sound(base, sh.(objects := sh.objects + more))
    ensures Grows(sh, sh.(objects := sh.objects + more))
  {
  }

  /** Compare-and-swap to a journaled candidate whose parent is the expected head. */
  lemma PublishKeeps(base: Refs, sh: Shared, actor: Actor, c: Commit)
    requires Sound(base, sh)
    requires ValidCommit(c, actor) && c in sh.objects
    requires c.parent == Lookup(sh.refs, Local(actor))
    requires !Uses(Stream(c.parent), c.artifact.request.operation)
    requires JournaledAt(base, sh.intents, actor, c)
    ensures Sound(base, sh.(refs := sh.refs[Local(actor) := c]))
    ensures Grows(sh, sh.(refs := sh.refs[Local(actor) := c]))
  {
    var sh' := sh.(refs := sh.refs[Local(actor) := c]);
    assert RefsSound(sh') by {
      ExtensionSound(sh, actor, c);
    }
    ExtensionContinues(sh.refs, actor, c);
    IntentsStaySound(sh, sh');
    ExtensionJournaled(base, sh, sh', actor, c);
  }

  lemma ExtensionContinues(refs: Refs, actor: Actor, c: Commit)
    requires c.parent == Lookup(refs, Local(actor))
    ensures Observed(refs, refs[Local(actor) := c])
  {
  }

  lemma ExtensionSound(sh: Shared, actor: Actor, c: Commit)
    requires RefsSound(sh)
    requires ValidCommit(c, actor) && c in sh.objects
    requires c.parent == Lookup(sh.refs, Local(actor))
    requires !Uses(Stream(c.parent), c.artifact.request.operation)
    ensures StreamSound(sh.objects, actor, c)
  {
  }

  lemma ExtensionJournaled(base: Refs, sh: Shared, sh': Shared, actor: Actor, c: Commit)
    requires Journaled(base, sh) && JournaledAt(base, sh.intents, actor, c)
    requires c.parent == Lookup(sh.refs, Local(actor))
    requires sh' == sh.(refs := sh.refs[Local(actor) := c])
    ensures Journaled(base, sh')
  {
  }

  /** A promotion moves each imported ref to a stream that contains its old value. */
  lemma PromotionContinues(sh: Shared, h: Refs, incoming: map<Actor, Commit>, s: Source)
    requires Promotable(h, incoming)
    requires forall a :: a in incoming ==> Lookup(sh.refs, Imported(a)) == Lookup(h, Imported(a))
    ensures Continues(sh.refs, Promoted(sh.refs, incoming), s)
  {
    var refs' := Promoted(sh.refs, incoming);
    if s.Imported? && s.actor in incoming {
      if s in sh.refs {
        OnStreamIsPrefix(sh.refs[s], Some(incoming[s.actor]));
      }
    } else {
      assert Lookup(refs', s) == Lookup(sh.refs, s);
    }
  }

  lemma PromotedSound(sh: Shared, h: Refs, incoming: map<Actor, Commit>, r: Source)
    requires RefsSound(sh) && Promotable(h, incoming) && r in Promoted(sh.refs, incoming)
    requires forall a, c :: a in incoming && c in Stream(Some(incoming[a])) ==> c in sh.objects
    ensures StreamSound(sh.objects, r.actor, Promoted(sh.refs, incoming)[r])
  {
    hide Lineage, Accepted;
    if r.Imported? && r.actor in incoming {
      assert r in Promoted(h, incoming) && Promoted(h, incoming)[r] == incoming[r.actor];
    } else {
      assert Lookup(Promoted(sh.refs, incoming), r) == Lookup(sh.refs, r);
    }
  }

  lemma PromoteKeeps(base: Refs, sh: Shared, h: Refs, incoming: map<Actor, Commit>)
    requires Sound(base, sh) && Promotable(h, incoming)
    requires forall a :: a in incoming ==> Lookup(sh.refs, Imported(a)) == Lookup(h, Imported(a))
    requires forall a, c :: a in incoming && c in Stream(Some(incoming[a])) ==> c in sh.objects
    ensures Sound(base, sh.(refs := Promoted(sh.refs, incoming)))
    ensures Grows(sh, sh.(refs := Promoted(sh.refs, incoming)))
  {
    hide IntentsSound, Journaled, Promotable, Promoted, StreamSound, Continues;
    var sh' := sh.(refs := Promoted(sh.refs, incoming));
    forall s: Source ensures Continues(sh.refs, sh'.refs, s) {
      PromotionContinues(sh, h, incoming, s);
    }
    forall r | r in sh'.refs ensures StreamSound(sh.objects, r.actor, sh'.refs[r]) {
      PromotedSound(sh, h, incoming, r);
    }
    IntentsStaySound(sh, sh');
    forall a: Actor ensures Lookup(sh'.refs, Local(a)) == Lookup(sh.refs, Local(a)) {
    }
    JournalStays(base, sh, sh');
  }

  // ---------------------------------------------------------------- writers

  /** Accepted evidence on the loaded chain is bound to the intent it matches. */
  lemma PublicBound(sh: Shared, p: Proc)
    requires p.role.Mutation? && Loadable(p.h)
    requires p.intent.Some? && Coheres(sh.objects, p.h, KeyOf(p.role), p.intent)
    requires Public(p.h, KeyOf(p.role)).Some?
    ensures Bound(p.intent.value, Public(p.h, KeyOf(p.role)).value)
    ensures p.intent.value.candidate in {None, Public(p.h, KeyOf(p.role))}
  {
    var key := KeyOf(p.role);
    TipCovers(p.h, key.actor);
    ValidOnStream(Public(p.h, key).value, Tip(p.h, key.actor), key.actor);
  }

  /** What is accepted in a loaded history is accepted now. */
  lemma PublicAccepted(refs: Refs, h: Refs, key: Key)
    requires Public(h, key).Some? && Observed(h, refs)
    ensures OnAcceptedStream(refs, key.actor, Public(h, key).value)
  {
    assert Continues(h, refs, Local(key.actor)) && Continues(h, refs, Imported(key.actor));
  }

  /** An accepted artifact lets an unfinished attempt finish. */
  lemma DecideFound(sh: Shared, p: Proc)
    requires p.role.Mutation? && Evident(sh, p) && Observed(p.h, sh.refs)
    requires Public(p.h, KeyOf(p.role)).Some?
    requires p.intent.Some? && p.intent.value.stage != Published
    ensures Finishing(sh, p.(draft := Public(p.h, KeyOf(p.role)), pc := Finish))
  {
    PublicBound(sh, p);
    PublicAccepted(sh.refs, p.h, KeyOf(p.role));
  }

  /** Without one the attempt goes on where the intent stands. */
  lemma DecideAppend(sh: Shared, p: Proc)
    requires p.role.Mutation? && Evident(sh, p) && MayAppend(p)
    requires Public(p.h, KeyOf(p.role)) == None
    requires p.intent.Some? ==> p.intent.value.request == p.role.request
    ensures Rooted(p.h, p.role.request)
    ensures p.intent.Some? ==>
      Working(p, if p.intent.value.candidate == None then Prepared else Publishing)
  {
  }

  lemma FinishKeeps(base: Refs, sh: Shared, p: Proc)
    requires Sound(base, sh) && p.role.Mutation? && Finishing(sh, p)
    ensures var sh' := Save(sh, KeyOf(p.role), Finished(p.intent.value, p.draft.value));
      Sound(base, sh') && Grows(sh, sh')
  {
    var key, i := KeyOf(p.role), p.intent.value;
    var i' := Finished(i, p.draft.value);
    assert key in sh.intents && sh.intents[key] == i;
    assert IntentSound(sh, key, i);
    assert p.draft.value in sh.objects by {
      assert RefsSound(sh);
    }
    SaveKeeps(base, sh, key, i');
  }

  /** The conclusion about one action of a process: the shared state stays sound and
      grows, the process stays sound, and no other key's intent or lock is touched. */
  ghost predicate StepOk(base: Refs, sh: Shared, pid: Pid, p: Proc, sh': Shared, p': Proc) {
    && Sound(base, sh') && Grows(sh, sh')
    && ProcSound(sh', pid, p')
    && sh'.locks == sh.locks
    && forall k :: Lookup(sh'.intents, k) != Lookup(sh.intents, k) ==>
         p.role.Mutation? && k == KeyOf(p.role)
  }

  lemma GrowsReflexive(sh: Shared)
    ensures Grows(sh, sh) && Observed(sh.refs, sh.refs)
  {
  }

  /** An action that writes nothing only has to leave its own process sound. */
  lemma NoWrite(base: Refs, sh: Shared, pid: Pid, p: Proc, p': Proc)
    requires Sound(base, sh) && ProcSound(sh, pid, p')
    ensures StepOk(base, sh, pid, p, sh, p')
  {
  }

  lemma WriterReads(base: Refs, sh: Shared, pid: Pid, p: Proc, t: nat)
    requires Sound(base, sh) && p.role.Mutation? && ProcSound(sh, pid, p) && StepEnabled(sh, p)
    requires p.pc in {Loading, Probe1, Read1, Read2, Probe2, Refs2, Read3, Probe3, CheckSources}
    ensures StepOk(base, sh, pid, p, StepResult(sh, p, t).0, StepResult(sh, p, t).1)
  {
    hide Sound, Loadable, Coheres, Rooted;
    GrowsReflexive(sh);
  }

  lemma WriterDecides(base: Refs, sh: Shared, pid: Pid, p: Proc, t: nat)
    requires Sound(base, sh) && p.role.Mutation? && ProcSound(sh, pid, p) && StepEnabled(sh, p)
    requires p.pc == Decide
    ensures StepOk(base, sh, pid, p, StepResult(sh, p, t).0, StepResult(sh, p, t).1)
  {
    hide Sound, StepOk, Decided, StepEnabled;
    assert StepResult(sh, p, t) == (sh, Decided(p));
    DecidedSound(sh, p);
    NoWrite(base, sh, pid, p, Decided(p));
  }

  lemma DecidedSound(sh: Shared, p: Proc)
    requires p.role.Mutation? && p.pc == Decide && Evident(sh, p) && Observed(p.h, sh.refs)
    requires StepEnabled(sh, p)
    ensures WriterSound(sh, Decided(p)) && Decided(p).h == p.h && Decided(p).role == p.role
  {
    hide Rooted, Finishing, Observed, MayAppend, Coheres, Loadable;
    if Public(p.h, KeyOf(p.role)) == None {
      DecideAppend(sh, p);
      if p.intent.Some? {
        var stage := if p.intent.value.candidate == None then Prepared else Publishing;
        assert Working(Decided(p), stage) by {
          assert Working(p, stage);
        }
      }
    } else if p.intent.Some? && p.intent.value.stage != Published {
      DecideFound(sh, p);
    }
  }

  lemma WriterPrepares(base: Refs, sh: Shared, pid: Pid, p: Proc, t: nat)
    requires Sound(base, sh) && p.role.Mutation? && ProcSound(sh, pid, p)
    requires p.pc == Prepare
    ensures StepOk(base, sh, pid, p, StepResult(sh, p, t).0, StepResult(sh, p, t).1)
  {
    hide Rooted, Observed, RefsSound, Journaled;
    var key := KeyOf(p.role);
    var i := Intent(p.role.request, Lookup(p.h, Local(key.actor)), Prepared, None, None);
    SaveKeeps(base, sh, key, i);
  }

  lemma WriterSigns(base: Refs, sh: Shared, pid: Pid, p: Proc, t: nat)
    requires Sound(base, sh) && p.role.Mutation? && ProcSound(sh, pid, p)
    requires p.pc == Sign
    ensures StepOk(base, sh, pid, p, StepResult(sh, p, t).0, StepResult(sh, p, t).1)
  {
    CandidateBound(p.h, p.role.request, t);
    NoWrite(base, sh, pid, p, StepResult(sh, p, t).1);
  }

  lemma WriterWrites(base: Refs, sh: Shared, pid: Pid, p: Proc, t: nat)
    requires Sound(base, sh) && p.role.Mutation? && ProcSound(sh, pid, p)
    requires p.pc == Write
    ensures StepOk(base, sh, pid, p, StepResult(sh, p, t).0, StepResult(sh, p, t).1)
  {
    hide Sound, Rooted;
    ObjectsKeep(base, sh, {p.draft.value});
  }

  lemma WriterJournals(base: Refs, sh: Shared, pid: Pid, p: Proc, t: nat)
    requires Sound(base, sh) && p.role.Mutation? && ProcSound(sh, pid, p)
    requires p.pc == Journal
    ensures StepOk(base, sh, pid, p, StepResult(sh, p, t).0, StepResult(sh, p, t).1)
  {
    hide RefsSound, Journaled, Rooted, Observed, ValidCommit;
    var key := KeyOf(p.role);
    var i := p.intent.value.(stage := Publishing, candidate := p.draft);
    assert IntentSound(sh, key, p.intent.value);
    SaveKeeps(base, sh, key, i);
  }

  lemma WriterPublishes(base: Refs, sh: Shared, pid: Pid, p: Proc, t: nat)
    requires Sound(base, sh) && p.role.Mutation? && ProcSound(sh, pid, p) && StepEnabled(sh, p)
    requires p.pc == Publish
    ensures StepOk(base, sh, pid, p, StepResult(sh, p, t).0, StepResult(sh, p, t).1)
  {
    hide Loadable, Checked, Journaled, RefsSound;
    var key, i := KeyOf(p.role), p.intent.value;
    assert IntentSound(sh, key, i);
    var c := i.candidate.value;
    var sh', p' := sh.(refs := sh.refs[Local(key.actor) := c]), p.(pc := Reload);
    assert StepResult(sh, p, t) == (sh', p');
    assert Sound(base, sh') && Grows(sh, sh') by {
      PublishKeeps(base, sh, key.actor, c);
    }
    assert ProcSound(sh', pid, p') by {
      assert Swapped(sh', p');
      ObservedTransitive(p.h, sh.refs, sh'.refs);
    }
  }

  lemma WriterReloads(base: Refs, sh: Shared, pid: Pid, p: Proc, t: nat)
    requires Sound(base, sh) && p.role.Mutation? && ProcSound(sh, pid, p) && StepEnabled(sh, p)
    requires p.pc == Reload
    ensures StepOk(base, sh, pid, p, StepResult(sh, p, t).0, StepResult(sh, p, t).1)
  {
    hide RefsSound, Journaled, Loadable, ValidCommit, StepOk;
    assert IntentSound(sh, KeyOf(p.role), p.intent.value);
    GrowsReflexive(sh);
    var p' := p.(h := sh.refs, draft := p.intent.value.candidate, pc := Finish);
    assert StepResult(sh, p, t) == (sh, p');
    assert Finishing(sh, p');
    NoWrite(base, sh, pid, p, p');
  }

  lemma WriterFinishes(base: Refs, sh: Shared, pid: Pid, p: Proc, t: nat)
    requires Sound(base, sh) && p.role.Mutation? && ProcSound(sh, pid, p)
    requires p.pc == Finish
    ensures StepOk(base, sh, pid, p, StepResult(sh, p, t).0, StepResult(sh, p, t).1)
  {
    hide Sound, OnAcceptedStream, Bound;
    FinishKeeps(base, sh, p);
    assert StepResult(sh, p, t).1.pc == Done;
  }

  // ---------------------------------------------------------------- readers and importers

  lemma ReaderStaysSound(sh: Shared, pid: Pid, p: Proc, t: nat)
    requires p.role.Status? && ProcSound(sh, pid, p) && StepEnabled(sh, p)
    ensures StepResult(sh, p, t).0 == sh && ProcSound(sh, pid, StepResult(sh, p, t).1)
  {
    hide Classify, Loadable, Coheres;
    if p.pc == Decide {
      assert StepResult(sh, p, t) == (sh, p.(answer := Some(Classify(p)), pc := Done));
      SameClassification(p);
    }
  }

  lemma SameClassification(p: Proc)
    ensures Classify(p.(answer := Some(Classify(p)), pc := Done)) == Classify(p)
  {
  }

  lemma ReaderSteps(base: Refs, sh: Shared, pid: Pid, p: Proc, t: nat)
    requires Sound(base, sh) && p.role.Status? && ProcSound(sh, pid, p) && StepEnabled(sh, p)
    ensures StepOk(base, sh, pid, p, StepResult(sh, p, t).0, StepResult(sh, p, t).1)
  {
    hide Sound, StepOk, StepResult, StepEnabled;
    ReaderStaysSound(sh, pid, p, t);
    NoWrite(base, sh, pid, p, StepResult(sh, p, t).1);
  }

  lemma ImporterCopies(base: Refs, sh: Shared, pid: Pid, p: Proc, t: nat)
    requires Sound(base, sh) && p.role.Import? && ProcSound(sh, pid, p) && p.pc == Copy
    ensures StepOk(base, sh, pid, p, StepResult(sh, p, t).0, StepResult(sh, p, t).1)
  {
    hide Sound, Grows, Promotable, ValidCommit;
    var more := set a, c | a in p.role.incoming && c in Stream(Some(p.role.incoming[a])) :: c;
    ObjectsKeep(base, sh, more);
  }

  lemma ImporterPromotes(base: Refs, sh: Shared, pid: Pid, p: Proc, t: nat)
    requires Sound(base, sh) && p.role.Import? && ProcSound(sh, pid, p) && StepEnabled(sh, p)
    requires p.pc == Promote
    ensures StepOk(base, sh, pid, p, StepResult(sh, p, t).0, StepResult(sh, p, t).1)
  {
    var sh', p' := sh.(refs := Promoted(sh.refs, p.role.incoming)), p.(pc := Done);
    assert StepResult(sh, p, t) == (sh', p');
    assert Sound(base, sh') && Grows(sh, sh') by {
      PromoteKeeps(base, sh, p.h, p.role.incoming);
    }
    assert ProcSound(sh', pid, p');
  }

  lemma ImporterSteps(base: Refs, sh: Shared, pid: Pid, p: Proc, t: nat)
    requires Sound(base, sh) && p.role.Import? && ProcSound(sh, pid, p) && StepEnabled(sh, p)
    ensures StepOk(base, sh, pid, p, StepResult(sh, p, t).0, StepResult(sh, p, t).1)
  {
    hide Sound, Promotable, StepOk;
    if p.pc == Copy {
      ImporterCopies(base, sh, pid, p, t);
    } else if p.pc == Promote {
      ImporterPromotes(base, sh, pid, p, t);
    } else {
      var (sh', p') := StepResult(sh, p, t);
      assert sh' == sh && ProcSound(sh, pid, p');
      NoWrite(base, sh, pid, p, p');
    }
  }

  lemma AnyStep(base: Refs, sh: Shared, pid: Pid, p: Proc, t: nat)
    requires Sound(base, sh) && ProcSound(sh, pid, p) && StepEnabled(sh, p)
    ensures StepOk(base, sh, pid, p, StepResult(sh, p, t).0, StepResult(sh, p, t).1)
  {
    hide Sound, StepOk, StepResult;
    match p.role
    case Status(_) => ReaderSteps(base, sh, pid, p, t);
    case Import(_) => ImporterSteps(base, sh, pid, p, t);
    case Mutation(_) =>
      match p.pc
      case Decide => WriterDecides(base, sh, pid, p, t);
      case Prepare => WriterPrepares(base, sh, pid, p, t);
      case Sign => WriterSigns(base, sh, pid, p, t);
      case Write => WriterWrites(base, sh, pid, p, t);
      case Journal => WriterJournals(base, sh, pid, p, t);
      case Publish => WriterPublishes(base, sh, pid, p, t);
      case Reload => WriterReloads(base, sh, pid, p, t);
      case Finish => WriterFinishes(base, sh, pid, p, t);
      case _ => WriterReads(base, sh, pid, p, t);
  }

  // ---------------------------------------------------------------- interleaving

  /** Another process's action leaves a process sound. */
  lemma OthersStaySound(sh: Shared, sh': Shared, pid: Pid, p: Proc)
    requires ProcSound(sh, pid, p) && Grows(sh, sh')
    requires forall k :: Lookup(sh.locks, k) == Some(pid) ==>
      Lookup(sh'.locks, k) == Some(pid) && Lookup(sh'.intents, k) == Lookup(sh.intents, k)
    ensures ProcSound(sh', pid, p)
  {
    hide Rooted, Promotable, Loadable, Classify, ValidCommit;
    if p.role.Mutation? {
      assert Lookup(sh.locks, KeyOf(p.role)) == Some(pid);
      if p.pc != Loading {
        ObservedTransitive(p.h, sh.refs, sh'.refs);
      }
      assert Continues(sh.refs, sh'.refs, Local(p.role.request.actor));
      assert Continues(sh.refs, sh'.refs, Imported(p.role.request.actor));
    }
  }

  /** Every enabled action keeps the invariant and grows the durable state. */
  lemma ActionKeeps(base: Refs, s: State, a: Action)
    requires Inv(base, s) && Enabled(s, a)
    ensures Inv(base, Apply(s, a)) && Grows(s.sh, Apply(s, a).sh)
  {
    var s' := Apply(s, a);
    if a.Step? {
      AnyStep(base, s.sh, a.pid, s.procs[a.pid], a.timestamp);
    } else {
      GrowsReflexive(s.sh);
      IntentsStaySound(s.sh, s'.sh);
      JournalStays(base, s.sh, s'.sh);
    }
    forall pid | pid in s'.procs ensures ProcSound(s'.sh, pid, s'.procs[pid]) {
      if pid != a.pid {
        OthersStaySound(s.sh, s'.sh, pid, s.procs[pid]);
      }
    }
  }
}
