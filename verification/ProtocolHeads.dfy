/** What publishing does to record heads, in every run and in a repository with one
    writer. */
module ProtocolHeads {
  import opened Basics
  import opened Streams
  import opened Protocol
  import opened ProtocolInvariant
  import opened ProtocolSteps
  import opened ProtocolTheorems

  // ---------------------------------------------------------------- one append

  /** A successor whose parents are all heads of an earlier part of the history supersedes
      exactly the current heads that lie in that part, and no head of another record. */
  lemma SuccessorOnTop(base: set<Artifact>, all: set<Artifact>, a: Artifact, opening: Artifact)
    requires base <= all && Lineage(all) && a !in all
    requires a.request.record == Some(opening) && a.request.kind !in {TypePublish, RecordOpen}
    requires a.request.parents == Heads(base, opening)
    ensures Heads(all + {a}, opening) == {a} + (Heads(all, opening) - base)
    ensures forall o :: o != opening ==> Heads(all + {a}, o) == Heads(all, o)
  {
    var after := all + {a};
    forall x | x in all ensures x in Heads(after, opening) <==> x in Heads(all, opening) - base {
      if x in Heads(all, opening) && x in base {
        assert x in Heads(base, opening) && a in after;
      }
    }
    assert a in Heads(after, opening);
    forall o | o != opening ensures Heads(after, o) == Heads(all, o) {
      assert !InRecord(a, o);
    }
  }

  /** An opening is the only head of its new record, and openings and declarations leave
      the heads of every record alone. */
  lemma OpeningKeepsHeads(all: set<Artifact>, a: Artifact)
    requires Lineage(all) && a !in all
    requires a.request.kind in {TypePublish, RecordOpen} && a.request.record == None
    ensures a.request.kind == RecordOpen ==> Heads(all + {a}, a) == {a}
    ensures forall o :: o != a ==> Heads(all + {a}, o) == Heads(all, o)
  {
  }

  /** Compare-and-swap adds exactly the candidate's artifact to what is accepted. */
  lemma AcceptedAfterAppend(refs: Refs, actor: Actor, c: Commit)
    requires c.parent == Lookup(refs, Local(actor))
    ensures Accepted(refs[Local(actor) := c]) == Accepted(refs) + {c.artifact}
  {
    var refs' := refs[Local(actor) := c];
    assert Stream(Some(c)) == Stream(c.parent) + [c];
    forall x | x in Accepted(refs) + {c.artifact} ensures x in Accepted(refs') {
      if x in Accepted(refs) {
        var s, y :| s in refs && y in Stream(Some(refs[s])) && y.artifact == x;
        assert y in Stream(Some(refs'[s]));
      } else {
        assert c in Stream(Some(refs'[Local(actor)]));
      }
    }
  }

  lemma AcceptedGrows(h: Refs, refs: Refs)
    requires Observed(h, refs)
    ensures Accepted(h) <= Accepted(refs)
  {
    forall x | x in Accepted(h) ensures x in Accepted(refs) {
      var s, y :| s in h && y in Stream(Some(h[s])) && y.artifact == x;
      assert Continues(h, refs, s) && y in Stream(Lookup(refs, s));
    }
  }

  // ---------------------------------------------------------------- validated states

  /** What is accepted has its lineage, unless no process has loaded it yet; and what a
      process has loaded is a part of what is accepted. */
  ghost predicate Validated(s: State) {
    && (Lineage(Accepted(s.sh.refs)) || forall pid :: pid in s.procs ==> s.procs[pid].pc == Loading)
    && forall pid :: pid in s.procs && s.procs[pid].pc != Loading ==> Observed(s.procs[pid].h, s.sh.refs)
  }

  lemma LineageAppends(h: Refs, refs: Refs, actor: Actor, c: Commit)
    requires Lineage(Accepted(refs)) && Observed(h, refs) && Checked(h, c.artifact.request)
    requires c.parent == Lookup(refs, Local(actor))
    ensures Lineage(Accepted(refs[Local(actor) := c]))
  {
    hide Accepted;
    AcceptedAfterAppend(refs, actor, c);
    AcceptedGrows(h, refs);
  }

  lemma LineageUnion(a: set<Artifact>, b: set<Artifact>)
    requires Lineage(a) && Lineage(b)
    ensures Lineage(a + b)
  {
  }

  /** What is accepted after a promotion is what was, and what the projection held. */
  lemma AcceptedAfterPromotion(sh: Shared, h: Refs, incoming: map<Actor, Commit>)
    requires Promotable(h, incoming) && Observed(h, sh.refs)
    requires forall a :: a in incoming ==> Lookup(sh.refs, Imported(a)) == Lookup(h, Imported(a))
    ensures Accepted(Promoted(sh.refs, incoming)) == Accepted(sh.refs) + Accepted(Promoted(h, incoming))
  {
    hide Accepted, Promotable, Promoted;
    var refs', projected := Promoted(sh.refs, incoming), Promoted(h, incoming);
    forall s: Source ensures Continues(sh.refs, refs', s) && Continues(projected, refs', s) {
      PromotionContinues(sh, h, incoming, s);
      assert Continues(h, sh.refs, s);
      ProjectedSource(sh.refs, h, incoming, s);
    }
    AcceptedGrows(sh.refs, refs');
    AcceptedGrows(projected, refs');
    forall x | x in Accepted(refs') ensures x in Accepted(sh.refs) + Accepted(projected) {
      PromotedIsEither(sh.refs, h, incoming, x);
    }
  }

  /** A promoted source is the incoming one on both sides, any other is untouched. */
  lemma ProjectedSource(refs: Refs, h: Refs, incoming: map<Actor, Commit>, s: Source)
    ensures var refs', projected := Promoted(refs, incoming), Promoted(h, incoming);
      if s.Imported? && s.actor in incoming then Lookup(projected, s) == Lookup(refs', s)
      else Lookup(projected, s) == Lookup(h, s) && Lookup(refs', s) == Lookup(refs, s)
  {
  }

  lemma PromotedIsEither(refs: Refs, h: Refs, incoming: map<Actor, Commit>, x: Artifact)
    requires x in Accepted(Promoted(refs, incoming))
    ensures x in Accepted(refs) || x in Accepted(Promoted(h, incoming))
  {
    var refs', projected := Promoted(refs, incoming), Promoted(h, incoming);
    var s, y :| s in refs' && y in Stream(Some(refs'[s])) && y.artifact == x;
    ProjectedSource(refs, h, incoming, s);
    assert Lookup(refs', s) == Some(refs'[s]);
  }

  lemma LineagePromotes(sh: Shared, h: Refs, incoming: map<Actor, Commit>)
    requires Lineage(Accepted(sh.refs)) && Promotable(h, incoming) && Observed(h, sh.refs)
    requires forall a :: a in incoming ==> Lookup(sh.refs, Imported(a)) == Lookup(h, Imported(a))
    ensures Lineage(Accepted(Promoted(sh.refs, incoming)))
  {
    hide Lineage, Accepted;
    AcceptedAfterPromotion(sh, h, incoming);
    LineageUnion(Accepted(sh.refs), Accepted(Promoted(h, incoming)));
  }

  /** No action but a swap or a promotion changes a ref. */
  lemma RefsOnlyMoveBySwap(sh: Shared, p: Proc, t: nat)
    requires p.pc !in {Publish, Promote}
    ensures StepResult(sh, p, t).0.refs == sh.refs
  {
  }

  /** A step leaves loading for good, and loads only what is there. */
  lemma StepLoads(sh: Shared, p: Proc, t: nat)
    ensures var (sh', q) := StepResult(sh, p, t);
      && (p.pc != Loading ==> q.pc != Loading) && (p.pc == Loading ==> sh'.refs == sh.refs && q.pc != Loading)
      && (q.h == sh'.refs || (q.h == p.h && p.pc != Loading))
  {
    hide StepEnabled, Candidate, Classify, Public, Finished, Promoted, Save, Stream, Lookup, Unavailable;
  }

  /** The candidate that a swap publishes, and what was checked about it. */
  lemma SwapIsChecked(sh: Shared, pid: Pid, p: Proc, t: nat)
    requires IntentsSound(sh) && ProcSound(sh, pid, p) && StepEnabled(sh, p) && p.pc == Publish
    ensures p.role.Mutation? && p.intent.Some? && p.intent.value.candidate.Some?
    ensures var c := p.intent.value.candidate.value;
      && c.artifact.request == p.role.request && Checked(p.h, p.role.request)
      && c.parent == Lookup(sh.refs, Local(p.role.request.actor))
      && StepResult(sh, p, t).0.refs == sh.refs[Local(p.role.request.actor) := c]
  {
    hide Loadable, Checked, Classify;
    assert IntentSound(sh, KeyOf(p.role), p.intent.value);
  }

  lemma PromoteIsImport(sh: Shared, pid: Pid, p: Proc)
    requires ProcSound(sh, pid, p)
    ensures p.pc == Promote ==> p.role.Import? && Promotable(p.h, p.role.incoming)
    ensures p.pc == Publish ==> p.role.Mutation?
  {
    hide Loadable, Classify;
  }

  /** One step keeps the lineage of what is accepted. */
  lemma StepKeepsLineage(sh: Shared, pid: Pid, p: Proc, t: nat)
    requires IntentsSound(sh) && ProcSound(sh, pid, p) && StepEnabled(sh, p)
    requires p.pc != Loading ==> Lineage(Accepted(sh.refs)) && Observed(p.h, sh.refs)
    ensures Lineage(Accepted(StepResult(sh, p, t).0.refs))
  {
    hide Lineage, Accepted, IntentsSound, ProcSound, Checked, Observed;
    PromoteIsImport(sh, pid, p);
    if p.pc == Publish {
      SwapIsChecked(sh, pid, p, t);
      LineageAppends(p.h, sh.refs, p.role.request.actor, p.intent.value.candidate.value);
    } else if p.pc == Promote {
      LineagePromotes(sh, p.h, p.role.incoming);
    } else {
      RefsOnlyMoveBySwap(sh, p, t);
    }
  }

  lemma ActionValidates(base: Refs, s: State, a: Action)
    requires Inv(base, s) && Validated(s) && Enabled(s, a)
    ensures Validated(Apply(s, a))
  {
    hide Lineage, Accepted, StepResult, StepEnabled, ProcSound, RefsSound, IntentsSound, Journaled, Observed;
    ActionKeeps(base, s, a);
    var s' := Apply(s, a);
    if a.Step? {
      var p := s.procs[a.pid];
      StepLoads(s.sh, p, a.timestamp);
      StepKeepsLineage(s.sh, a.pid, p, a.timestamp);
    }
    forall pid | pid in s'.procs && s'.procs[pid].pc != Loading ensures Observed(s'.procs[pid].h, s'.sh.refs) {
      GrowsReflexive(s'.sh);
      if pid in s.procs && s.procs[pid].pc != Loading {
        ObservedTransitive(s.procs[pid].h, s.sh.refs, s'.sh.refs);
      }
    }
  }

  lemma {:induction false} RunValidates(states: seq<State>, actions: seq<Action>, n: nat)
    requires Run(states, actions) && n < |states|
    ensures Validated(states[n])
  {
    hide Inv, Validated, Enabled;
    if n == 0 {
      FirstValidated(states[0]);
    } else {
      RunValidates(states, actions, n - 1);
      RunKeeps(states, actions, n - 1);
      assert Happens(states, actions, n - 1);
      ActionValidates(states[0].sh.refs, states[n - 1], actions[n - 1]);
    }
  }

  lemma FirstValidated(s: State)
    requires s.procs == map[]
    ensures Validated(s)
  {
  }

  // ---------------------------------------------------------------- publication in a run

  /** The n-th action swaps a local ref to the candidate of process `pid`. */
  ghost predicate Swaps(states: seq<State>, actions: seq<Action>, n: nat, pid: Pid)
    requires Run(states, actions) && n < |actions|
  {
    actions[n].Step? && actions[n].pid == pid && pid in states[n].procs && states[n].procs[pid].pc == Publish
  }

  /** What a swap publishes. */
  ghost function Swapped(s: State, pid: Pid): Artifact
    requires pid in s.procs && s.procs[pid].intent.Some? && s.procs[pid].intent.value.candidate.Some?
  {
    s.procs[pid].intent.value.candidate.value.artifact
  }

  /** In every run, whoever else writes or imports, a swap adds exactly one artifact, which
      passed its checks against what its process had loaded, a part of what is accepted. */
  lemma SwapPublishes(states: seq<State>, actions: seq<Action>, n: nat, pid: Pid)
    requires Run(states, actions) && n < |actions| && Swaps(states, actions, n, pid)
    ensures var p := states[n].procs[pid];
      && p.role.Mutation? && p.intent.Some? && p.intent.value.candidate.Some?
      && Swapped(states[n], pid).request == p.role.request && Checked(p.h, p.role.request)
      && Accepted(p.h) <= Accepted(states[n].sh.refs) && Lineage(Accepted(states[n].sh.refs))
      && Accepted(states[n + 1].sh.refs) == Accepted(states[n].sh.refs) + {Swapped(states[n], pid)}
  {
    hide Lineage, Accepted, Checked, StepResult, StepEnabled, ProcSound, RefsSound, IntentsSound, Journaled, Observed;
    RunKeeps(states, actions, n);
    RunValidates(states, actions, n);
    assert Happens(states, actions, n);
    var sh, p := states[n].sh, states[n].procs[pid];
    SwapIsChecked(sh, pid, p, actions[n].timestamp);
    AcceptedAfterAppend(sh.refs, p.role.request.actor, p.intent.value.candidate.value);
    AcceptedGrows(p.h, sh.refs);
  }

  lemma ObservedBack(sh: Shared, p: Proc, t: nat)
    requires var q := StepResult(sh, p, t).1; q.coherent && q.pc in {Read3, Probe3, Decide}
    ensures var q := StepResult(sh, p, t).1;
      && q.h == p.h && q.intent == p.intent
      && if p.pc == Refs2 then sh.refs == p.h else p.coherent && p.pc in {Read3, Probe3}
  {
    hide StepResult;
    if p.pc in {Refs2, Read3, Probe3} {
      LooksBack(sh, p, t);
    } else {
      LooksElsewhere(sh, p, t);
    }
  }

  lemma LooksBack(sh: Shared, p: Proc, t: nat)
    requires p.pc in {Refs2, Read3, Probe3}
    ensures var q := StepResult(sh, p, t).1;
      && q.h == p.h && q.intent == p.intent && q.pc in {Read3, Probe3, Decide}
      && (q.coherent ==> if p.pc == Refs2 then sh.refs == p.h else p.coherent)
  {
    hide Candidate, Promoted, Save, Finished, Decided, Stream;
  }

  lemma LooksElsewhere(sh: Shared, p: Proc, t: nat)
    requires p.pc != Refs2 && p.pc != Read3 && p.pc != Probe3
    ensures var pc := StepResult(sh, p, t).1.pc; pc != Read3 && pc != Probe3 && pc != Decide
  {
    hide StepResult;
    NextPc(sh, p, t);
  }

  /** Which points of its program a process goes to from each. */
  predicate GoesTo(a: Pc, b: Pc) {
    match a
    case Loading => b == Probe1 || b == CheckSources
    case Probe1 => b == Read1
    case Read1 => b == Read2
    case Read2 => b == Probe2
    case Probe2 => b == Refs2
    case Refs2 => b == Read3
    case Read3 => b == Probe3
    case Probe3 => b == Decide
    case Decide => b == Done || b == Finish || b == Prepare || b == Sign || b == CheckSources
    case Sign => b == Sign || b == Write
    case CheckSources => b == Copy || b == Publish
    case _ => b != Read3 && b != Probe3 && b != Decide && (b != Write || a == Write)
  }

  lemma NextPc(sh: Shared, p: Proc, t: nat)
    ensures GoesTo(p.pc, StepResult(sh, p, t).1.pc)
  {
    hide Promoted, Candidate, Stream, Public, Classify;
    match p.pc
    case Loading => {}
    case Probe1 => {}
    case Read1 => {}
    case Read2 => {}
    case Probe2 => {}
    case Refs2 => {}
    case Read3 => {}
    case Probe3 => {}
    case Decide => {}
    case Prepare => {}
    case Sign => {}
    case Write => {}
    case Journal => {}
    case CheckSources => {}
    case Publish => {}
    case Reload => {}
    case Finish => {}
    case Copy => {}
    case Promote => {}
    case Done => {}
  }

  lemma {:induction false} ObservedAgain(states: seq<State>, actions: seq<Action>, n: nat, pid: Pid) returns (m: nat)
    requires Run(states, actions) && n < |states| && pid in states[n].procs
    requires states[n].procs[pid].coherent && states[n].procs[pid].pc in {Read3, Probe3, Decide}
    ensures m < n && pid in states[m].procs && states[m].procs[pid].pc == Refs2
    ensures var p := states[n].procs[pid];
      states[m].procs[pid].role == p.role && states[m].procs[pid].intent == p.intent && states[m].sh.refs == p.h
  {
    hide Run, StepResult;
    OneBack(states, actions, n, pid);
    if states[n - 1].procs[pid] == states[n].procs[pid] {
      m := ObservedAgain(states, actions, n - 1, pid);
    } else {
      ObservedBack(states[n - 1].sh, states[n - 1].procs[pid], actions[n - 1].timestamp);
      if states[n - 1].procs[pid].pc == Refs2 {
        m := n - 1;
      } else {
        m := ObservedAgain(states, actions, n - 1, pid);
      }
    }
  }

  /** An attempt decides, whether to replay, to finish or to append, only on evidence that
      held: the refs it had loaded were seen again after its intent was read. */
  lemma DecidedWhileCurrent(states: seq<State>, actions: seq<Action>, n: nat, pid: Pid) returns (m: nat)
    requires Run(states, actions) && n < |actions| && actions[n].Step? && actions[n].pid == pid
    requires pid in states[n].procs && states[n].procs[pid].role.Mutation? && states[n].procs[pid].pc == Decide
    ensures m < n && pid in states[m].procs && states[m].procs[pid].pc == Refs2
    ensures var p := states[n].procs[pid];
      states[m].procs[pid].role == p.role && states[m].procs[pid].intent == p.intent && states[m].sh.refs == p.h
  {
    hide Run, StepResult, Public, MayAppend;
    HappensAt(states, actions, n);
    m := ObservedAgain(states, actions, n, pid);
  }

  /** A process about to swap, one state earlier: it was so already, or it has just found
      the refs to be the ones it had loaded. */
  lemma AboutToSwap(states: seq<State>, actions: seq<Action>, n: nat, pid: Pid)
    requires Run(states, actions) && n < |states| && pid in states[n].procs
    requires states[n].procs[pid].role.Mutation? && states[n].procs[pid].pc == Publish
    ensures n > 0 && pid in states[n - 1].procs
    ensures var p, q := states[n - 1].procs[pid], states[n].procs[pid];
      || p == q
      || (p == q.(pc := CheckSources) && states[n - 1].sh.refs == q.h)
  {
    hide Run, StepResult, Inv;
    OneBack(states, actions, n, pid);
    if actions[n - 1].pid == pid {
      HappensAt(states, actions, n - 1);
      OnlySourcesPublish(states[n - 1].sh, states[n - 1].procs[pid], actions[n - 1].timestamp);
    }
  }

  lemma HappensAt(states: seq<State>, actions: seq<Action>, n: nat)
    requires Run(states, actions) && n < |actions|
    ensures |states| == |actions| + 1 && Happens(states, actions, n)
  {
  }

  lemma OnlySourcesPublish(sh: Shared, p: Proc, t: nat)
    requires p.role.Mutation? && StepEnabled(sh, p) && StepResult(sh, p, t).1.pc == Publish
    ensures var q := StepResult(sh, p, t).1;
      || (p.pc == CheckSources && p == q.(pc := CheckSources) && sh.refs == q.h)
      || p == q
  {
    hide Loadable, Coheres, Public;
  }

  /** Between journaling its candidate and swapping, every publication saw the refs it had
      loaded: at that instant the intent was durable with the candidate, and a successor's
      parents were exactly the heads of its record. */
  lemma {:induction false} SwapWasCurrent(states: seq<State>, actions: seq<Action>, n: nat, pid: Pid) returns (m: nat)
    requires Run(states, actions) && n < |states| && pid in states[n].procs
    requires states[n].procs[pid].role.Mutation? && states[n].procs[pid].pc == Publish
    ensures m < n && pid in states[m].procs && states[m].procs[pid] == states[n].procs[pid].(pc := CheckSources)
    ensures var p := states[n].procs[pid];
      && p.intent.Some? && p.intent.value.stage == Publishing && p.intent.value.candidate.Some?
      && Lookup(states[m].sh.intents, KeyOf(p.role)) == p.intent && states[m].sh.refs == p.h
      && (p.role.request.kind !in {TypePublish, RecordOpen} ==>
            && p.role.request.record.Some?
            && p.role.request.parents == Heads(Accepted(states[m].sh.refs), p.role.request.record.value))
  {
    hide Run, Heads, Accepted;
    AboutToSwap(states, actions, n, pid);
    if states[n - 1].procs[pid] == states[n].procs[pid] {
      m := SwapWasCurrent(states, actions, n - 1, pid);
    } else {
      m := n - 1;
      RunKeeps(states, actions, m);
      SourcesWorking(states[m].sh, pid, states[m].procs[pid], states[0].sh.refs, states[m]);
    }
  }

  /** Every candidate was signed at an instant when the refs were the loaded ones, on top
      of the chain they had then. */
  lemma {:induction false} SignedWhileCurrent(states: seq<State>, actions: seq<Action>, n: nat, pid: Pid)
      returns (m: nat)
    requires Run(states, actions) && n < |states| && pid in states[n].procs
    requires states[n].procs[pid].role.Mutation? && states[n].procs[pid].pc == Write
    ensures m < n && m < |actions| && actions[m].Step? && pid in states[m].procs && states[m].procs[pid].pc == Sign
    ensures var p := states[n].procs[pid];
      && states[m].procs[pid].role == p.role && states[m].sh.refs == p.h
      && p.draft == Some(Candidate(states[m].sh.refs, p.role.request, actions[m].timestamp))
  {
    hide Run, StepResult, Candidate;
    OneBack(states, actions, n, pid);
    if states[n - 1].procs[pid] == states[n].procs[pid] {
      m := SignedWhileCurrent(states, actions, n - 1, pid);
    } else {
      HappensAt(states, actions, n - 1);
      OnlySigningDrafts(states[n - 1].sh, states[n - 1].procs[pid], actions[n - 1].timestamp);
      m := n - 1;
    }
  }

  lemma OnlySigningDrafts(sh: Shared, p: Proc, t: nat)
    requires p.role.Mutation? && StepEnabled(sh, p) && StepResult(sh, p, t).1.pc == Write
    ensures p.pc == Write ==> StepResult(sh, p, t).1 == p
    ensures p.pc != Write ==>
      var q := StepResult(sh, p, t).1;
      p.pc == Sign && sh.refs == q.h && q.draft == Some(Candidate(sh.refs, p.role.request, t))
  {
    hide StepResult, StepEnabled, Candidate;
    if p.pc == Write {
      StuckWriting(sh, p, t);
    } else if p.pc == Sign {
      SigningDrafts(sh, p, t);
    } else {
      NothingElseDrafts(sh, p, t);
    }
  }

  lemma StuckWriting(sh: Shared, p: Proc, t: nat)
    requires p.pc == Write && StepResult(sh, p, t).1.pc == Write
    ensures StepResult(sh, p, t).1 == p
  {
  }

  lemma SigningDrafts(sh: Shared, p: Proc, t: nat)
    requires p.role.Mutation? && p.pc == Sign && StepEnabled(sh, p)
    ensures var q := StepResult(sh, p, t).1; sh.refs == q.h && q.draft == Some(Candidate(sh.refs, p.role.request, t))
  {
    hide Candidate;
  }

  lemma NothingElseDrafts(sh: Shared, p: Proc, t: nat)
    requires p.pc != Write && p.pc != Sign
    ensures StepResult(sh, p, t).1.pc != Write
  {
    hide StepResult;
    NextPc(sh, p, t);
  }

  lemma SourcesWorking(sh: Shared, pid: Pid, p: Proc, base: Refs, s: State)
    requires Inv(base, s) && pid in s.procs && p == s.procs[pid] && sh == s.sh
    requires p.role.Mutation? && p.pc == CheckSources
    ensures p.intent.Some? && p.intent.value.stage == Publishing && p.intent.value.candidate.Some?
    ensures Lookup(sh.intents, KeyOf(p.role)) == p.intent
    ensures p.role.request.kind !in {TypePublish, RecordOpen} ==>
      p.role.request.record.Some? && p.role.request.parents == Heads(Accepted(p.h), p.role.request.record.value)
  {
    hide Heads, Accepted, Loadable, Journaled, RefsSound, Observed, Uses, Stream, Bound;
    assert ProcSound(sh, pid, p);
    assert IntentSound(sh, KeyOf(p.role), p.intent.value);
  }

  /** Publishing a successor in any run: it becomes a head of its record and supersedes
      exactly the heads its process had loaded, so that the record's heads collapse to it
      exactly when every current head was loaded; no other record's heads change. */
  lemma SuccessorHeads(states: seq<State>, actions: seq<Action>, n: nat, pid: Pid)
    requires Run(states, actions) && n < |actions| && Swaps(states, actions, n, pid)
    requires states[n].procs[pid].role.Mutation?
    requires states[n].procs[pid].role.request.kind !in {TypePublish, RecordOpen}
    ensures var p := states[n].procs[pid];
      var before, after := Accepted(states[n].sh.refs), Accepted(states[n + 1].sh.refs);
      && p.intent.Some? && p.intent.value.candidate.Some? && p.role.request.record.Some?
      && var a, opening := Swapped(states[n], pid), p.role.request.record.value;
         && a.request.parents == Heads(Accepted(p.h), opening)
         && (a.request.kind != RecordResolve ==> |a.request.parents| <= 1)
         && if a in before then after == before
         else
           && Heads(after, opening) == {a} + (Heads(before, opening) - Accepted(p.h))
           && (Heads(after, opening) == {a} <==> Heads(before, opening) <= Accepted(p.h))
           && forall o :: o != opening ==> Heads(after, o) == Heads(before, o)
  {
    hide Happens, Accepted, Lineage, Heads, Checked;
    SwapPublishes(states, actions, n, pid);
    var p := states[n].procs[pid];
    CheckedSuccessor(p.h, p.role.request);
    var before, a, opening := Accepted(states[n].sh.refs), Swapped(states[n], pid), p.role.request.record.value;
    if a in before {
      assert before + {a} == before;
    } else {
      SuccessorOnTop(Accepted(p.h), before, a, opening);
      NotAccepted(before, opening, a);
      CollapsesWhen(a, Heads(before, opening), Accepted(p.h));
    }
  }

  lemma CollapsesWhen(a: Artifact, heads: set<Artifact>, loaded: set<Artifact>)
    requires a !in heads
    ensures {a} + (heads - loaded) == {a} <==> heads <= loaded
  {
    if {a} + (heads - loaded) == {a} {
      forall x | x in heads ensures x in loaded {
        assert x in heads - loaded ==> x in {a} + (heads - loaded);
      }
    }
  }

  lemma CheckedSuccessor(h: Refs, r: Request)
    requires Checked(h, r) && r.kind !in {TypePublish, RecordOpen}
    ensures r.record.Some? && r.parents == Heads(Accepted(h), r.record.value)
    ensures r.kind != RecordResolve ==> |r.parents| <= 1
  {
  }

  lemma CheckedOpening(h: Refs, r: Request)
    requires Checked(h, r) && r.kind in {TypePublish, RecordOpen}
    ensures r.record == None
  {
  }

  lemma NotAccepted(all: set<Artifact>, opening: Artifact, a: Artifact)
    requires a !in all
    ensures a !in Heads(all, opening)
  {
  }

  /** Publishing an opening or a declaration in any run leaves all other heads alone. */
  lemma OpeningHeads(states: seq<State>, actions: seq<Action>, n: nat, pid: Pid)
    requires Run(states, actions) && n < |actions| && Swaps(states, actions, n, pid)
    requires states[n].procs[pid].role.Mutation?
    requires states[n].procs[pid].role.request.kind in {TypePublish, RecordOpen}
    ensures var p := states[n].procs[pid];
      var before, after := Accepted(states[n].sh.refs), Accepted(states[n + 1].sh.refs);
      && p.intent.Some? && p.intent.value.candidate.Some?
      && var a := Swapped(states[n], pid);
         if a in before then after == before
         else
           && (a.request.kind == RecordOpen ==> Heads(after, a) == {a})
           && forall o :: o != a ==> Heads(after, o) == Heads(before, o)
  {
    hide Happens, Accepted, Lineage, Heads, Checked;
    SwapPublishes(states, actions, n, pid);
    CheckedOpening(states[n].procs[pid].h, states[n].procs[pid].role.request);
    var before, a := Accepted(states[n].sh.refs), Swapped(states[n], pid);
    if a in before {
      assert before + {a} == before;
    } else {
      OpeningKeepsHeads(before, a);
    }
  }

  // ---------------------------------------------------------------- one writer

  ghost predicate OneHeadEach(all: set<Artifact>) {
    && Lineage(all)
    && forall o :: o in all && o.request.kind == RecordOpen ==> |Heads(all, o)| == 1
  }

  /** One checked append keeps exactly one head per record. */
  lemma AppendKeepsOneHead(refs: Refs, a: Artifact)
    requires OneHeadEach(Accepted(refs)) && Checked(refs, a.request) && a !in Accepted(refs)
    ensures OneHeadEach(Accepted(refs) + {a})
  {
    hide Accepted, Heads;
    var all := Accepted(refs);
    LineageWith(all, a, refs);
    if a.request.kind in {TypePublish, RecordOpen} {
      OpeningKeepsHeads(all, a);
    } else {
      SuccessorOnTop(all, all, a, a.request.record.value);
      HeadsInside(all, a.request.record.value);
    }
  }

  lemma HeadsInside(all: set<Artifact>, opening: Artifact)
    ensures Heads(all, opening) <= all
  {
  }

  lemma LineageWith(all: set<Artifact>, a: Artifact, refs: Refs)
    requires all == Accepted(refs) && Lineage(all) && Checked(refs, a.request)
    ensures Lineage(all + {a})
  {
  }

  /** Only this actor writes, and nothing is imported. */
  ghost predicate Solo(states: seq<State>, actions: seq<Action>, actor: Actor) {
    && Run(states, actions) && states[0].sh.refs == map[]
    && forall i :: 0 <= i < |actions| ==> SoloAction(actions[i], actor)
  }

  predicate SoloAction(a: Action, actor: Actor) {
    a.Begin? ==> !a.role.Import? && (a.role.Mutation? ==> a.role.request.actor == actor)
  }

  ghost predicate SoloState(s: State, actor: Actor) {
    && s.sh.refs.Keys <= {Local(actor)}
    && OneHeadEach(Accepted(s.sh.refs))
    && forall pid :: pid in s.procs ==>
         && !s.procs[pid].role.Import?
         && (s.procs[pid].role.Mutation? ==> s.procs[pid].role.request.actor == actor)
  }

  /** In a repository that one actor writes and nobody imports into, every record has
      exactly one head in every state its concurrent, crashing attempts can reach. */
  lemma {:induction false} SoloHasOneHead(states: seq<State>, actions: seq<Action>, actor: Actor, n: nat)
    requires Solo(states, actions, actor) && n < |states|
    ensures SoloState(states[n], actor)
  {
    if n > 0 {
      SoloHasOneHead(states, actions, actor, n - 1);
      RunKeeps(states, actions, n - 1);
      assert Happens(states, actions, n - 1) && SoloAction(actions[n - 1], actor);
      SoloStep(states[0].sh.refs, states[n - 1], actions[n - 1], actor);
    }
  }

  /** With one writing actor, the loaded sources are the current ones at the swap. */
  lemma SoloSources(h: Refs, refs: Refs, actor: Actor)
    requires Observed(h, refs) && refs.Keys <= {Local(actor)}
    requires Lookup(h, Local(actor)) == Lookup(refs, Local(actor))
    ensures h == refs
  {
    forall s | s in h ensures s == Local(actor) {
      assert Continues(h, refs, s);
      assert Stream(Lookup(h, s)) != [];
    }
  }

  lemma SoloAppend(refs: Refs, actor: Actor, c: Commit)
    requires refs.Keys <= {Local(actor)} && OneHeadEach(Accepted(refs))
    requires c.parent == Lookup(refs, Local(actor)) && Checked(refs, c.artifact.request)
    requires !Uses(Stream(c.parent), c.artifact.request.operation)
    ensures OneHeadEach(Accepted(refs[Local(actor) := c]))
  {
    hide OneHeadEach, Checked;
    AcceptedAfterAppend(refs, actor, c);
    assert c.artifact !in Accepted(refs);
    AppendKeepsOneHead(refs, c.artifact);
  }

  lemma SoloPublish(sh: Shared, pid: Pid, p: Proc, t: nat, actor: Actor)
    requires IntentsSound(sh) && p.role.Mutation? && p.pc == Publish
    requires ProcSound(sh, pid, p) && StepEnabled(sh, p)
    requires sh.refs.Keys <= {Local(actor)} && OneHeadEach(Accepted(sh.refs))
    requires p.role.request.actor == actor
    ensures OneHeadEach(Accepted(StepResult(sh, p, t).0.refs))
    ensures StepResult(sh, p, t).0.refs.Keys <= {Local(actor)}
  {
    hide OneHeadEach, Accepted, Checked, Loadable;
    var key, i := KeyOf(p.role), p.intent.value;
    assert IntentSound(sh, key, i);
    SoloSources(p.h, sh.refs, actor);
    SoloAppend(sh.refs, actor, i.candidate.value);
  }

  lemma SoloStep(base: Refs, s: State, a: Action, actor: Actor)
    requires Inv(base, s) && SoloState(s, actor) && Enabled(s, a) && SoloAction(a, actor)
    ensures SoloState(Apply(s, a), actor)
  {
    hide OneHeadEach, StepResult, WriterSound, StepEnabled;
    if a.Step? {
      var p := s.procs[a.pid];
      assert ProcSound(s.sh, a.pid, p);
      PromoteIsImport(s.sh, a.pid, p);
      if p.pc == Publish {
        SoloPublish(s.sh, a.pid, p, a.timestamp, actor);
      } else {
        RefsOnlyMoveBySwap(s.sh, p, a.timestamp);
      }
    }
  }
}
