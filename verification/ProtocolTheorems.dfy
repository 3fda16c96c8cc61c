/** What holds of every run of the protocol: any number of writers, status readers and
    importers, in any interleaving, stopping at any point. */
module ProtocolTheorems {
  import opened Basics
  import opened Streams
  import opened Protocol
  import opened ProtocolInvariant
  import opened ProtocolSteps

  lemma {:induction false} RunKeeps(states: seq<State>, actions: seq<Action>, n: nat)
    requires Run(states, actions) && n < |states|
    ensures Inv(states[0].sh.refs, states[n])
  {
    if n == 0 {
      var s := states[0];
      forall r | r in s.sh.refs ensures StreamSound(s.sh.objects, r.actor, s.sh.refs[r]) {
      }
    } else {
      RunKeeps(states, actions, n - 1);
      assert Happens(states, actions, n - 1);
      ActionKeeps(states[0].sh.refs, states[n - 1], actions[n - 1]);
    }
  }

  lemma OneActionGrows(states: seq<State>, actions: seq<Action>, n: nat)
    requires Run(states, actions) && n < |actions|
    ensures Grows(states[n].sh, states[n + 1].sh)
  {
    RunKeeps(states, actions, n);
    assert Happens(states, actions, n);
    ActionKeeps(states[0].sh.refs, states[n], actions[n]);
  }

  /** Accepted streams only grow, objects and intents are never removed, and an intent
      keeps its request and expected head, its candidate once written, and its stage
      order, over every stretch of every run. */
  lemma {:induction false} RunGrows(states: seq<State>, actions: seq<Action>, i: nat, j: nat)
    requires Run(states, actions) && i <= j < |states|
    ensures Grows(states[i].sh, states[j].sh)
  {
    if i == j {
      GrowsReflexive(states[i].sh);
    } else {
      RunGrows(states, actions, i, j - 1);
      OneActionGrows(states, actions, j - 1);
      GrowsTransitive(states[i].sh, states[j - 1].sh, states[j].sh);
    }
  }

  /** No actor's local stream ever holds two artifacts with one operation key. */
  lemma OneArtifactPerOperation(states: seq<State>, actions: seq<Action>, n: nat, actor: Actor)
    requires Run(states, actions) && n < |states|
    ensures DistinctOperations(Stream(Lookup(states[n].sh.refs, Local(actor))))
  {
    RunKeeps(states, actions, n);
  }

  /** Whatever a run adds to a local stream is the journaled candidate of its key, with
      exactly the request the intent binds; and the intent stays that way. */
  lemma PublishedWasJournaled(
      states: seq<State>, actions: seq<Action>, n: nat, later: nat, actor: Actor, c: Commit)
    requires Run(states, actions) && n <= later < |states|
    requires c in Stream(Lookup(states[n].sh.refs, Local(actor)))
    requires c !in Stream(Lookup(states[0].sh.refs, Local(actor)))
    ensures var key, intents := Key(actor, c.artifact.request.operation), states[later].sh.intents;
      && key in intents
      && intents[key].candidate == Some(c)
      && intents[key].request == c.artifact.request
      && intents[key].expected == c.parent
  {
    RunKeeps(states, actions, n);
    RunGrows(states, actions, n, later);
    assert JournaledAt(states[0].sh.refs, states[n].sh.intents, actor, c);
    var key := Key(actor, c.artifact.request.operation);
    assert IntentSound(states[n].sh, key, states[n].sh.intents[key]);
    assert Advances(states[n].sh.intents[key], states[later].sh.intents[key]);
  }

  /** A held lock has its lock file and belongs to a running attempt for its key: whatever
      stops a process frees the locks it held. */
  lemma {:induction false} LockIsHeld(states: seq<State>, actions: seq<Action>, n: nat, key: Key)
    requires Run(states, actions) && n < |states| && key in states[n].sh.locks
    ensures var pid := states[n].sh.locks[key];
      && key in states[n].sh.lockFiles
      && pid in states[n].procs && states[n].procs[pid].role.Mutation? && KeyOf(states[n].procs[pid].role) == key
  {
    if n > 0 {
      assert Happens(states, actions, n - 1);
      LockBack(states[n - 1], actions[n - 1], key);
      if key in states[n - 1].sh.locks && states[n - 1].sh.locks[key] == states[n].sh.locks[key] {
        LockIsHeld(states, actions, n - 1, key);
      }
    }
  }

  lemma LockBack(s: State, a: Action, key: Key)
    requires Enabled(s, a) && key in Apply(s, a).sh.locks
    ensures var t := Apply(s, a);
      var pid := t.sh.locks[key];
      || (key in s.sh.locks && s.sh.locks[key] == pid && s.sh.lockFiles <= t.sh.lockFiles
          && (pid in s.procs ==> pid in t.procs && t.procs[pid].role == s.procs[pid].role))
      || (pid in t.procs && t.procs[pid].role.Mutation? && KeyOf(t.procs[pid].role) == key && key in t.sh.lockFiles)
  {
    hide StepEnabled;
    if a.Step? {
      StepKeepsLocks(s.sh, s.procs[a.pid], a.timestamp);
    }
  }

  lemma StepKeepsLocks(sh: Shared, p: Proc, t: nat)
    ensures StepResult(sh, p, t).0.locks == sh.locks && StepResult(sh, p, t).0.lockFiles == sh.lockFiles
  {
    hide Candidate, Decided, Promoted;
  }

  /** The local ref moves only by compare-and-swap from an intent's expected head to its
      candidate, which was journaled in an earlier state. */
  lemma LocalRefMovesByIntent(states: seq<State>, actions: seq<Action>, n: nat, actor: Actor)
    requires Run(states, actions) && n < |actions|
    requires Lookup(states[n].sh.refs, Local(actor)) != Lookup(states[n + 1].sh.refs, Local(actor))
    ensures exists key ::
              && key in states[n].sh.intents && key.actor == actor
              && states[n].sh.intents[key].stage == Publishing
              && Lookup(states[n].sh.refs, Local(actor)) == states[n].sh.intents[key].expected
              && Lookup(states[n + 1].sh.refs, Local(actor)) == states[n].sh.intents[key].candidate
  {
    RunKeeps(states, actions, n);
    assert Happens(states, actions, n);
    var s, a := states[n], actions[n];
    var p := s.procs[a.pid];
    var key := KeyOf(p.role);
    assert ProcSound(s.sh, a.pid, p);
    OnlyPublishMovesLocal(s.sh, p, a.timestamp, actor);
    assert p.role.Mutation?;
    assert IntentSound(s.sh, key, s.sh.intents[key]);
  }

  lemma OnlyPublishMovesLocal(sh: Shared, p: Proc, t: nat, actor: Actor)
    requires Lookup(sh.refs, Local(actor)) != Lookup(StepResult(sh, p, t).0.refs, Local(actor))
    ensures p.pc == Publish && KeyOf(p.role).actor == actor && p.intent.Some?
    ensures Lookup(StepResult(sh, p, t).0.refs, Local(actor)) == p.intent.value.candidate
  {
  }

  /** A `published` intent names an artifact with its own request that is, and from then
      on stays, on an accepted stream of its actor. */
  lemma PublishedIsAccepted(states: seq<State>, actions: seq<Action>, n: nat, later: nat, key: Key)
    requires Run(states, actions) && n <= later < |states|
    requires key in states[n].sh.intents && states[n].sh.intents[key].stage == Published
    ensures key in states[later].sh.intents && states[later].sh.intents[key] == states[n].sh.intents[key]
    ensures var i := states[n].sh.intents[key];
      && i.candidate.Some? && i.candidate.value.artifact.request == i.request
      && OnAcceptedStream(states[later].sh.refs, key.actor, i.candidate.value)
  {
    RunKeeps(states, actions, n);
    RunKeeps(states, actions, later);
    RunGrows(states, actions, n, later);
    assert IntentSound(states[n].sh, key, states[n].sh.intents[key]);
    assert IntentSound(states[later].sh, key, states[later].sh.intents[key]);
    assert Advances(states[n].sh.intents[key], states[later].sh.intents[key]);
  }

  /** Every committed promotion, like every append, only extends what a ref reaches. */
  lemma AcceptedOnlyGrows(states: seq<State>, actions: seq<Action>, i: nat, j: nat, source: Source)
    requires Run(states, actions) && i <= j < |states|
    ensures Stream(Lookup(states[i].sh.refs, source)) <= Stream(Lookup(states[j].sh.refs, source))
  {
    RunGrows(states, actions, i, j);
    assert Continues(states[i].sh.refs, states[j].sh.refs, source);
  }

  lemma ParentIsPrefix(head: Option<Commit>, i: nat)
    requires i < |Stream(head)|
    ensures Stream(Stream(head)[i].parent) == Stream(head)[..i]
  {
  }

  /** A lost race is final: once the local stream has grown past the expected head of an
      intent without carrying its key, no later state carries it, whatever retries do. */
  lemma LostRaceIsFinal(states: seq<State>, actions: seq<Action>, n: nat, later: nat, key: Key)
    requires Run(states, actions) && n <= later < |states| && key in states[n].sh.intents
    requires |Stream(states[n].sh.intents[key].expected)| < |Stream(Lookup(states[n].sh.refs, Local(key.actor)))|
    requires !Uses(Stream(Lookup(states[n].sh.refs, Local(key.actor))), key.operation)
    ensures !Uses(Stream(Lookup(states[later].sh.refs, Local(key.actor))), key.operation)
  {
    hide Run, Inv, Grows;
    var now := Stream(Lookup(states[n].sh.refs, Local(key.actor)));
    var head := Lookup(states[later].sh.refs, Local(key.actor));
    AcceptedOnlyGrows(states, actions, 0, n, Local(key.actor));
    AcceptedOnlyGrows(states, actions, n, later, Local(key.actor));
    forall i | 0 <= i < |Stream(head)| ensures Stream(head)[i].artifact.request.operation != key.operation {
      var c := Stream(head)[i];
      if i < |now| {
        assert c == now[i] && c in now;
      } else {
        NotYetUsed(states, actions, n, later, key, i);
      }
    }
  }

  /** What lies beyond the stream of the lost race carries another key. */
  lemma NotYetUsed(states: seq<State>, actions: seq<Action>, n: nat, later: nat, key: Key, i: nat)
    requires Run(states, actions) && n <= later < |states| && key in states[n].sh.intents
    requires var now := Stream(Lookup(states[n].sh.refs, Local(key.actor)));
      && |Stream(states[n].sh.intents[key].expected)| < |now| <= i && !Uses(now, key.operation)
      && Stream(Lookup(states[0].sh.refs, Local(key.actor))) <= now
    requires i < |Stream(Lookup(states[later].sh.refs, Local(key.actor)))|
    ensures Stream(Lookup(states[later].sh.refs, Local(key.actor)))[i].artifact.request.operation != key.operation
  {
    hide Run, Inv;
    var head := Lookup(states[later].sh.refs, Local(key.actor));
    var c := Stream(head)[i];
    RunGrows(states, actions, n, later);
    assert Advances(states[n].sh.intents[key], states[later].sh.intents[key]);
    ParentIsPrefix(head, i);
    if c.artifact.request.operation == key.operation {
      assert c !in Stream(Lookup(states[0].sh.refs, Local(key.actor)));
      PublishedWasJournaled(states, actions, later, later, key.actor, c);
    }
  }

  // ---------------------------------------------------------------- verified absence

  /** No accepted source of the actor carries the operation and no intent file exists. */
  ghost predicate Absent(sh: Shared, key: Key) {
    && key !in sh.intents
    && forall s :: s in sh.refs && s.actor == key.actor ==>
         !Uses(Stream(Some(sh.refs[s])), key.operation)
  }

  /** The reader is running the same read in every state from `m` to `n`. */
  ghost predicate SameRead(states: seq<State>, m: nat, n: nat, pid: Pid) {
    && m <= n < |states| && pid in states[n].procs
    && forall i :: m <= i <= n ==>
         && pid in states[i].procs
         && states[i].procs[pid].role == states[n].procs[pid].role
         && states[i].procs[pid].h == states[n].procs[pid].h
  }

  /** A process past loading ran the same role one state earlier. */
  lemma OneBack(states: seq<State>, actions: seq<Action>, n: nat, pid: Pid)
    requires Run(states, actions) && n < |states| && pid in states[n].procs
    requires states[n].procs[pid].pc != Loading
    ensures n > 0 && n - 1 < |actions| && pid in states[n - 1].procs
    ensures states[n - 1].procs[pid].role == states[n].procs[pid].role
    ensures actions[n - 1].pid != pid ==> states[n - 1].procs[pid] == states[n].procs[pid]
    ensures actions[n - 1].pid == pid ==>
      && actions[n - 1].Step?
      && states[n].procs[pid] ==
           StepResult(states[n - 1].sh, states[n - 1].procs[pid], actions[n - 1].timestamp).1
  {
    assert n > 0 by {
      assert states[0].procs == map[];
    }
    assert Happens(states, actions, n - 1);
    StepKeepsRole(states[n - 1], actions[n - 1], pid);
  }

  lemma StepKeepsRole(s: State, a: Action, pid: Pid)
    requires Enabled(s, a) && pid in Apply(s, a).procs && Apply(s, a).procs[pid].pc != Loading
    ensures pid in s.procs && s.procs[pid].role == Apply(s, a).procs[pid].role
    ensures a.pid != pid ==> s.procs[pid] == Apply(s, a).procs[pid]
    ensures a.pid == pid ==> a.Step? && Apply(s, a).procs[pid] == StepResult(s.sh, s.procs[pid], a.timestamp).1
  {
  }

  /** A coherent reader past its second look at the refs has just taken it, or was past it. */
  lemma ReaderBack(sh: Shared, p: Proc, t: nat)
    requires p.role.Status? && p.pc != Done && ReadOnlyPc(p.pc)
    requires var q := StepResult(sh, p, t).1; q.coherent && q.pc in {Read3, Probe3, Decide, Done}
    ensures var q := StepResult(sh, p, t).1; q.h == p.h && q.intent == p.intent && p.coherent
    ensures p.pc == Refs2 ==> sh.refs == p.h && StepResult(sh, p, t).1.pc == Read3
    ensures p.pc == Read3 && p.intent == None ==> KeyOf(p.role) !in sh.intents
    ensures p.pc in {Refs2, Read3, Probe3, Decide}
  {
  }

  /** A coherent reader past its second look at the refs, one state earlier. */
  lemma ReadingBack(states: seq<State>, actions: seq<Action>, n: nat, pid: Pid)
    requires Run(states, actions) && n < |states| && pid in states[n].procs
    requires var q := states[n].procs[pid]; q.role.Status? && q.coherent && q.pc in {Read3, Probe3, Decide, Done}
    ensures n > 0 && n - 1 < |actions| && pid in states[n - 1].procs
    ensures var p, q := states[n - 1].procs[pid], states[n].procs[pid];
      && p.role == q.role && p.h == q.h && p.intent == q.intent && p.coherent
      && (actions[n - 1].pid != pid ==> p == q)
      && (actions[n - 1].pid == pid ==> p.pc in {Refs2, Read3, Probe3, Decide})
      && (p.pc == Refs2 ==> states[n - 1].sh.refs == p.h && q.pc == Read3)
      && (actions[n - 1].pid == pid && p.pc == Read3 && p.intent == None ==> KeyOf(p.role) !in states[n - 1].sh.intents)
  {
    hide Run, StepResult;
    OneBack(states, actions, n, pid);
    if actions[n - 1].pid == pid {
      ReaderStillReads(states, actions, n - 1, pid);
      ReaderBack(states[n - 1].sh, states[n - 1].procs[pid], actions[n - 1].timestamp);
    }
  }

  /** A status reader that takes a step is still reading. */
  lemma ReaderStillReads(states: seq<State>, actions: seq<Action>, n: nat, pid: Pid)
    requires Run(states, actions) && n < |actions| && pid in states[n].procs 
    requires actions[n].Step? && actions[n].pid == pid
    requires states[n].procs[pid].role.Status?
    ensures states[n].procs[pid].pc != Done && ReadOnlyPc(states[n].procs[pid].pc)
  {
    hide Loadable, Public, Classify;
    RunKeeps(states, actions, n);
    assert Happens(states, actions, n);
    assert ProcSound(states[n].sh, pid, states[n].procs[pid]);
  }

  /** Go back to the second observation of the source refs. */
  lemma {:induction false} SecondObservation(
      states: seq<State>, actions: seq<Action>, n: nat, pid: Pid) returns (m: nat)
    requires Run(states, actions) && n < |states| && pid in states[n].procs
    requires states[n].procs[pid].role.Status? && states[n].procs[pid].coherent
    requires states[n].procs[pid].pc in {Read3, Probe3, Decide, Done}
    ensures m < n && SameRead(states, m, n, pid)
    ensures states[m].procs[pid].pc == Refs2
    ensures states[m].sh.refs == states[n].procs[pid].h
    ensures states[n].procs[pid].pc != Read3 && states[n].procs[pid].intent == None ==>
      KeyOf(states[n].procs[pid].role) !in states[m].sh.intents
  {
    hide Run, ProcSound;
    ReadingBack(states, actions, n, pid);
    if actions[n - 1].pid == pid && states[n - 1].procs[pid].pc == Refs2 {
      m := n - 1;
    } else {
      m := SecondObservation(states, actions, n - 1, pid);
      RunGrows(states, actions, m, n - 1);
    }
  }

  /** A key that the loaded chain lacks is on none of the actor's sources. */
  lemma UnusedOnEverySource(h: Refs, key: Key)
    requires Loadable(h) && Public(h, key) == None
    ensures forall s :: s in h && s.actor == key.actor ==> !Uses(Stream(Some(h[s])), key.operation)
  {
  }

  lemma AbsentEvidence(sh: Shared, pid: Pid, p: Proc)
    requires p.role.Status? && ProcSound(sh, pid, p) && p.answer == Some(VerifiedAbsent)
    ensures p.pc == Done && p.coherent && p.intent == None
    ensures Loadable(p.h) && Public(p.h, KeyOf(p.role)) == None
  {
  }

  /** A `verified_absent` answer was true at the second observation of the source refs,
      an instant inside that read, whatever writers and importers did meanwhile. */
  lemma VerifiedAbsentWasTrue(states: seq<State>, actions: seq<Action>, n: nat, pid: Pid)
    requires Run(states, actions) && n < |states| && pid in states[n].procs
    requires states[n].procs[pid].role.Status? && states[n].procs[pid].answer == Some(VerifiedAbsent)
    ensures exists m: nat ::
              && m < n && SameRead(states, m, n, pid)
              && states[m].procs[pid].pc == Refs2
              && Absent(states[m].sh, KeyOf(states[n].procs[pid].role))
  {
    hide ProcSound, Loadable, Public, Run;
    RunKeeps(states, actions, n);
    var p := states[n].procs[pid];
    AbsentEvidence(states[n].sh, pid, p);
    var m := SecondObservation(states, actions, n, pid);
    UnusedOnEverySource(p.h, KeyOf(p.role));
    assert Absent(states[m].sh, KeyOf(p.role));
  }
}
