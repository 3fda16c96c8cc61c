/** What a status answer says about the repository: which observations it rests on, and
    exactly when it is found, verified absent or uncertain. */
module ProtocolStatus {
  import opened Basics
  import opened Streams
  import opened Protocol
  import opened ProtocolInvariant
  import opened ProtocolTheorems

  // ---------------------------------------------------------------- observations

  /** The observations of a read in their order, the decision last. */
  function Order(): seq<Pc> {
    [Loading, Probe1, Read1, Read2, Probe2, Refs2, Read3, Probe3, Decide]
  }

  /** How many of them a reader has made. */
  function Passed(pc: Pc): int {
    match pc
    case Loading => 0
    case Probe1 => 1
    case Read1 => 2
    case Read2 => 3
    case Probe2 => 4
    case Refs2 => 5
    case Read3 => 6
    case Probe3 => 7
    case Decide => 8
    case Done => 9
    case _ => -1
  }

  /** Some accepted source of the actor carries the operation. */
  ghost predicate Carried(refs: Refs, key: Key) {
    exists s :: s in refs && s.actor == key.actor && Uses(Stream(Some(refs[s])), key.operation)
  }

  /** The observations made so far agree: the intent read again and again is the same, the
      lock file is there or not each time, and the refs are those that were loaded. */
  ghost predicate Agree(seen: seq<Shared>, key: Key) {
    && (|seen| > 3 ==> Lookup(seen[3].intents, key) == Lookup(seen[2].intents, key))
    && (|seen| > 4 ==> (key in seen[4].lockFiles <==> key in seen[1].lockFiles))
    && (|seen| > 5 ==> seen[5].refs == seen[0].refs)
    && (|seen| > 6 ==> Lookup(seen[6].intents, key) == Lookup(seen[2].intents, key))
    && (|seen| > 7 ==> (key in seen[7].lockFiles <==> key in seen[1].lockFiles))
  }

  /** No probe so far met a held lock. */
  ghost predicate Unlocked(seen: seq<Shared>, key: Key) {
    && (|seen| > 1 ==> key !in seen[1].locks)
    && (|seen| > 4 ==> key !in seen[4].locks)
    && (|seen| > 7 ==> key !in seen[7].locks)
  }

  /** The answer that a complete read owes. */
  ghost function Owed(seen: seq<Shared>, key: Key): Answer
    requires |seen| == 9
  {
    if !Agree(seen, key) then Uncertain
    else if Carried(seen[5].refs, key) then Found
    else if Unlocked(seen, key) && key !in seen[2].intents then VerifiedAbsent
    else Uncertain
  }

  /** What the reader remembers of the shared states it has seen. */
  ghost predicate Remembers(seen: seq<Shared>, p: Proc) {
    var key := KeyOf(p.role);
    && |seen| == Passed(p.pc)
    && (|seen| > 0 ==> p.h == seen[0].refs && Loadable(p.h))
    && (|seen| > 1 ==> (p.present <==> key in seen[1].lockFiles) && (p.settled <==> Unlocked(seen, key)))
    && (|seen| > 2 ==> p.intent == Lookup(seen[2].intents, key) && (p.coherent <==> Agree(seen, key)))
    && p.answer == if |seen| == 9 then Some(Owed(seen, key)) else None
  }

  /** On a repository that loads, the accepted chain of an actor carries a key exactly when
      one of the actor's sources does. */
  lemma CarriedIsPublic(refs: Refs, key: Key)
    requires Loadable(refs)
    ensures Public(refs, key).Some? <==> Carried(refs, key)
  {
    hide Loadable, Find, DistinctOperations, ValidCommit;
    TipCovers(refs, key.actor);
    var tip := Stream(Tip(refs, key.actor));
    if Uses(tip, key.operation) {
      TipIsASource(refs, key.actor);
    }
    if Carried(refs, key) {
      var s :| s in refs && s.actor == key.actor && Uses(Stream(Some(refs[s])), key.operation);
      UsesOnward(Stream(Some(refs[s])), tip, key.operation);
    }
  }

  lemma TipIsASource(refs: Refs, actor: Actor)
    requires Tip(refs, actor).Some?
    ensures exists s :: s in refs && s.actor == actor && Tip(refs, actor) == Some(refs[s])
  {
    assert Lookup(refs, Local(actor)).Some? ==> Local(actor) in refs && Local(actor).actor == actor;
    assert Lookup(refs, Imported(actor)).Some? ==> Imported(actor) in refs && Imported(actor).actor == actor;
  }

  lemma UsesOnward(s: seq<Commit>, t: seq<Commit>, operation: Operation)
    requires s <= t && Uses(s, operation)
    ensures Uses(t, operation)
  {
    var c :| c in s && c.artifact.request.operation == operation;
    assert c in t;
  }

  /** What one more look adds to the agreement of the observations. */
  lemma AgreeNext(seen: seq<Shared>, sh: Shared, key: Key)
    ensures Agree(seen + [sh], key) <==>
      && Agree(seen, key)
      && (|seen| in {3, 6} ==> Lookup(sh.intents, key) == Lookup(seen[2].intents, key))
      && (|seen| in {4, 7} ==> (key in sh.lockFiles <==> key in seen[1].lockFiles))
      && (|seen| == 5 ==> sh.refs == seen[0].refs)
  {
    var all := seen + [sh];
    assert forall j :: 0 <= j < |seen| ==> all[j] == seen[j];
  }

  lemma UnlockedNext(seen: seq<Shared>, sh: Shared, key: Key)
    ensures Unlocked(seen + [sh], key) <==> Unlocked(seen, key) && (|seen| in {1, 4, 7} ==> key !in sh.locks)
  {
    var all := seen + [sh];
    assert forall j :: 0 <= j < |seen| ==> all[j] == seen[j];
  }

  /** Looking once more keeps what was seen before. */
  lemma LookAgain(seen: seq<Shared>, sh: Shared, p: Proc, t: nat)
    requires p.role.Status? && Remembers(seen, p) && StepEnabled(sh, p) && p.pc !in {Decide, Done}
    ensures Remembers(seen + [sh], StepResult(sh, p, t).1)
  {
    hide Remembers, StepEnabled, StepResult;
    if p.pc in {Loading, Probe1, Read1} {
      LookFirst(seen, sh, p, t);
    } else {
      LookOn(seen, sh, p, t);
    }
  }

  lemma LookFirst(seen: seq<Shared>, sh: Shared, p: Proc, t: nat)
    requires p.role.Status? && Remembers(seen, p) && StepEnabled(sh, p) && p.pc in {Loading, Probe1, Read1}
    ensures Remembers(seen + [sh], StepResult(sh, p, t).1)
  {
    hide Loadable, Promotable, Coheres, Agree, Unlocked, Owed;
    UnlockedNext(seen, sh, KeyOf(p.role));
    FirstLooks(seen, KeyOf(p.role));
    FirstLooks(seen + [sh], KeyOf(p.role));
  }

  lemma LookOn(seen: seq<Shared>, sh: Shared, p: Proc, t: nat)
    requires p.role.Status? && Remembers(seen, p) && p.pc !in {Loading, Probe1, Read1, Decide, Done}
    ensures Remembers(seen + [sh], StepResult(sh, p, t).1)
  {
    hide Loadable, Agree, Unlocked, Owed, Lookup, Decided, Promoted, Stream, Candidate, Finished, Save;
    FirstLooks(seen, KeyOf(p.role));
    AgreeNext(seen, sh, KeyOf(p.role));
    UnlockedNext(seen, sh, KeyOf(p.role));
  }

  lemma FirstLooks(seen: seq<Shared>, key: Key)
    ensures |seen| <= 3 ==> Agree(seen, key)
    ensures |seen| <= 1 ==> Unlocked(seen, key)
  {
  }

  /** The decision gives the answer owed. */
  lemma AnswerIsOwed(seen: seq<Shared>, sh: Shared, p: Proc, t: nat)
    requires p.role.Status? && Remembers(seen, p) && p.pc == Decide
    ensures Remembers(seen + [sh], StepResult(sh, p, t).1)
  {
    hide Loadable, Carried, Public, Agree, Unlocked, Witness;
    var key := KeyOf(p.role);
    CarriedIsPublic(p.h, key);
    AgreeNext(seen, sh, key);
    UnlockedNext(seen, sh, key);
    assert Agree(seen, key) ==> seen[5].refs == seen[0].refs by {
      AgreeingRefs(seen, key);
    }
    assert (seen + [sh])[5] == seen[5] && (seen + [sh])[2] == seen[2];
  }

  lemma AgreeingRefs(seen: seq<Shared>, key: Key)
    requires |seen| > 5
    ensures Agree(seen, key) ==> seen[5].refs == seen[0].refs
  {
  }

  // ---------------------------------------------------------------- in a run

  /** The n-th action is the process's next observation, with the process at this point. */
  ghost predicate Looks(states: seq<State>, actions: seq<Action>, n: nat, pid: Pid, pc: Pc)
    requires |states| == |actions| + 1
  {
    n < |actions| && actions[n].Step? && actions[n].pid == pid && pid in states[n].procs
    && states[n].procs[pid].pc == pc
  }

  /** The instants of the read that process `pid` is in at state `n`: one for each
      observation, in order, all by this process and since it began. */
  ghost predicate Instants(states: seq<State>, actions: seq<Action>, n: nat, pid: Pid, at: seq<nat>)
    requires |states| == |actions| + 1
  {
    && n < |states| && pid in states[n].procs && |at| <= 9
    && (forall j :: 0 <= j < |at| ==> at[j] < n && Looks(states, actions, at[j], pid, Order()[j]))
    && (forall i, j :: 0 <= i < j < |at| ==> at[i] < at[j])
    && (at != [] ==> forall m :: at[0] <= m <= n ==> RunsOn(states, m, n, pid))
  }

  ghost predicate RunsOn(states: seq<State>, m: nat, n: nat, pid: Pid) {
    m <= n < |states| && pid in states[m].procs && pid in states[n].procs
    && states[m].procs[pid].role == states[n].procs[pid].role
  }

  ghost function Seen(states: seq<State>, at: seq<nat>): seq<Shared>
    requires forall j :: 0 <= j < |at| ==> at[j] < |states|
  {
    seq(|at|, j requires 0 <= j < |at| => states[at[j]].sh)
  }

  lemma ActionCases(s: State, a: Action, pid: Pid)
    requires Enabled(s, a) && pid in Apply(s, a).procs
    ensures
      || (a.Begin? && a.pid == pid && Apply(s, a).procs[pid].pc == Loading && Apply(s, a).procs[pid].answer == None)
      || (pid in s.procs && a.pid != pid && Apply(s, a).procs[pid] == s.procs[pid])
      || (pid in s.procs && a.Step? && a.pid == pid && StepEnabled(s.sh, s.procs[pid])
          && Apply(s, a).procs[pid] == StepResult(s.sh, s.procs[pid], a.timestamp).1)
  {
    hide StepEnabled, StepResult;
  }

  lemma SeenNext(states: seq<State>, at: seq<nat>, n: nat)
    requires n < |states| && forall j :: 0 <= j < |at| ==> at[j] < |states|
    ensures Seen(states, at + [n]) == Seen(states, at) + [states[n].sh]
  {
  }

  /** A reader that has looked on: its instants get one more. */
  lemma InstantsNext(states: seq<State>, actions: seq<Action>, n: nat, pid: Pid, at: seq<nat>)
    requires |states| == |actions| + 1 && n < |actions| && Instants(states, actions, n, pid, at)
    requires pid in states[n + 1].procs && states[n + 1].procs[pid].role == states[n].procs[pid].role
    requires |at| == Passed(states[n].procs[pid].pc) < 9
    requires actions[n].Step? && actions[n].pid == pid
    ensures Instants(states, actions, n + 1, pid, at + [n])
  {
    hide Looks;
    var more := at + [n];
    NextLook(states, actions, n, pid);
    forall j | 0 <= j < |more| ensures more[j] < n + 1 && Looks(states, actions, more[j], pid, Order()[j]) {
      assert j < |at| ==> more[j] == at[j];
    }
    RunsOnNext(states, n, n + 1, pid, more[0], at != []);
  }

  lemma NextLook(states: seq<State>, actions: seq<Action>, n: nat, pid: Pid)
    requires |states| == |actions| + 1 && n < |actions| && actions[n].Step? && actions[n].pid == pid
    requires pid in states[n].procs && 0 <= Passed(states[n].procs[pid].pc) < 9
    ensures Looks(states, actions, n, pid, Order()[Passed(states[n].procs[pid].pc)])
  {
  }

  lemma RunsOnNext(states: seq<State>, n: nat, next: nat, pid: Pid, from: nat, begun: bool)
    requires next == n + 1 < |states| && pid in states[n].procs && from <= n && (begun || from == n)
    requires pid in states[next].procs && states[next].procs[pid].role == states[n].procs[pid].role
    requires begun ==> forall m :: from <= m <= n ==> RunsOn(states, m, n, pid)
    ensures forall m :: from <= m <= next ==> RunsOn(states, m, next, pid)
  {
    forall m | from <= m <= next ensures RunsOn(states, m, next, pid) {
      assert begun && m <= n ==> RunsOn(states, m, n, pid);
    }
  }

  lemma InstantsStay(states: seq<State>, actions: seq<Action>, n: nat, pid: Pid, at: seq<nat>)
    requires |states| == |actions| + 1 && n < |actions| && Instants(states, actions, n, pid, at)
    requires pid in states[n + 1].procs && states[n + 1].procs[pid] == states[n].procs[pid]
    ensures Instants(states, actions, n + 1, pid, at)
  {
    if at != [] {
      RunsOnNext(states, n, n + 1, pid, at[0], true);
    }
  }

  /** At every point of its read a status reader remembers its observations. */
  lemma {:induction false} ReaderRemembers(states: seq<State>, actions: seq<Action>, n: nat, pid: Pid)
      returns (at: seq<nat>)
    requires Run(states, actions) && n < |states| && pid in states[n].procs && states[n].procs[pid].role.Status?
    ensures Instants(states, actions, n, pid, at) && Remembers(Seen(states, at), states[n].procs[pid])
    decreases n
  {
    hide Instants, Remembers, Enabled, Apply, StepEnabled, StepResult, Inv;
    assert n > 0 by {
      assert states[0].procs == map[];
    }
    assert Happens(states, actions, n - 1);
    var s, a := states[n - 1], actions[n - 1];
    ActionCases(s, a, pid);
    if a.Begin? && a.pid == pid {
      at := [];
      NothingSeen(states, actions, n, pid);
    } else {
      RolesStay(s, a, pid);
      at := ReaderRemembers(states, actions, n - 1, pid);
      if a.pid != pid {
        InstantsStay(states, actions, n - 1, pid, at);
      } else {
        var p := s.procs[pid];
        InstantsInRange(states, actions, n - 1, pid, at);
        StillReading(states, actions, n - 1, pid, Seen(states, at));
        if p.pc == Decide {
          AnswerIsOwed(Seen(states, at), s.sh, p, a.timestamp);
        } else {
          LookAgain(Seen(states, at), s.sh, p, a.timestamp);
        }
        InstantsNext(states, actions, n - 1, pid, at);
        SeenNext(states, at, n - 1);
        at := at + [n - 1];
      }
    }
  }

  lemma NothingSeen(states: seq<State>, actions: seq<Action>, n: nat, pid: Pid)
    requires |states| == |actions| + 1 && n < |states| && pid in states[n].procs
    requires states[n].procs[pid].pc == Loading && states[n].procs[pid].answer == None
    ensures Instants(states, actions, n, pid, []) && Remembers(Seen(states, []), states[n].procs[pid])
  {
  }

  lemma InstantsInRange(states: seq<State>, actions: seq<Action>, n: nat, pid: Pid, at: seq<nat>)
    requires |states| == |actions| + 1 && Instants(states, actions, n, pid, at)
    ensures forall j :: 0 <= j < |at| ==> at[j] < |states|
  {
  }

  lemma RolesStay(s: State, a: Action, pid: Pid)
    requires Enabled(s, a) && pid in Apply(s, a).procs && !(a.Begin? && a.pid == pid)
    ensures pid in s.procs && s.procs[pid].role == Apply(s, a).procs[pid].role
  {
    hide StepEnabled;
  }

  lemma StillReading(states: seq<State>, actions: seq<Action>, n: nat, pid: Pid, seen: seq<Shared>)
    requires Run(states, actions) && n < |actions| && pid in states[n].procs && states[n].procs[pid].role.Status?
    requires actions[n].Step? && actions[n].pid == pid && Remembers(seen, states[n].procs[pid])
    ensures states[n].procs[pid].pc != Done && |seen| == Passed(states[n].procs[pid].pc) < 9
  {
    ReaderStillReads(states, actions, n, pid);
  }

  /** A status answer rests on nine instants of its own read, and is `found` exactly when
      the observations agree and a source of the actor carried the key at the second look
      at the refs; `verified_absent` exactly when they agree, no probe met a held lock, no
      intent existed and no source carried the key; and `uncertain` otherwise. */
  lemma StatusAnswer(states: seq<State>, actions: seq<Action>, n: nat, pid: Pid) returns (at: seq<nat>)
    requires Run(states, actions) && n < |states| && pid in states[n].procs
    requires states[n].procs[pid].role.Status? && states[n].procs[pid].answer.Some?
    ensures |at| == 9 && Instants(states, actions, n, pid, at) && |Seen(states, at)| == 9
    ensures
      var key, seen, answer := KeyOf(states[n].procs[pid].role), Seen(states, at), states[n].procs[pid].answer.value;
      && (answer == Found <==> Agree(seen, key) && Carried(seen[5].refs, key))
      && (answer == VerifiedAbsent <==>
            Agree(seen, key) && Unlocked(seen, key) && key !in seen[2].intents && !Carried(seen[5].refs, key))
  {
    hide Agree, Carried, Unlocked, Loadable, Run;
    at := ReaderRemembers(states, actions, n, pid);
  }
}
