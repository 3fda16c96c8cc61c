/** Runs that go on from a reachable state: retries and imports that come to their end. */
module ProtocolRuns {
  import opened Basics
  import opened Streams
  import opened Protocol
  import opened ProtocolInvariant
  import opened ProtocolTheorems
  import opened ProtocolHeads
  import opened ProtocolProgress

  // ---------------------------------------------------------------- building runs

  /** The actions, each enabled in its turn, lead from `s` to `t`. */
  ghost predicate Leads(s: State, actions: seq<Action>, t: State)
    decreases |actions|
  {
    if actions == [] then t == s
    else Enabled(s, actions[0]) && Leads(Apply(s, actions[0]), actions[1..], t)
  }

  lemma {:induction false} LeadsOn(s: State, first: seq<Action>, t: State, more: seq<Action>, v: State)
    requires Leads(s, first, t) && Leads(t, more, v)
    ensures Leads(s, first + more, v)
    decreases |first|
  {
    hide Enabled, Apply;
    if first == [] {
      assert first + more == more;
    } else {
      LeadsOn(Apply(s, first[0]), first[1..], t, more, v);
      assert (first + more)[1..] == first[1..] + more;
    }
  }

  lemma LeadsOne(s: State, a: Action)
    requires Enabled(s, a)
    ensures Leads(s, [a], Apply(s, a))
  {
    hide Enabled, Apply;
  }

  /** Steps that one process can take in a row can be taken in any state it is in. */
  lemma {:induction false} ReachesLeads(s: State, pid: Pid, t: nat, n: nat, sh': Shared, p': Proc)
      returns (actions: seq<Action>)
    requires pid in s.procs && Reaches(s.sh, s.procs[pid], t, n, sh', p')
    ensures Leads(s, actions, State(sh', s.procs[pid := p']))
    decreases n
  {
    hide StepResult, StepEnabled;
    if n == 0 {
      actions := [];
      assert s.procs[pid := p'] == s.procs;
    } else {
      var a := Step(pid, t);
      var next := Apply(s, a);
      var rest := ReachesLeads(next, pid, t, n - 1, sh', p');
      assert next.procs[pid := p'] == s.procs[pid := p'];
      actions := [a] + rest;
    }
  }

  lemma {:induction false} LeadsIsRun(s: State, actions: seq<Action>, t: State) returns (states: seq<State>)
    requires Leads(s, actions, t)
    ensures |states| == |actions| + 1 && states[0] == s && states[|actions|] == t
    ensures forall i :: 0 <= i < |actions| ==> Happens(states, actions, i)
    decreases |actions|
  {
    hide Enabled, Apply;
    if actions == [] {
      states := [s];
    } else {
      var rest := LeadsIsRun(Apply(s, actions[0]), actions[1..], t);
      states := [s] + rest;
      forall i | 0 <= i < |actions| ensures Happens(states, actions, i) {
        if i > 0 {
          assert Happens(rest, actions[1..], i - 1);
        }
      }
    }
  }

  // ---------------------------------------------------------------- from any reachable state

  /** Begin a process and let it take the steps it can take. */
  lemma BeginLeads(s: State, pid: Pid, role: Role, t: nat, n: nat, sh': Shared, p: Proc) returns (actions: seq<Action>)
    requires pid !in s.procs && (role.Mutation? ==> KeyOf(role) !in s.sh.locks)
    requires var begun := Apply(s, Begin(pid, role)); Reaches(begun.sh, begun.procs[pid], t, n, sh', p)
    ensures Leads(s, actions, State(sh', s.procs[pid := p]))
  {
    hide Reaches, Leads;
    var begin := Begin(pid, role);
    var begun := Apply(s, begin);
    LeadsOne(s, begin);
    var rest := ReachesLeads(begun, pid, t, n, sh', p);
    assert begun.procs[pid := p] == s.procs[pid := p];
    LeadsOn(s, [begin], begun, rest, State(sh', s.procs[pid := p]));
    actions := [begin] + rest;
  }

  /** No running attempt works on the key. */
  ghost predicate Unattended(s: State, key: Key) {
    forall pid :: pid in s.procs && s.procs[pid].role.Mutation? ==> KeyOf(s.procs[pid].role) != key
  }

  lemma UnattendedIsFree(states: seq<State>, actions: seq<Action>, n: nat, key: Key)
    requires Run(states, actions) && n < |states| && Unattended(states[n], key)
    ensures key !in states[n].sh.locks
  {
    hide Run;
    if key in states[n].sh.locks {
      LockIsHeld(states, actions, n, key);
    }
  }

  /** What a new attempt finds: no running attempt for its key, an unused key on a
      repository that loads with the local stream as the actor's latest, a request that
      passes its checks, and an intent, if any, that is unfinished, has this request and
      expects the current local head. */
  ghost predicate MayTry(s: State, pid: Pid, r: Request) {
    && pid !in s.procs && Unattended(s, KeyFor(r))
    && Loadable(s.sh.refs) && Public(s.sh.refs, KeyFor(r)) == None
    && SigningRoot(s.sh.refs, r.actor) && Checked(s.sh.refs, r)
    && (KeyFor(r) in s.sh.intents ==>
          var i := s.sh.intents[KeyFor(r)];
          i.request == r && i.stage != Published && i.expected == Lookup(s.sh.refs, Local(r.actor)))
  }

  /** In every reachable state an attempt that may try, the first or a retry after any
      crash, can run to its end, which publishes exactly one artifact with the request: the
      journaled candidate if there is one. */
  lemma TryPublishes(states: seq<State>, actions: seq<Action>, n: nat, pid: Pid, r: Request, t: nat)
      returns (more: seq<Action>, last: State, c: Commit)
    requires Run(states, actions) && n < |states| && MayTry(states[n], pid, r)
    ensures Leads(states[n], more, last) && pid in last.procs && last.procs[pid].pc == Done
    ensures Stream(Lookup(last.sh.refs, Local(r.actor))) ==
      Stream(Lookup(states[n].sh.refs, Local(r.actor))) + [c]
    ensures forall s: Source :: s != Local(r.actor) ==> Lookup(last.sh.refs, s) == Lookup(states[n].sh.refs, s)
    ensures c.artifact.request == r
    ensures KeyFor(r) in states[n].sh.intents && states[n].sh.intents[KeyFor(r)].candidate.Some? ==>
      states[n].sh.intents[KeyFor(r)].candidate == Some(c)
    ensures Lookup(last.sh.intents, KeyFor(r)) == Some(Intent(r, c.parent, Published, Some(c), Some(c.artifact)))
  {
    hide Loadable, Public, Checked, SigningRoot, Leads, Reaches, RefsSound, Journaled, ProcSound, IntentSound;
    RunKeeps(states, actions, n);
    UnattendedIsFree(states, actions, n, KeyFor(r));
    var s := states[n];
    var locked := Locked(s.sh, KeyFor(r), pid);
    LockKeepsIntents(s.sh, locked);
    var steps, sh', p;
    steps, sh', p, c := AttemptCompletes(locked, r, t);
    assert Apply(s, Begin(pid, Mutation(r))) == State(locked, s.procs[pid := Started(r)]);
    more := BeginLeads(s, pid, Mutation(r), t, steps, sh', p);
    last := State(sh', s.procs[pid := p]);
  }

  lemma LockKeepsIntents(sh: Shared, locked: Shared)
    requires IntentsSound(sh) && locked == sh.(lockFiles := locked.lockFiles, locks := locked.locks)
    ensures forall k :: k in sh.intents ==> IntentSound(locked, k, sh.intents[k])
  {
    forall k | k in sh.intents ensures IntentSound(locked, k, sh.intents[k]) {
      assert IntentSound(sh, k, sh.intents[k]);
    }
  }

  /** In every reachable state an attempt for a key that is already accepted, with its
      request and as its intent has it, can run to its end: no ref moves, an unfinished
      intent is published with the accepted artifact, and nothing else changes. */
  lemma TryFinishes(states: seq<State>, actions: seq<Action>, n: nat, pid: Pid, r: Request, t: nat, w: Commit)
      returns (more: seq<Action>, last: State)
    requires Run(states, actions) && n < |states| && pid !in states[n].procs
    requires var sh := states[n].sh;
      && Unattended(states[n], KeyFor(r)) && Loadable(sh.refs) && Public(sh.refs, KeyFor(r)) == Some(w)
      && w.artifact.request == r
      && (KeyFor(r) in sh.intents ==>
            var i := sh.intents[KeyFor(r)];
            i.request == r && i.expected == w.parent && (i.candidate == None || i.candidate == Some(w)))
    ensures Leads(states[n], more, last) && pid in last.procs && last.procs[pid].pc == Done
    ensures last.sh.refs == states[n].sh.refs && last.sh.objects == states[n].sh.objects
    ensures KeyFor(r) in states[n].sh.intents <==> KeyFor(r) in last.sh.intents
    ensures KeyFor(r) in states[n].sh.intents && states[n].sh.intents[KeyFor(r)].stage != Published ==>
      last.sh.intents[KeyFor(r)] == Intent(r, w.parent, Published, Some(w), Some(w.artifact))
    ensures KeyFor(r) in states[n].sh.intents && states[n].sh.intents[KeyFor(r)].stage == Published ==>
      last.sh.intents == states[n].sh.intents
  {
    hide Loadable, Public, Leads, Reaches, RefsSound, Journaled, ProcSound, IntentSound;
    RunKeeps(states, actions, n);
    UnattendedIsFree(states, actions, n, KeyFor(r));
    var s := states[n];
    var locked := Locked(s.sh, KeyFor(r), pid);
    LockKeepsIntents(s.sh, locked);
    var steps, sh', p := AcceptedCompletes(locked, r, t, w);
    assert Apply(s, Begin(pid, Mutation(r))) == State(locked, s.procs[pid := Started(r)]);
    more := BeginLeads(s, pid, Mutation(r), t, steps, sh', p);
    last := State(sh', s.procs[pid := p]);
    SameIntents(s.sh.intents, sh'.intents, KeyFor(r));
  }

  lemma SameIntents(a: map<Key, Intent>, b: map<Key, Intent>, key: Key)
    requires forall k :: k != key ==> Lookup(b, k) == Lookup(a, k)
    ensures Lookup(b, key) == Lookup(a, key) ==> a == b
  {
    if Lookup(b, key) == Lookup(a, key) {
      forall k ensures (k in a <==> k in b) && (k in a ==> a[k] == b[k]) {
        assert Lookup(b, k) == Lookup(a, k);
      }
    }
  }

  /** In every state that loads, an import of promotable streams can run to its end. */
  lemma ImportRuns(s: State, pid: Pid, incoming: map<Actor, Commit>, t: nat) returns (more: seq<Action>, last: State)
    requires pid !in s.procs && Loadable(s.sh.refs) && Promotable(s.sh.refs, incoming)
    ensures Leads(s, more, last) && pid in last.procs && last.procs[pid].pc == Done
    ensures Imports(s.sh.refs, last.sh.refs, incoming) && last.sh.intents == s.sh.intents
  {
    hide Loadable, Promotable, Imports, Leads, Reaches;
    var sh', p := ImportCompletes(s.sh, incoming, t);
    assert Apply(s, Begin(pid, Import(incoming))) == State(s.sh, s.procs[pid := StartedImport(incoming)]);
    more := BeginLeads(s, pid, Import(incoming), t, 4, sh', p);
    last := State(sh', s.procs[pid := p]);
  }
}
