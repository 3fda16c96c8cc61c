/** The artifact mutation protocol, its evidence reader and the exchange importer as
    one step system over durable state. Every action is one durable write, one
    observation or one decision of one process; any interleaving is allowed and a
    process may stop between any two actions, which drops its locks and locals only. */
module Protocol {
  import opened Basics
  import opened Streams

  type Pid = nat

  /** The actor's own ref, or the ref that file exchange promotes. */
  datatype Source = Local(actor: Actor) | Imported(actor: Actor)

  type Refs = map<Source, Commit>

  /** One intent file and one lock file exist per actor and operation. */
  datatype Key = Key(actor: Actor, operation: Operation)

  datatype Stage = Prepared | Publishing | Published

  /** `request` stands for both the request digest and the semantic bytes. */
  datatype Intent = Intent(
    request: Request,
    expected: Option<Commit>,
    stage: Stage,
    candidate: Option<Commit>,
    result: Option<Artifact>)

  /** The key binding and stage rules that the intent decoder enforces. */
  predicate Decodes(key: Key, i: Intent) {
    && Key(i.request.actor, i.request.operation) == key
    && match i.stage
       case Prepared => i.candidate == None && i.result == None
       case Publishing => i.candidate.Some? && i.result == None
       case Published => i.candidate.Some? && i.result == Some(i.candidate.value.artifact)
  }

  datatype Shared = Shared(
    refs: Refs,
    intents: map<Key, Intent>,
    lockFiles: set<Key>,
    locks: map<Key, Pid>,
    objects: set<Commit>)

  datatype Role =
    | Status(of: Key)
    | Mutation(request: Request)
    | Import(incoming: map<Actor, Commit>)

  datatype Pc =
    | Loading | Probe1 | Read1 | Read2 | Probe2 | Refs2 | Read3 | Probe3 | Decide
    | Prepare | Sign | Write | Journal | CheckSources | Publish | Reload | Finish
    | Copy | Promote | Done

  datatype Answer = Found | VerifiedAbsent | Uncertain

  /** `h` is the source list of the loaded history, which determines that history
      because objects are immutable. `intent` is the descriptor in memory. */
  datatype Proc = Proc(
    role: Role,
    pc: Pc,
    h: Refs,
    present: bool,
    settled: bool,
    coherent: bool,
    intent: Option<Intent>,
    draft: Option<Commit>,
    answer: Option<Answer>)

  datatype State = State(sh: Shared, procs: map<Pid, Proc>)

  function KeyOf(role: Role): Key {
    match role
    case Status(k) => k
    case Mutation(r) => Key(r.actor, r.operation)
    case Import(_) => Key(0, 0)
  }

  // ---------------------------------------------------------------- histories

  /** The last commit of the accepted chain of `actor`: that of its longest source. */
  function Tip(refs: Refs, actor: Actor): Option<Commit> {
    var l, i := Lookup(refs, Local(actor)), Lookup(refs, Imported(actor));
    if |Stream(l)| >= |Stream(i)| then l else i
  }

  /** The artifacts of every accepted source. */
  ghost function Accepted(refs: Refs): set<Artifact> {
    set s, c | s in refs && c in Stream(Some(refs[s])) :: c.artifact
  }

  /** Lineage that history validation establishes: parents and openings are present, an
      opening has neither, and a declaration's parents are declarations. */
  ghost predicate Lineage(all: set<Artifact>) {
    forall a :: a in all ==>
      && a.request.parents <= all
      && match a.request.kind
         case TypePublish =>
           a.request.record == None && forall p :: p in a.request.parents ==> p.request.kind == TypePublish
         case RecordOpen => a.request.record == None && a.request.parents == {}
         case _ =>
           && a.request.record.Some? && a.request.record.value in all
           && a.request.record.value.request.kind == RecordOpen
  }

  /** What a successful history load has checked about its sources and their artifacts. */
  ghost predicate Loadable(refs: Refs) {
    && (forall s :: s in refs ==>
          ValidCommit(refs[s], s.actor) && DistinctOperations(Stream(Some(refs[s]))))
    && (forall a: Actor ::
          var l, i := Stream(Lookup(refs, Local(a))), Stream(Lookup(refs, Imported(a)));
          l <= i || i <= l)
    && Lineage(Accepted(refs))
  }

  function Find(s: seq<Commit>, operation: Operation): (r: Option<Commit>)
    ensures r.None? <==> !Uses(s, operation)
    ensures r.Some? ==> r.value in s && r.value.artifact.request.operation == operation
  {
    if s == [] then None
    else if s[0].artifact.request.operation == operation then
      assert s[0] in s;
      Some(s[0])
    else
      var rest := Find(s[1..], operation);
      assert forall c :: c in s <==> c == s[0] || c in s[1..];
      rest
  }

  /** The accepted artifact that already carries the key, if any. */
  function Public(h: Refs, key: Key): Option<Commit> {
    Find(Stream(Tip(h, key.actor)), key.operation)
  }

  predicate SigningRoot(h: Refs, actor: Actor) {
    Tip(h, actor).Some? ==> Lookup(h, Local(actor)) == Tip(h, actor)
  }

  predicate InRecord(a: Artifact, opening: Artifact) {
    (a == opening && a.request.kind == RecordOpen) || a.request.record == Some(opening)
  }

  /** Current heads of one record: its revisions that no revision of it supersedes. */
  ghost function Heads(all: set<Artifact>, opening: Artifact): set<Artifact> {
    set a | a in all && InRecord(a, opening)
      && !(exists b :: b in all && b.request.record == Some(opening) && a in b.request.parents)
  }

  /** The lineage part of the opening, type and successor checks. */
  ghost predicate Checked(h: Refs, r: Request) {
    match r.kind
    case TypePublish =>
      r.record == None && forall p :: p in r.parents ==> p in Accepted(h) && p.request.kind == TypePublish
    case RecordOpen => r.record == None && r.parents == {}
    case _ =>
      && r.record.Some? && r.record.value in Accepted(h)
      && r.record.value.request.kind == RecordOpen
      && r.parents == Heads(Accepted(h), r.record.value)
      && (r.kind != RecordResolve ==> |r.parents| <= 1)
  }

  // ---------------------------------------------------------------- evidence

  function Witness(h: Refs, key: Key, i: Intent): Option<Commit> {
    if i.candidate.Some? then i.candidate else Public(h, key)
  }

  predicate Unavailable(h: Refs, key: Key, intent: Option<Intent>) {
    && intent.Some?
    && Witness(h, key, intent.value).Some?
    && intent.value.expected.Some?
    && intent.value.expected.value !in Stream(Tip(h, key.actor))
  }

  /** The cross-checks of a present intent against the accepted history and the
      object store; when they fail the read is refused. */
  ghost predicate Coheres(objects: set<Commit>, h: Refs, key: Key, intent: Option<Intent>) {
    intent.Some? ==>
      var i, public := intent.value, Public(h, key);
      && Decodes(key, i)
      && (public.Some? ==> public.value.artifact.request == i.request)
      && (i.candidate.Some? ==>
            if public.Some? then i.candidate == public
            else i.candidate.value in objects && i.candidate.value.artifact.request == i.request)
      && (Witness(h, key, i).Some? ==>
            var w := Witness(h, key, i).value;
            && w.parent == i.expected
            && (!Unavailable(h, key, intent) ==>
                  match i.expected
                  case None => w.artifact.sequence == 1 && w.artifact.previous == None
                  case Some(e) =>
                    && w.artifact.sequence == e.artifact.sequence + 1
                    && w.artifact.previous == Some(e.artifact)))
  }

  /** classifyArtifactEvidence, reasons collapsed. */
  function Classify(p: Proc): Answer {
    var key := KeyOf(p.role);
    if !p.coherent then Uncertain
    else if Public(p.h, key).Some? then Found
    else if Unavailable(p.h, key, p.intent) || !p.settled then Uncertain
    else if p.intent == None then VerifiedAbsent
    else Uncertain
  }

  /** The conditions under which a locked attempt goes on to append. */
  ghost predicate MayAppend(p: Proc)
    requires p.role.Mutation?
  {
    var r, key := p.role.request, KeyOf(p.role);
    && !Unavailable(p.h, key, p.intent)
    && (p.intent.Some? ==> p.intent.value.stage != Published)
    && SigningRoot(p.h, r.actor)
    && (p.intent.Some? ==> p.intent.value.expected == Lookup(p.h, Local(r.actor)))
    && Checked(p.h, r)
  }

  /** The accepted and the projected destination both load, no incoming stream
      diverges, and no imported ref would be rewound. */
  ghost predicate Promotable(h: Refs, incoming: map<Actor, Commit>) {
    && Loadable(h)
    && Loadable(Promoted(h, incoming))
    && forall a :: a in incoming ==>
         var s := Stream(Some(incoming[a]));
         && (s <= Stream(Tip(h, a)) || Stream(Tip(h, a)) <= s)
         && (Imported(a) in h ==> h[Imported(a)] in s)
  }

  function Promoted(refs: Refs, incoming: map<Actor, Commit>): (r: Refs)
    ensures forall a :: Local(a) in r <==> Local(a) in refs
    ensures forall a :: Local(a) in refs ==> r[Local(a)] == refs[Local(a)]
    ensures forall a :: a in incoming ==> Imported(a) in r && r[Imported(a)] == incoming[a]
    ensures forall a :: a !in incoming ==> Lookup(r, Imported(a)) == Lookup(refs, Imported(a))
  {
    refs + map s | s in (set a | a in incoming :: Imported(a)) :: incoming[s.actor]
  }

  // ---------------------------------------------------------------- actions

  datatype Action =
    | Begin(pid: Pid, role: Role)
    | Step(pid: Pid, timestamp: nat)
    | Stop(pid: Pid)

  /** The candidate that signing produces on top of the loaded chain. */
  function Candidate(h: Refs, r: Request, timestamp: nat): Commit {
    var tip := Tip(h, r.actor);
    Commit(
      Artifact(r, timestamp, |Stream(tip)| + 1, if tip.Some? then Some(tip.value.artifact) else None),
      Lookup(h, Local(r.actor)))
  }

  ghost predicate StepEnabled(sh: Shared, p: Proc) {
    var key := KeyOf(p.role);
    match p.pc
    case Loading =>
      Loadable(sh.refs) && (p.role.Import? ==> Promotable(sh.refs, p.role.incoming))
    case Read1 => Coheres(sh.objects, p.h, key, Lookup(sh.intents, key))
    case Decide =>
      p.role.Mutation? ==>
        && p.coherent
        && (p.intent.Some? ==> p.intent.value.request == p.role.request)
        && (var public := Public(p.h, key);
            if public.Some? then public.value.artifact.request == p.role.request else MayAppend(p))
    case Sign => sh.refs == p.h
    case CheckSources => sh.refs == p.h
    case Publish =>
      p.intent.Some? && Lookup(sh.refs, Local(key.actor)) == p.intent.value.expected
    case Reload =>
      && Loadable(sh.refs) && p.intent.Some? && p.intent.value.candidate.Some?
      && p.intent.value.candidate.value in Stream(Tip(sh.refs, key.actor))
    case Promote =>
      p.role.Import? && forall a :: a in p.role.incoming ==>
        Lookup(sh.refs, Imported(a)) == Lookup(p.h, Imported(a))
    case Done => false
    case _ => true
  }

  function Save(sh: Shared, key: Key, i: Intent): Shared {
    sh.(intents := sh.intents[key := i])
  }

  function Finished(i: Intent, c: Commit): Intent {
    i.(stage := Published,
       candidate := if i.candidate.None? then Some(c) else i.candidate,
       result := Some(c.artifact))
  }

  /** Replay, finish or append; a status reader answers. */
  function Decided(p: Proc): Proc {
    var key := KeyOf(p.role);
    if !p.role.Mutation? then p.(answer := Some(Classify(p)), pc := Done)
    else if Public(p.h, key).Some? then
      if p.intent == None || p.intent.value.stage == Published then p.(pc := Done)
      else p.(draft := Public(p.h, key), pc := Finish)
    else if p.intent == None then p.(pc := Prepare)
    else p.(pc := if p.intent.value.candidate == None then Sign else CheckSources)
  }

  /** One action of a running process. */
  function StepResult(sh: Shared, p: Proc, timestamp: nat): (r: (Shared, Proc))
    ensures r.1.role == p.role
  {
    var key := KeyOf(p.role);
    match p.pc
    case Loading => (sh, p.(h := sh.refs, pc := if p.role.Import? then CheckSources else Probe1))
    case Probe1 => (sh, p.(present := key in sh.lockFiles, settled := key !in sh.locks, pc := Read1))
    case Read1 => (sh, p.(intent := Lookup(sh.intents, key), coherent := true, pc := Read2))
    case Read2 => (sh, p.(coherent := Lookup(sh.intents, key) == p.intent, pc := Probe2))
    case Probe2 =>
      (sh, p.(coherent := p.coherent && p.present == (key in sh.lockFiles),
              settled := p.settled && key !in sh.locks, pc := Refs2))
    case Refs2 => (sh, p.(coherent := p.coherent && sh.refs == p.h, pc := Read3))
    case Read3 =>
      (sh, p.(coherent := p.coherent && Lookup(sh.intents, key) == p.intent, pc := Probe3))
    case Probe3 =>
      (sh, p.(coherent := p.coherent && p.present == (key in sh.lockFiles),
              settled := p.settled && key !in sh.locks, pc := Decide))
    case Decide => (sh, Decided(p))
    case Prepare =>
      if !p.role.Mutation? then (sh, p)
      else
        var i := Intent(p.role.request, Lookup(p.h, Local(key.actor)), Prepared, None, None);
        (Save(sh, key, i), p.(intent := Some(i), pc := Sign))
    case Sign =>
      if !p.role.Mutation? then (sh, p)
      else (sh, p.(draft := Some(Candidate(p.h, p.role.request, timestamp)), pc := Write))
    case Write =>
      if p.draft == None then (sh, p)
      else (sh.(objects := sh.objects + {p.draft.value}), p.(pc := Journal))
    case Journal =>
      if p.intent == None then (sh, p)
      else
        var i := p.intent.value.(stage := Publishing, candidate := p.draft);
        (Save(sh, key, i), p.(intent := Some(i), pc := CheckSources))
    case CheckSources => (sh, p.(pc := if p.role.Import? then Copy else Publish))
    case Publish =>
      if p.intent == None || p.intent.value.candidate == None then (sh, p)
      else
        (sh.(refs := sh.refs[Local(key.actor) := p.intent.value.candidate.value]), p.(pc := Reload))
    case Reload =>
      if p.intent == None then (sh, p)
      else (sh, p.(h := sh.refs, draft := p.intent.value.candidate, pc := Finish))
    case Finish =>
      if p.intent == None || p.draft == None then (sh, p)
      else
        var i := Finished(p.intent.value, p.draft.value);
        (Save(sh, key, i), p.(intent := Some(i), pc := Done))
    case Copy =>
      if !p.role.Import? then (sh, p)
      else
        (sh.(objects := sh.objects +
               set a, c | a in p.role.incoming && c in Stream(Some(p.role.incoming[a])) :: c),
         p.(pc := Promote))
    case Promote =>
      if !p.role.Import? then (sh, p)
      else (sh.(refs := Promoted(sh.refs, p.role.incoming)), p.(pc := Done))
    case Done => (sh, p)
  }

  ghost predicate Enabled(s: State, a: Action) {
    match a
    case Begin(pid, role) =>
      && pid !in s.procs
      && (role.Mutation? ==> KeyOf(role) !in s.sh.locks)
    case Step(pid, _) => pid in s.procs && StepEnabled(s.sh, s.procs[pid])
    case Stop(pid) => pid in s.procs
  }

  function Locked(sh: Shared, key: Key, pid: Pid): Shared {
    sh.(lockFiles := sh.lockFiles + {key}, locks := sh.locks[key := pid])
  }

  function Apply(s: State, a: Action): State {
    match a
    case Begin(pid, role) =>
      State(
        if role.Mutation? then Locked(s.sh, KeyOf(role), pid) else s.sh,
        s.procs[pid := Proc(role, Loading, map[], false, false, false, None, None, None)])
    case Step(pid, timestamp) =>
      if pid !in s.procs then s
      else
        var (sh, p) := StepResult(s.sh, s.procs[pid], timestamp);
        State(sh, s.procs[pid := p])
    case Stop(pid) =>
      State(
        s.sh.(locks := map k | k in s.sh.locks && s.sh.locks[k] != pid :: s.sh.locks[k]),
        s.procs - {pid})
  }

  // ---------------------------------------------------------------- runs

  /** A repository with sound refs, no intents and no running process. */
  ghost predicate Initial(s: State) {
    && s.procs == map[] && s.sh.locks == map[] && s.sh.intents == map[] && s.sh.lockFiles == {}
    && forall r :: r in s.sh.refs ==>
         && ValidCommit(s.sh.refs[r], r.actor)
         && DistinctOperations(Stream(Some(s.sh.refs[r])))
         && forall c :: c in Stream(Some(s.sh.refs[r])) ==> c in s.sh.objects
  }

  /** `states` is what the actions produce one by one from an initial state. */
  ghost predicate Run(states: seq<State>, actions: seq<Action>) {
    && |states| == |actions| + 1
    && Initial(states[0])
    && forall i :: 0 <= i < |actions| ==> Happens(states, actions, i)
  }

  ghost predicate Happens(states: seq<State>, actions: seq<Action>, i: nat)
    requires i < |actions| && |states| == |actions| + 1
  {
    Enabled(states[i], actions[i]) && states[i + 1] == Apply(states[i], actions[i])
  }
}
