/**
 The generation store: any number of processes run `load_or_bootstrap` and `refresh` over one shared
 directory. Each step is one file-system operation, or a stretch of reads of data that no process changes;
 a process may fail at any step, running its cleanup, or crash at any step, running none.
 */
module StoreProtocol {
  import opened Bytes

  type Text = seq<byte>
  type ProcessId = nat
  type StageId = nat
  type Digest = nat
  type GenerationId = nat

  /** The ETags a download was answered with; a server may send none. */
  datatype ETags = ETags(model: Option<nat>, thresholds: Option<nat>) {
    predicate Complete() { model.Some? && thresholds.Some? }
  }

  /** SHA-256, the digest of the two digests, and whether the classifier loads a pair of artifacts. */
  datatype Oracle = Oracle(sha: Text -> Digest, id: (Digest, Digest) -> GenerationId, loads: (Text, Text) -> bool)

  /** The manifest's hash and size of one artifact. */
  datatype Artifact = Artifact(sha: Digest, size: nat)

  datatype Manifest = Manifest(generation: GenerationId, model: Artifact, thresholds: Artifact)

  datatype Dir = Dir(model: Option<Text>, thresholds: Option<Text>, manifest: Option<Manifest>)

  /** Entries of the generations directory: staging directories and content-addressed generations. */
  datatype Name = Staging(stage: StageId) | Generation(id: GenerationId)

  datatype Pointer = Pointer(generation: GenerationId, remote: ETags)

  datatype Call = Load | Refresh(published: Option<GenerationId>)

  /** What a normal return says: an adopted pointer's generation was loaded, or the published one is current. */
  datatype Outcome = Loaded(p: Pointer) | Updated(p: Pointer) | Current

  datatype Pc =
    | ReadFirst
    | Bootstrap
    | LoadPointed(p: Pointer)
    | CheckPublished(p: Pointer)
    | ReadAgain(p: Pointer)
    | MakeStage(expected: Option<Pointer>)
    | Download(expected: Option<Pointer>, stage: StageId)
    | ValidateStage(expected: Option<Pointer>, stage: StageId, remote: ETags)
    | Promote(expected: Option<Pointer>, stage: StageId, next: Pointer)
    | LoadCandidate(expected: Option<Pointer>, stage: StageId, next: Pointer)
    | AcquireLock(expected: Option<Pointer>, stage: StageId, next: Pointer)
    | Compare(expected: Option<Pointer>, stage: StageId, next: Pointer)
    | Replace(expected: Option<Pointer>, stage: StageId, next: Pointer)
    | Release(expected: Option<Pointer>, stage: StageId, next: Pointer)
    | LoadPeer(expected: Option<Pointer>, stage: StageId, peer: Pointer)
    | Discard(stage: StageId, outcome: Option<Outcome>)
    | Returned(result: Outcome)
    | Raised
    | Crashed

  /** A call in progress, or ended. */
  datatype Process = Process(
    call: Call,
    since: nat,                            // how many values the pointer file had had when the call began
    looks: seq<Option<Pointer>>,           // what each of the call's reads of the pointer file found
    remote: Option<ETags>,                 // the metadata looked up before any download
    committed: Option<Pointer>,            // what the call wrote to the pointer file
    pc: Pc)

  datatype Commit = Commit(expected: Option<Pointer>, next: Pointer)

  datatype Store = Store(
    entries: map<Name, Dir>,
    used: set<StageId>,                    // names drawn by uuid4, which never repeat
    pointer: Option<Pointer>,
    lock: Option<ProcessId>,
    processes: map<ProcessId, Process>,
    history: seq<Option<Pointer>>,         // every value the pointer file has had, the current one last
    commits: seq<Commit>)                  // what each committer expected to replace, and with what

  datatype Action =
    | Begin(call: Call)
    | Advance                              // the next operation of the call
    | SeeRemote(remote: ETags)             // the metadata lookup, and the second pointer read of a refresh
    | NewStage(stage: StageId)
    | Write(content: Dir)                  // any partial download
    | Fetched(model: Text, thresholds: Text, remote: ETags, after: ETags)   // two bodies, and a second lookup
    | Fail                                 // a deadline, an I/O error, or a rejected artifact
    | Crash

  // ---------- generations ----------

  function Manifested(or: Oracle, model: Text, thresholds: Text): Manifest {
    var m, t := or.sha(model), or.sha(thresholds);
    Manifest(or.id(m, t), Artifact(m, |model|), Artifact(t, |thresholds|))
  }

  /** `_validate_generation`: the directory's manifest, hashes, sizes and id all agree with its name. */
  predicate Agrees(or: Oracle, dir: Dir, g: GenerationId) {
    && dir.model.Some? && dir.thresholds.Some?
    && dir.manifest == Some(Manifested(or, dir.model.value, dir.thresholds.value))
    && dir.manifest.value.generation == g
  }

  predicate Loads(or: Oracle, dir: Dir) {
    dir.model.Some? && dir.thresholds.Some? && or.loads(dir.model.value, dir.thresholds.value)
  }

  /** `_load_generation` succeeds. */
  predicate Loadable(or: Oracle, entries: map<Name, Dir>, g: GenerationId) {
    Generation(g) in entries && Agrees(or, entries[Generation(g)], g) && Loads(or, entries[Generation(g)])
  }

  predicate Valid(or: Oracle, entries: map<Name, Dir>, g: GenerationId) {
    Generation(g) in entries && Agrees(or, entries[Generation(g)], g)
  }

  /** `_assert_stable_etags`: the ETags that were sent, before, with and after a download, are all the same. */
  predicate Stable(before: Option<nat>, during: Option<nat>, after: Option<nat>) {
    && (before.Some? && during.Some? ==> before == during)
    && (before.Some? && after.Some? ==> before == after)
    && (during.Some? && after.Some? ==> during == after)
  }

  predicate SameBundle(before: ETags, during: ETags, after: ETags) {
    && Stable(before.model, during.model, after.model)
    && Stable(before.thresholds, during.thresholds, after.thresholds)
  }

  // ---------- the steps ----------

  /** The call read the pointer file and moves on. */
  function Looked(s: Store, p: ProcessId, pc: Pc): Store
    requires p in s.processes
  {
    var proc := s.processes[p];
    s.(processes := s.processes[p := proc.(looks := proc.looks + [s.pointer], pc := pc)])
  }

  function To(s: Store, p: ProcessId, pc: Pc): Store
    requires p in s.processes
  {
    s.(processes := s.processes[p := s.processes[p].(pc := pc)])
  }

  predicate Holds(pc: Pc) {
    pc.Compare? || pc.Replace? || pc.Release?
  }

  /** The staging directory the call still has to discard. */
  function StageOf(pc: Pc): Option<StageId> {
    match pc
    case Download(_, k) => Some(k)
    case ValidateStage(_, k, _) => Some(k)
    case Promote(_, k, _) => Some(k)
    case LoadCandidate(_, k, _) => Some(k)
    case AcquireLock(_, k, _) => Some(k)
    case Compare(_, k, _) => Some(k)
    case Replace(_, k, _) => Some(k)
    case Release(_, k, _) => Some(k)
    case LoadPeer(_, k, _) => Some(k)
    case Discard(k, _) => Some(k)
    case _ => None
  }

  predicate Ended(pc: Pc) {
    pc.Returned? || pc.Raised? || pc.Crashed?
  }

  /** An exception releases the lock and then discards the stage; a failed discard raises at once. */
  function Failed(s: Store, p: ProcessId): Store
    requires p in s.processes
  {
    var pc := s.processes[p].pc;
    if Ended(pc) then s
    else
      var after := if StageOf(pc).Some? && !pc.Discard? then Discard(StageOf(pc).value, None) else Raised;
      To(s, p, after).(lock := if Holds(pc) then None else s.lock)
  }

  /** What `refresh` and `load_or_bootstrap` make of the pointer that is in place after a publication. */
  function OutcomeOf(call: Call, expected: Option<Pointer>, p: Pointer): Outcome {
    match call
    case Load => Loaded(p)
    case Refresh(published) => if expected.Some? && published == Some(p.generation) then Current else Updated(p)
  }

  function Adopt(call: Call, p: Pointer): Outcome {
    match call
    case Load => Loaded(p)
    case Refresh(_) => Updated(p)
  }

  function Begun(s: Store, p: ProcessId, call: Call): Store {
    if p in s.processes && !Ended(s.processes[p].pc) then s
    else s.(processes := s.processes[p := Process(call, |s.history|, [], None, None, ReadFirst)])
  }

  /** The steps before the call owns a staging directory. */
  function AdvanceUnstaged(or: Oracle, s: Store, p: ProcessId): Store
    requires p in s.processes
  {
    var call := s.processes[p].call;
    match s.processes[p].pc
    case ReadFirst =>
      if s.lock.Some? then s
      else if s.pointer.None? then Looked(s, p, Bootstrap)
      else if call.Refresh? && call.published == Some(s.pointer.value.generation)
      then Looked(s, p, CheckPublished(s.pointer.value))
      else Looked(s, p, LoadPointed(s.pointer.value))
    case LoadPointed(ptr) =>
      if Loadable(or, s.entries, ptr.generation) then To(s, p, Returned(Adopt(call, ptr))) else Failed(s, p)
    case CheckPublished(ptr) =>
      if Valid(or, s.entries, ptr.generation) then To(s, p, ReadAgain(ptr)) else Failed(s, p)
    case _ => s
  }

  /** The second pointer read of `refresh`, after the remote's ETags were looked up. */
  function SecondRead(s: Store, p: ProcessId, remote: ETags): Store
    requires p in s.processes && s.processes[p].pc.ReadAgain?
  {
    if s.lock.Some? then s
    else if s.pointer.None? then Failed(s, p)
    else
      var proc := s.processes[p];
      s.(processes := s.processes[
         p := proc.(looks := proc.looks + [s.pointer], remote := Some(remote), pc := Decided(s, p, remote))])
  }

  /** A peer's commit is adopted; unchanged ETags, all present, end the call; otherwise a download begins. */
  function Decided(s: Store, p: ProcessId, remote: ETags): Pc
    requires p in s.processes && s.processes[p].pc.ReadAgain? && s.pointer.Some?
  {
    var ptr, call := s.processes[p].pc.p, s.processes[p].call;
    if s.pointer.value != ptr then
      if call.Refresh? && call.published == Some(s.pointer.value.generation) then Returned(Current)
      else LoadPointed(s.pointer.value)
    else if ptr.remote.Complete() && remote.Complete() && ptr.remote == remote then Returned(Current)
    else MakeStage(Some(ptr))
  }

  /** The steps of a call that owns a staging directory. */
  function AdvanceStaged(or: Oracle, s: Store, p: ProcessId): Store
    requires p in s.processes
  {
    var call := s.processes[p].call;
    match s.processes[p].pc
    case ValidateStage(expected, k, remote) => Validated(or, s, p, expected, k, remote)
    case Promote(expected, k, next) => Promoted(s, p, expected, k, next)
    case LoadCandidate(expected, k, next) =>
      if Loadable(or, s.entries, next.generation) then To(s, p, AcquireLock(expected, k, next)) else Failed(s, p)
    case AcquireLock(expected, k, next) =>
      if s.lock.Some? then s else To(s, p, Compare(expected, k, next)).(lock := Some(p))
    case Compare(expected, k, next) =>
      if s.pointer == expected then Looked(s, p, Replace(expected, k, next))
      else if s.pointer.None? then Failed(s, p)
      else Looked(s, p, LoadPeer(expected, k, s.pointer.value)).(lock := None)
    case Replace(expected, k, next) => Replaced(s, p, expected, k, next)
    case Release(expected, k, next) =>
      To(s, p, Discard(k, Some(OutcomeOf(call, expected, next)))).(lock := None)
    case LoadPeer(expected, k, peer) =>
      if Loadable(or, s.entries, peer.generation)
      then To(s, p, Discard(k, Some(OutcomeOf(call, expected, peer)))) else Failed(s, p)
    case Discard(k, outcome) => Discarded(s, p, k, outcome)
    case _ => s
  }

  /** The candidate is loaded from the stage, hashed, and described by a manifest in the stage. */
  function Validated(or: Oracle, s: Store, p: ProcessId, expected: Option<Pointer>, k: StageId, remote: ETags): Store
    requires p in s.processes
  {
    if Staging(k) !in s.entries then Failed(s, p)
    else
      var dir := s.entries[Staging(k)];
      if !Loads(or, dir) then Failed(s, p)
      else
        var m := Manifested(or, dir.model.value, dir.thresholds.value);
        To(s, p, Promote(expected, k, Pointer(m.generation, remote))).(
        entries := s.entries[Staging(k) := dir.(manifest := Some(m))])
  }

  /** Renames the stage to its content address, unless a directory of that name already exists. */
  function Promoted(s: Store, p: ProcessId, expected: Option<Pointer>, k: StageId, next: Pointer): Store
    requires p in s.processes
  {
    if Generation(next.generation) in s.entries then To(s, p, LoadCandidate(expected, k, next))
    else if Staging(k) !in s.entries then Failed(s, p)
    else
      To(s, p, LoadCandidate(expected, k, next)).(
      entries := (s.entries - {Staging(k)})[Generation(next.generation) := s.entries[Staging(k)]])
  }

  /** The pointer file is replaced while the process lock is held. */
  function Replaced(s: Store, p: ProcessId, expected: Option<Pointer>, k: StageId, next: Pointer): Store
    requires p in s.processes
  {
    s.(
    processes := s.processes[p := s.processes[p].(committed := Some(next), pc := Release(expected, k, next))],
    pointer := Some(next), history := s.history + [Some(next)], commits := s.commits + [Commit(expected, next)])
  }

  function Acted(or: Oracle, s: Store, p: ProcessId, a: Action): Store
    requires p in s.processes
  {
    var pc := s.processes[p].pc;
    match a
    case Begin(_) => s
    case Advance => if StageOf(pc).Some? then AdvanceStaged(or, s, p) else AdvanceUnstaged(or, s, p)
    case SeeRemote(remote) =>
      if pc.ReadAgain? then SecondRead(s, p, remote)
      else if pc.Bootstrap?
      then s.(processes := s.processes[p := s.processes[p].(remote := Some(remote), pc := MakeStage(None))])
      else s
    case NewStage(k) =>
      if !pc.MakeStage? || k in s.used || Staging(k) in s.entries then s
      else To(s, p, Download(pc.expected, k)).(
        used := s.used + {k}, entries := s.entries[Staging(k) := Dir(None, None, None)])
    case Write(content) =>
      if !pc.Download? then s else s.(entries := s.entries[Staging(pc.stage) := content])
    case Fetched(model, thresholds, remote, after) =>
      if !pc.Download? then s
      else if s.processes[p].remote.None? || !SameBundle(s.processes[p].remote.value, remote, after) then Failed(s, p)
      else To(s, p, ValidateStage(pc.expected, pc.stage, remote)).(
        entries := s.entries[Staging(pc.stage) := Dir(Some(model), Some(thresholds), None)])
    case Fail => Failed(s, p)
    case Crash =>
      if Ended(pc) then s else To(s, p, Crashed).(lock := if Holds(pc) then None else s.lock)
  }

  /** Removes the staging directory, if it is still there, and ends the call. */
  function Discarded(s: Store, p: ProcessId, k: StageId, outcome: Option<Outcome>): Store
    requires p in s.processes
  {
    To(s, p, if outcome.Some? then Returned(outcome.value) else Raised).(entries := s.entries - {Staging(k)})
  }

  function Step(or: Oracle, s: Store, p: ProcessId, a: Action): Store {
    if a.Begin? then Begun(s, p, a.call)
    else if p !in s.processes then s
    else Acted(or, s, p, a)
  }

  // ---------- what every step keeps ----------

  /** The pointer value has been in place at some instant since the call began. */
  ghost predicate Seen(s: Store, since: nat, v: Option<Pointer>) {
    exists i :: since - 1 <= i < |s.history| && 0 <= i && s.history[i] == v
  }

  /** The pointer value was written since the call began. */
  ghost predicate Written(s: Store, since: nat, v: Pointer) {
    exists i :: since <= i < |s.history| && s.history[i] == Some(v)
  }

  /** A normal return matches a pointer value that was in place inside the call; Current needs a reason. */
  ghost predicate Matches(s: Store, proc: Process, r: Outcome) {
    match r
    case Loaded(ptr) => proc.call.Load? && Seen(s, proc.since, Some(ptr))
    case Updated(ptr) => proc.call.Refresh? && Seen(s, proc.since, Some(ptr))
    case Current => proc.call.Refresh? && proc.call.published.Some? && (Unchanged(s, proc) || Recommitted(s, proc))
  }

  /** The pointer in place carried the complete ETags that this call's metadata check saw. */
  ghost predicate Unchanged(s: Store, proc: Process)
    requires proc.call.Refresh? && proc.call.published.Some?
  {
    && proc.remote.Some? && proc.remote.value.Complete()
    && Seen(s, proc.since, Some(Pointer(proc.call.published.value, proc.remote.value)))
  }

  /** The published generation was committed again inside the call. */
  ghost predicate Recommitted(s: Store, proc: Process)
    requires proc.call.Refresh? && proc.call.published.Some?
  {
    exists remote :: Written(s, proc.since, Pointer(proc.call.published.value, remote))
  }

  /** The generation that a result names loads. */
  predicate Intact(or: Oracle, entries: map<Name, Dir>, r: Outcome) {
    r.Current? || Loadable(or, entries, r.p.generation)
  }

  /** The pointer file's values: the last is the present one, each commit replaced what it expected. */
  ghost predicate Chained(s: Store) {
    && |s.history| == |s.commits| + 1 && s.history[|s.commits|] == s.pointer
    && forall i | 0 <= i < |s.commits| ::
         s.history[i] == s.commits[i].expected && s.history[i + 1] == Some(s.commits[i].next)
  }

  /** Every pointer value written since the start names a directory that agrees with its name and loads. */
  ghost predicate Named(or: Oracle, s: Store) {
    forall i | 1 <= i < |s.history| :: s.history[i].Some? ==> Loadable(or, s.entries, s.history[i].value.generation)
  }

  ghost predicate LockHeld(s: Store) {
    && (s.lock.Some? ==> s.lock.value in s.processes)
    && forall p <- s.processes :: Holds(s.processes[p].pc) <==> s.lock == Some(p)
  }

  ghost predicate StagesApart(s: Store) {
    && (forall p <- s.processes :: StageOf(s.processes[p].pc).Some? ==> StageOf(s.processes[p].pc).value in s.used)
    && forall p, q | p in s.processes && q in s.processes && p != q && StageOf(s.processes[p].pc).Some? ::
         StageOf(s.processes[p].pc) != StageOf(s.processes[q].pc)
  }

  ghost predicate Knows(or: Oracle, s: Store, proc: Process) {
    match proc.pc
    case Bootstrap => Seen(s, proc.since, None)
    case LoadPointed(ptr) => Seen(s, proc.since, Some(ptr))
    case CheckPublished(ptr) => proc.call == Refresh(Some(ptr.generation)) && Seen(s, proc.since, Some(ptr))
    case ReadAgain(ptr) => proc.call == Refresh(Some(ptr.generation)) && Seen(s, proc.since, Some(ptr))
    case MakeStage(e) => Seen(s, proc.since, e)
    case Download(e, _) => Seen(s, proc.since, e)
    case ValidateStage(e, _, _) => Seen(s, proc.since, e)
    case Promote(e, k, next) => Seen(s, proc.since, e)
      && Staging(k) in s.entries && Agrees(or, s.entries[Staging(k)], next.generation) && Loads(or, s.entries[Staging(k)])
    case LoadCandidate(e, _, _) => Seen(s, proc.since, e)
    case AcquireLock(e, _, next) => Seen(s, proc.since, e) && Loadable(or, s.entries, next.generation)
    case Compare(e, _, next) => Seen(s, proc.since, e) && Loadable(or, s.entries, next.generation)
    case Replace(e, _, next) => s.pointer == e && Loadable(or, s.entries, next.generation)
    case Release(_, _, next) => Written(s, proc.since, next) && Loadable(or, s.entries, next.generation)
    case LoadPeer(_, _, peer) => Written(s, proc.since, peer)
    case Discard(_, outcome) =>
      outcome.Some? ==> Matches(s, proc, outcome.value) && Intact(or, s.entries, outcome.value)
    case Returned(r) => Matches(s, proc, r) && Intact(or, s.entries, r)
    case _ => true
  }

  ghost predicate Safe(or: Oracle, s: Store) {
    && Chained(s) && Named(or, s) && LockHeld(s) && StagesApart(s)
    && forall p <- s.processes :: s.processes[p].since <= |s.history| && Knows(or, s, s.processes[p])
  }
}
