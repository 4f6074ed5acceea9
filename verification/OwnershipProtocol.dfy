/**
 Any number of tasks interleaving the owner's lock blocks: preparation and prediction tasks, cleanups,
 lease releases, publications and closes. One action is one lock block of one task, or a task's
 failure between two blocks; an action that its task cannot take changes nothing, so every sequence
 of actions is a run.
 */
module OwnershipProtocol {
  import opened Bytes
  import opened Ownership
  import opened OwnershipAccounting

  type TaskId = nat
  type CleanupId = nat
  type CloseId = nat

  /** Where a task is in `prepare`, `prepare_async` or `_prepare_async`. */
  datatype Phase =
    | Looking                                 // about to look for a usable worker
    | Absent                                  // none found: about to spawn
    | Spawning(registered: Option<WorkerId>)  // counted in _spawning
    | Spawned(worker: WorkerId)               // waiting for READY
    | Chosen(worker: WorkerId)                // about to attach its lease
    | Ended

  /** A preparation of d, on behalf of a pending lease when a prediction needs it. */
  datatype Task = Task(d: Descriptor, lease: Option<LeaseId>, phase: Phase)

  datatype Close = Waiting | Drained | Reaping(remaining: set<WorkerId>) | Closed

  /**
   The call a lease was reserved for. `_predict_labels` looks at its deadline between reserving and predicting,
   and an expired one leaves the call without a release; `predict` goes on at once. Every exit of
   `predict_reserved` releases.
   */
  datatype Prediction = Reserved | Running | Abandoned | Released

  /** The publication lock, held by `_publish` or by `_predict_labels`. */
  datatype Publication = Free | Publishing(d: Descriptor) | Committing(d: Descriptor) | Predicting

  datatype System = System(
    o: Owner,
    tasks: map<TaskId, Task>,
    cleanups: map<CleanupId, WorkerId>,   // cleanups that own their worker's termination
    handed: set<WorkerId>,                // workers that some caller has been told to clean up
    closes: map<CloseId, Close>,
    lock: Publication,
    published: Option<Descriptor>,
    predictions: map<LeaseId, Prediction>)

  const INITIAL := System(EMPTY, map[], map[], {}, map[], Free, None, map[])

  datatype Action =
    | Prepare(t: TaskId, d: Descriptor)
    | PrepareLease(t: TaskId, l: LeaseId)
    | LookUp(t: TaskId, alive: set<WorkerId>)
    | TrySpawn(t: TaskId)
    | Start(t: TaskId, w: WorkerId)
    | SpawnEnds(t: TaskId, failed: bool)
    | GiveUp(t: TaskId)
    | Ready(t: TaskId, alive: set<WorkerId>)
    | AttachLease(t: TaskId)
    | ReserveLease(d: Descriptor, l: LeaseId, alive: set<WorkerId>)
    | CheckDeadline(l: LeaseId, expired: bool)
    | ReleaseLease(l: LeaseId)
    | RetireRequest(w: WorkerId)
    | ClaimWorker(c: CleanupId, w: WorkerId)
    | FinishWorker(c: CleanupId, proved: bool)
    | LockToPublish(d: Descriptor)
    | ActivateLocked(alive: set<WorkerId>)
    | CommitPublished
    | LockToPredict
    | ReservePublished(l: LeaseId, alive: set<WorkerId>)
    | StartClose(k: CloseId)
    | SeeNoSpawns(k: CloseId)
    | SnapshotOwned(k: CloseId)
    | SeeReaped(k: CloseId, w: WorkerId)
    | CloseReturns(k: CloseId)

  // ---------- the steps ----------

  predicate Predicts(s: System, l: LeaseId) {
    l in s.o.leases && l in s.predictions && s.predictions[l].Running?
  }

  predicate Prepared(tasks: map<TaskId, Task>, l: LeaseId) {
    exists t <- tasks :: tasks[t].lease == Some(l)
  }

  function At(s: System, t: TaskId): Phase {
    if t in s.tasks then s.tasks[t].phase else Ended
  }

  function Move(s: System, t: TaskId, phase: Phase): System
    requires t in s.tasks
  {
    s.(tasks := s.tasks[t := s.tasks[t].(phase := phase)])
  }

  /** A worker serves the task: a prediction goes on to attach its lease, a preload is done. */
  function Onward(s: System, t: TaskId, w: WorkerId): System
    requires t in s.tasks
  {
    Move(s, t, if s.tasks[t].lease.Some? then Chosen(w) else Ended)
  }

  /** The lock block that follows a READY message. */
  function AfterReady(s: System, t: TaskId, w: WorkerId, alive: set<WorkerId>): System
    requires s.o.Linked() && t in s.tasks && w in s.o.workers
  {
    match EnlistOutcome(s.o, s.o.workers[w].descriptor, alive)
    case Selected => Onward(s, t, w).(o := Enlist(s.o, w, alive))
    case Redundant(e) => Onward(s, t, e).(handed := s.handed + {w})
    case Unresolved => Move(s, t, Ended).(handed := s.handed + {w})
    case EnlistConflict => Move(s, t, Ended)
  }

  function StepTask(s: System, a: Action): System
    requires s.o.Linked()
  {
    match a
    case Prepare(t, d) =>
      if t in s.tasks then s else s.(tasks := s.tasks[t := Task(d, None, Looking)])
    case PrepareLease(t, l) =>
      // A lease is prepared for at most once: at most one predict_reserved call per lease.
      if t in s.tasks || !Predicts(s, l) || s.o.leases[l].worker.Some? || Prepared(s.tasks, l) then s
      else s.(tasks := s.tasks[t := Task(s.o.leases[l].descriptor, Some(l), Looking)])
    case LookUp(t, alive) =>
      if !At(s, t).Looking? then s
      else (
        match Usable(s.o, s.tasks[t].d, alive)
        case Missing => Move(s, t, Absent)
        case Conflict => Move(s, t, Ended)
        case Found(w) => Onward(s, t, w))
    case TrySpawn(t) =>
      if !At(s, t).Absent? then s
      else (
        match BeginSpawn(s.o)
        case None => Move(s, t, Ended)
        case Some(o) => Move(s, t, Spawning(None)).(o := o))
    case Start(t, w) =>
      if At(s, t) != Spawning(None) || w in s.o.workers then s
      else Move(s, t, Spawning(Some(w))).(o := Register(s.o, w, s.tasks[t].d))
    case SpawnEnds(t, failed) =>
      if !At(s, t).Spawning? || s.o.spawning == 0 then s
      else
        var r := s.tasks[t].phase.registered;
        Move(s, t, if failed || r.None? then Ended else Spawned(r.value)).(o := EndSpawn(s.o))
    case GiveUp(t) => (
      match At(s, t)
      case Looking | Absent | Chosen(_) => Move(s, t, Ended)
      case Spawned(w) => Move(s, t, Ended).(handed := s.handed + {w})
      case Spawning(Some(w)) => s.(handed := s.handed + {w})
      case _ => s)
    case Ready(t, alive) =>
      if !At(s, t).Spawned? || s.tasks[t].phase.worker !in s.o.workers then s
      else AfterReady(s, t, s.tasks[t].phase.worker, alive)
    case AttachLease(t) =>
      if !At(s, t).Chosen? || s.tasks[t].lease.None? then s
      else (
        var w, l := s.tasks[t].phase.worker, s.tasks[t].lease.value;
        if w !in s.o.workers || l !in s.o.leases then s
        else
          match Attach(s.o, l, w)
          case None => Move(s, t, Ended)
          case Some(o) => Move(s, t, Ended).(o := o))
    case _ => s
  }

  function StepLease(s: System, a: Action): System
    requires s.o.Linked()
  {
    match a
    case ReserveLease(d, l, alive) =>
      if l in s.o.leases then s
      else (
        match Reserve(s.o, d, l, alive)
        case None => s
        case Some(o) => s.(o := o, predictions := s.predictions[l := Running]))
    case CheckDeadline(l, expired) =>
      if l !in s.predictions || !s.predictions[l].Reserved? then s
      else s.(predictions := s.predictions[l := if expired then Abandoned else Running])
    case ReleaseLease(l) =>
      if !Predicts(s, l) then s
      else
        s.(o := Release(s.o, l), handed := s.handed + HandedOut(s.o, l), predictions := s.predictions[l := Released])
    case RetireRequest(w) =>
      if w !in s.o.workers then s else s.(o := Retire(s.o, w), handed := s.handed + {w})
    case ClaimWorker(c, w) =>
      if c in s.cleanups || w !in s.handed || w !in s.o.workers || !ClaimOf(s.o, w).Granted? then s
      else s.(o := ClaimCleanup(s.o, w), cleanups := s.cleanups[c := w])
    case FinishWorker(c, proved) =>
      if c !in s.cleanups || s.cleanups[c] !in s.o.workers then s
      else s.(o := FinishCleanup(s.o, s.cleanups[c], proved), cleanups := s.cleanups - {c})
    case _ => s
  }

  /** `_publish` and the reserve block of `_predict_labels`, each under the publication lock. */
  function StepPublication(s: System, a: Action): System
    requires s.o.Linked()
  {
    match a
    case LockToPublish(d) => if s.lock.Free? then s.(lock := Publishing(d)) else s
    case ActivateLocked(alive) =>
      if !s.lock.Publishing? then s
      else (
        match Activate(s.o, s.lock.d, alive)
        case None => s.(lock := Free)
        case Some(o) =>
          s.(o := o, handed := s.handed + ActivateHandsOut(s.o, s.lock.d, alive), lock := Committing(s.lock.d)))
    case CommitPublished =>
      if s.lock.Committing? then s.(published := Some(s.lock.d), lock := Free) else s
    case LockToPredict => if s.lock.Free? then s.(lock := Predicting) else s
    case ReservePublished(l, alive) =>
      if !s.lock.Predicting? || l in s.o.leases then s
      else if s.published.None? then s.(lock := Free)
      else (
        match Reserve(s.o, s.published.value, l, alive)
        case None => s.(lock := Free)
        case Some(o) => s.(o := o, lock := Free, predictions := s.predictions[l := Reserved]))
    case _ => s
  }

  function StepClose(s: System, a: Action): System
    requires s.o.Linked()
  {
    match a
    case StartClose(k) =>
      if k in s.closes then s else s.(o := BeginClose(s.o), closes := s.closes[k := Waiting])
    case SeeNoSpawns(k) =>
      if k !in s.closes || !s.closes[k].Waiting? || s.o.spawning != 0 then s
      else s.(closes := s.closes[k := Drained])
    case SnapshotOwned(k) =>
      if k !in s.closes || !s.closes[k].Drained? then s
      else s.(o := CloseSnapshot(s.o), handed := s.handed + s.o.owned, closes := s.closes[k := Reaping(s.o.owned)])
    case SeeReaped(k, w) =>
      if k !in s.closes || !s.closes[k].Reaping? || w !in s.o.workers || !s.o.workers[w].reaped then s
      else s.(closes := s.closes[k := Reaping(s.closes[k].remaining - {w})])
    case CloseReturns(k) =>
      if k !in s.closes || s.closes[k] != Reaping({}) then s
      else s.(closes := s.closes[k := Closed])
    case _ => s
  }

  function Step(s: System, a: Action): System
    requires s.o.Linked()
  {
    match a
    case Prepare(_, _) | PrepareLease(_, _) | LookUp(_, _) | TrySpawn(_) | Start(_, _) | SpawnEnds(_, _)
       | GiveUp(_) | Ready(_, _) | AttachLease(_) => StepTask(s, a)
    case ReserveLease(_, _, _) | CheckDeadline(_, _) | ReleaseLease(_) | RetireRequest(_) | ClaimWorker(_, _)
       | FinishWorker(_, _) =>
      StepLease(s, a)
    case LockToPublish(_) | ActivateLocked(_) | CommitPublished | LockToPredict | ReservePublished(_, _) =>
      StepPublication(s, a)
    case _ => StepClose(s, a)
  }

  // ---------- what every step keeps ----------

  ghost predicate OneCleanupEach(s: System) {
    && s.cleanups.Values <= s.o.workers.Keys
    && (forall c, e | c in s.cleanups && e in s.cleanups && s.cleanups[c] == s.cleanups[e] :: c == e)
    && (forall w <- s.o.workers :: s.o.workers[w].cleaning <==> w in s.cleanups.Values)
    && (forall w <- s.o.workers :: s.o.workers[w].cleaning ==> !s.o.workers[w].reaped)
  }

  ghost predicate NothingLeaks(s: System) {
    Idle(s.o) <= s.handed <= s.o.workers.Keys
  }

  function WorkerOf(phase: Phase): Option<WorkerId> {
    match phase
    case Spawning(r) => r
    case Spawned(w) => Some(w)
    case Chosen(w) => Some(w)
    case _ => None
  }

  ghost predicate TaskSound(o: Owner, k: Task) {
    && (WorkerOf(k.phase).Some? ==>
          WorkerOf(k.phase).value in o.workers && o.workers[WorkerOf(k.phase).value].descriptor == k.d)
    && (k.lease.Some? ==>
          && k.lease.value in o.leases && o.leases[k.lease.value].descriptor == k.d
          && (!k.phase.Ended? ==> o.leases[k.lease.value].worker.None?))
  }

  function Spawners(tasks: map<TaskId, Task>): set<TaskId> {
    set t <- tasks | tasks[t].phase.Spawning?
  }

  ghost predicate TasksSound(s: System) {
    && (forall t <- s.tasks :: TaskSound(s.o, s.tasks[t]))
    && (forall t, u | t in s.tasks && u in s.tasks && s.tasks[t].lease.Some? && s.tasks[t].lease == s.tasks[u].lease ::
          t == u)
  }

  ghost predicate SpawnsCounted(s: System) {
    s.o.spawning == |Spawners(s.tasks)|
  }

  ghost predicate ClosesSound(s: System) {
    && (s.o.closing ==> s.o.active.None?)
    && (s.closes != map[] ==> s.o.closing)
    && forall k <- s.closes :: CloseSound(s.o, s.closes[k])
  }

  ghost predicate CloseSound(o: Owner, c: Close) {
    match c
    case Waiting => true
    case Drained => o.spawning == 0
    case Reaping(remaining) => o.spawning == 0 && o.owned <= remaining
    case Closed => o.spawning == 0 && o.owned == {}
  }

  function PublishedGeneration(s: System): Option<Generation> {
    if s.published.Some? then Some(s.published.value.generation) else None
  }

  /** The published generation is the active one, except between the two assignments of a publication. */
  ghost predicate Agreed(s: System) {
    !s.o.closing ==>
      s.o.active == if s.lock.Committing? then Some(s.lock.d.generation) else PublishedGeneration(s)
  }

  ghost predicate Safe(s: System) {
    && Sound(s.o)
    && OneCleanupEach(s) && NothingLeaks(s)
    && TasksSound(s) && SpawnsCounted(s)
    && ClosesSound(s) && Agreed(s)
  }
}
