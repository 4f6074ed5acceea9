/** Every step of every task keeps the ownership protocol safe. */
module OwnershipSafety {
  import opened Bytes
  import opened Ownership
  import opened OwnershipAccounting
  import opened OwnershipProtocol

  // ---------- moving one task, changing leases only ----------

  lemma SpawnersAfter(tasks: map<TaskId, Task>, t: TaskId, k: Task)
    ensures |Spawners(tasks[t := k])| == |Spawners(tasks)| - One(t in Spawners(tasks)) + One(k.phase.Spawning?)
  {
    var rest := Spawners(tasks) - {t};
    SpawnersAre(tasks, t, k);
    if t !in Spawners(tasks) { assert rest == Spawners(tasks); }
  }

  lemma SpawnersAre(tasks: map<TaskId, Task>, t: TaskId, k: Task)
    ensures Spawners(tasks[t := k]) == Spawners(tasks) - {t} + if k.phase.Spawning? then {t} else {}
  {
  }

  ghost predicate OnlyFor(tasks: map<TaskId, Task>, t: TaskId, lease: Option<LeaseId>) {
    lease.Some? ==> forall u <- tasks :: tasks[u].lease == lease ==> u == t
  }

  /** Writing one task row outside the spawn phase. */
  lemma TaskWriteKeeps(s: System, t: TaskId, k: Task)
    requires Safe(s) && TaskSound(s.o, k) && OnlyFor(s.tasks, t, k.lease)
    requires k.phase.Spawning? <==> t in Spawners(s.tasks)
    ensures Safe(s.(tasks := s.tasks[t := k]))
  {
    SpawnersAfter(s.tasks, t, k);
  }

  lemma MoveKeeps(s: System, t: TaskId, phase: Phase)
    requires Safe(s) && t in s.tasks && TaskSound(s.o, s.tasks[t].(phase := phase))
    requires phase.Spawning? <==> s.tasks[t].phase.Spawning?
    ensures Safe(Move(s, t, phase))
  {
    TaskWriteKeeps(s, t, s.tasks[t].(phase := phase));
  }

  ghost predicate AttachedByTurn(s: System, next: Owner) {
    forall t <- s.tasks :: s.tasks[t].lease.Some? && !s.tasks[t].phase.Ended? ==>
      var l := s.tasks[t].lease.value; l in next.leases && next.leases[l].worker.None?
  }

  lemma LeaseBlockKeeps(s: System, next: Owner, handed: set<WorkerId>)
    requires Safe(s) && Sound(next) && LeasesOnly(s.o, next) && AttachedByTurn(s, next)
    requires Idle(next) <= handed <= s.o.workers.Keys
    ensures Safe(s.(o := next, handed := handed))
  {
  }

  lemma PredictionKeeps(s: System, predictions: map<LeaseId, Prediction>)
    requires Safe(s)
    ensures Safe(s.(predictions := predictions))
  {
  }

  lemma HandOverKeeps(s: System, ws: set<WorkerId>)
    requires Safe(s) && ws <= s.o.workers.Keys
    ensures Safe(s.(handed := s.handed + ws))
  {
  }

  /** A task moves on and hands a worker over in one block. */
  lemma MoveHandOverKeeps(s: System, t: TaskId, phase: Phase, w: WorkerId)
    requires Safe(s) && t in s.tasks && TaskSound(s.o, s.tasks[t].(phase := phase)) && w in s.o.workers
    requires phase.Spawning? <==> s.tasks[t].phase.Spawning?
    ensures Safe(Move(s, t, phase).(handed := s.handed + {w}))
  {
    MoveKeeps(s, t, phase);
    HandOverKeeps(Move(s, t, phase), {w});
  }

  lemma UnlockKeeps(s: System)
    requires Safe(s) && !s.lock.Committing?
    ensures Safe(s.(lock := Free))
  {
  }

  lemma IndexKeeps(s: System, w: WorkerId, alive: set<WorkerId>)
    requires Safe(s) && w in s.o.workers
    ensures Safe(s.(o := Enlist(s.o, w, alive)))
  {
    EnlistKeeps(s.o, w, alive);
  }

  lemma ReleaseStepKeeps(s: System, l: LeaseId)
    requires Safe(s) && l in s.o.leases
    ensures Safe(s.(o := Release(s.o, l), handed := s.handed + HandedOut(s.o, l)))
  {
    ReleaseKeeps(s.o, l);
    ReleaseLeavesAttachments(s.o, l);
    var next := Release(s.o, l);
    assert AttachedByTurn(s, next);
    LeaseBlockKeeps(s, next, s.handed + HandedOut(s.o, l));
  }

  lemma RetireStepKeeps(s: System, w: WorkerId)
    requires Safe(s) && w in s.o.workers
    ensures Safe(s.(o := Retire(s.o, w), handed := s.handed + {w}))
  {
    var next := s.(o := Retire(s.o, w), handed := s.handed + {w});
    RetireKeeps(s.o, w);
    assert OneCleanupEach(next);
    assert TasksSound(next);
  }

  lemma PublishedReserveKeeps(s: System, d: Descriptor, l: LeaseId, alive: set<WorkerId>)
    requires Safe(s) && s.lock.Predicting? && l !in s.o.leases && Reserve(s.o, d, l, alive).Some?
    ensures Safe(s.(o := Reserve(s.o, d, l, alive).value, lock := Free))
  {
    ReserveStepKeeps(s, d, l, alive);
    UnlockKeeps(s.(o := Reserve(s.o, d, l, alive).value));
  }

  lemma ReadyStepKeeps(s: System, t: TaskId, w: WorkerId, alive: set<WorkerId>)
    requires Safe(s) && At(s, t) == Spawned(w)
    ensures w in s.o.workers && Safe(AfterReady(s, t, w, alive))
  {
    assert TaskSound(s.o, s.tasks[t]);
    match EnlistOutcome(s.o, s.o.workers[w].descriptor, alive) {
      case Selected =>
        MoveKeeps(s, t, if s.tasks[t].lease.Some? then Chosen(w) else Ended);
        IndexKeeps(Onward(s, t, w), w, alive);
      case Redundant(e) =>
        MoveHandOverKeeps(s, t, if s.tasks[t].lease.Some? then Chosen(e) else Ended, w);
      case Unresolved =>
        MoveHandOverKeeps(s, t, Ended, w);
      case EnlistConflict => MoveKeeps(s, t, Ended);
    }
  }

  lemma ClaimIsSole(s: System, c: CleanupId, w: WorkerId)
    requires OneCleanupEach(s) && c !in s.cleanups && w in s.o.workers && ClaimOf(s.o, w).Granted?
    ensures OneCleanupEach(s.(o := ClaimCleanup(s.o, w), cleanups := s.cleanups[c := w]))
  {
    CleanupsAfterClaim(s.cleanups, c, w);
    forall e <- s.cleanups ensures s.cleanups[e] != w {
      assert s.cleanups[e] in s.cleanups.Values;
    }
  }

  lemma ClaimStepKeeps(s: System, c: CleanupId, w: WorkerId)
    requires Safe(s) && c !in s.cleanups && w in s.o.workers && ClaimOf(s.o, w).Granted?
    ensures Safe(s.(o := ClaimCleanup(s.o, w), cleanups := s.cleanups[c := w]))
  {
    ClaimKeeps(s.o, w);
    var next := s.(o := ClaimCleanup(s.o, w), cleanups := s.cleanups[c := w]);
    assert OneCleanupEach(next) by { ClaimIsSole(s, c, w); }
    assert TasksSound(next);
    assert NothingLeaks(next);
  }

  lemma FinishEndsOne(s: System, c: CleanupId, proved: bool)
    requires OneCleanupEach(s) && c in s.cleanups && s.cleanups[c] in s.o.workers
    ensures OneCleanupEach(s.(o := FinishCleanup(s.o, s.cleanups[c], proved), cleanups := s.cleanups - {c}))
  {
    CleanupsAfterFinish(s.cleanups, c);
  }

  lemma FinishStepKeeps(s: System, c: CleanupId, proved: bool)
    requires Safe(s) && c in s.cleanups
    ensures s.cleanups[c] in s.o.workers
    ensures Safe(s.(o := FinishCleanup(s.o, s.cleanups[c], proved), cleanups := s.cleanups - {c}))
  {
    assert s.cleanups[c] in s.cleanups.Values;
    FinishKeeps(s.o, s.cleanups[c], proved);
    FinishEndsOne(s, c, proved);
    var next := s.(o := FinishCleanup(s.o, s.cleanups[c], proved), cleanups := s.cleanups - {c});
    assert TasksSound(next) by { FinishKeepsTasks(s, c, proved); }
    assert NothingLeaks(next) by { FinishLeaksNothing(s.o, s.cleanups[c], proved); }
    assert ClosesSound(next);
  }

  lemma FinishKeepsTasks(s: System, c: CleanupId, proved: bool)
    requires TasksSound(s) && c in s.cleanups && s.cleanups[c] in s.o.workers
    ensures TasksSound(s.(o := FinishCleanup(s.o, s.cleanups[c], proved), cleanups := s.cleanups - {c}))
  {
  }

  lemma FinishLeaksNothing(o: Owner, w: WorkerId, proved: bool)
    requires w in o.workers
    ensures FinishCleanup(o, w, proved).workers.Keys == o.workers.Keys && Idle(FinishCleanup(o, w, proved)) <= Idle(o)
  {
  }

  lemma ActivateStepKeeps(s: System, alive: set<WorkerId>)
    requires Safe(s) && s.lock.Publishing? && Activate(s.o, s.lock.d, alive).Some?
    ensures Safe(s.(o := Activate(s.o, s.lock.d, alive).value,
                    handed := s.handed + ActivateHandsOut(s.o, s.lock.d, alive), lock := Committing(s.lock.d)))
  {
    RetiringKeeps(s.o, {Usable(s.o, s.lock.d, alive).worker}, Some(s.lock.d.generation));
    var next := s.(o := Activate(s.o, s.lock.d, alive).value,
                   handed := s.handed + ActivateHandsOut(s.o, s.lock.d, alive), lock := Committing(s.lock.d));
    assert TasksSound(next);
    assert OneCleanupEach(next);
  }

  lemma AttachStepKeeps(s: System, t: TaskId, l: LeaseId, w: WorkerId)
    requires Safe(s) && t in s.tasks && s.tasks[t] == Task(s.tasks[t].d, Some(l), Chosen(w))
    ensures l in s.o.leases && w in s.o.workers
    ensures Safe(Move(s, t, Ended))
    ensures Attach(s.o, l, w).Some? ==> Safe(Move(s, t, Ended).(o := Attach(s.o, l, w).value))
  {
    TaskWriteKeeps(s, t, s.tasks[t].(phase := Ended));
    if Attach(s.o, l, w).Some? {
      AttachBlockKeeps(Move(s, t, Ended), t, l, w);
    }
  }

  /** The attach block on behalf of a task that is done behind it. */
  lemma AttachBlockKeeps(s: System, t: TaskId, l: LeaseId, w: WorkerId)
    requires Safe(s) && t in s.tasks && s.tasks[t].lease == Some(l) && s.tasks[t].phase.Ended?
    requires l in s.o.leases && w in s.o.workers && s.o.leases[l].worker.None?
    requires s.o.workers[w].descriptor == s.o.leases[l].descriptor && Attach(s.o, l, w).Some?
    ensures Safe(s.(o := Attach(s.o, l, w).value))
  {
    AttachKeeps(s.o, l, w);
    LeaseBlockKeeps(s, Attach(s.o, l, w).value, s.handed);
  }

  lemma StartStepKeeps(s: System, t: TaskId, w: WorkerId)
    requires Safe(s) && At(s, t) == Spawning(None) && w !in s.o.workers
    ensures Safe(Move(s, t, Spawning(Some(w))).(o := Register(s.o, w, s.tasks[t].d)))
  {
    RegisterKeeps(s.o, w, s.tasks[t].d);
    SpawnersAfter(s.tasks, t, s.tasks[t].(phase := Spawning(Some(w))));
    var next := Move(s, t, Spawning(Some(w))).(o := Register(s.o, w, s.tasks[t].d));
    assert OneCleanupEach(next);
    assert NothingLeaks(next);
    assert TasksSound(next) by { StartKeepsTasks(s, t, w); }
  }

  lemma StartKeepsTasks(s: System, t: TaskId, w: WorkerId)
    requires TasksSound(s) && At(s, t) == Spawning(None) && w !in s.o.workers
    ensures TasksSound(Move(s, t, Spawning(Some(w))).(o := Register(s.o, w, s.tasks[t].d)))
  {
  }

  lemma SpawnStepKeeps(s: System, t: TaskId, k: Task, spawning: nat)
    requires Safe(s) && TaskSound(s.o, k) && t in s.tasks && k.lease == s.tasks[t].lease
    requires s.tasks[t].phase.Ended? ==> k.phase.Ended?
    requires spawning == s.o.spawning - One(t in Spawners(s.tasks)) + One(k.phase.Spawning?)
    requires spawning <= s.o.spawning || !s.o.closing
    ensures Safe(s.(tasks := s.tasks[t := k], o := s.o.(spawning := spawning)))
  {
    SpawnersAfter(s.tasks, t, k);
    var next := s.(tasks := s.tasks[t := k], o := s.o.(spawning := spawning));
    assert Sound(next.o);
    assert OneCleanupEach(next);
    assert NothingLeaks(next);
  }

  lemma ReserveStepKeeps(s: System, d: Descriptor, l: LeaseId, alive: set<WorkerId>)
    requires Safe(s) && l !in s.o.leases && Reserve(s.o, d, l, alive).Some?
    ensures Safe(s.(o := Reserve(s.o, d, l, alive).value))
  {
    ReserveKeeps(s.o, d, l, alive);
    var next := Reserve(s.o, d, l, alive).value;
    assert forall k <- s.o.leases :: next.leases[k] == s.o.leases[k];
    LeaseBlockKeeps(s, next, s.handed);
  }

  lemma CleanupsAfterClaim(cleanups: map<CleanupId, WorkerId>, c: CleanupId, w: WorkerId)
    requires c !in cleanups
    ensures cleanups[c := w].Values == cleanups.Values + {w}
  {
    var next := cleanups[c := w];
    assert next[c] == w;
    forall v <- cleanups.Values ensures v in next.Values {
      var e :| e in cleanups && cleanups[e] == v;
      assert next[e] == v;
    }
  }

  lemma CleanupsAfterFinish(cleanups: map<CleanupId, WorkerId>, c: CleanupId)
    requires c in cleanups
    requires forall e, f | e in cleanups && f in cleanups && cleanups[e] == cleanups[f] :: e == f
    ensures (cleanups - {c}).Values == cleanups.Values - {cleanups[c]}
  {
    var next := cleanups - {c};
    forall v <- cleanups.Values - {cleanups[c]} ensures v in next.Values {
      var e :| e in cleanups && cleanups[e] == v;
      assert next[e] == v;
    }
  }

  // ---------- the steps ----------

  lemma PrepareKeeps(s: System, t: TaskId, d: Descriptor)
    requires Safe(s)
    ensures Safe(Step(s, Prepare(t, d)))
  {
    if t !in s.tasks { TaskWriteKeeps(s, t, Task(d, None, Looking)); }
  }

  lemma PrepareLeaseKeeps(s: System, t: TaskId, l: LeaseId)
    requires Safe(s)
    ensures Safe(Step(s, PrepareLease(t, l)))
  {
    if Step(s, PrepareLease(t, l)) != s { TaskWriteKeeps(s, t, Task(s.o.leases[l].descriptor, Some(l), Looking)); }
  }

  lemma LookUpKeeps(s: System, t: TaskId, alive: set<WorkerId>)
    requires Safe(s)
    ensures Safe(Step(s, LookUp(t, alive)))
  {
    if At(s, t).Looking? {
      assert TaskSound(s.o, s.tasks[t]);
      match Usable(s.o, s.tasks[t].d, alive) {
        case Missing => MoveKeeps(s, t, Absent);
        case Conflict => MoveKeeps(s, t, Ended);
        case Found(w) => MoveKeeps(s, t, if s.tasks[t].lease.Some? then Chosen(w) else Ended);
      }
    }
  }

  lemma TrySpawnKeeps(s: System, t: TaskId)
    requires Safe(s)
    ensures Safe(Step(s, TrySpawn(t)))
  {
    if At(s, t).Absent? {
      var next := Step(s, TrySpawn(t));
      SpawnStepKeeps(s, t, next.tasks[t], next.o.spawning);
    }
  }

  lemma StartKeeps(s: System, t: TaskId, w: WorkerId)
    requires Safe(s)
    ensures Safe(Step(s, Start(t, w)))
  {
    if At(s, t) == Spawning(None) && w !in s.o.workers { StartStepKeeps(s, t, w); }
  }

  lemma SpawnEndsKeeps(s: System, t: TaskId, failed: bool)
    requires Safe(s)
    ensures Safe(Step(s, SpawnEnds(t, failed)))
  {
    if At(s, t).Spawning? && s.o.spawning != 0 {
      var r := s.tasks[t].phase.registered;
      var k := s.tasks[t].(phase := if failed || r.None? then Ended else Spawned(r.value));
      SpawnStepKeeps(s, t, k, s.o.spawning - 1);
      assert Step(s, SpawnEnds(t, failed)) == s.(tasks := s.tasks[t := k], o := s.o.(spawning := s.o.spawning - 1));
    }
  }

  lemma GiveUpKeeps(s: System, t: TaskId)
    requires Safe(s)
    ensures Safe(Step(s, GiveUp(t)))
  {
    match At(s, t) {
      case Looking | Absent | Chosen(_) => MoveKeeps(s, t, Ended);
      case Spawned(w) =>
        assert TaskSound(s.o, s.tasks[t]);
        MoveHandOverKeeps(s, t, Ended, w);
      case Spawning(Some(w)) => HandOverKeeps(s, {w});
      case _ =>
    }
  }

  lemma ReadyKeeps(s: System, t: TaskId, alive: set<WorkerId>)
    requires Safe(s)
    ensures Safe(Step(s, Ready(t, alive)))
  {
    if At(s, t).Spawned? { ReadyStepKeeps(s, t, s.tasks[t].phase.worker, alive); }
  }

  lemma AttachLeaseKeeps(s: System, t: TaskId)
    requires Safe(s)
    ensures Safe(Step(s, AttachLease(t)))
  {
    if At(s, t).Chosen? && s.tasks[t].lease.Some? {
      var l, w := s.tasks[t].lease.value, s.tasks[t].phase.worker;
      AttachStepKeeps(s, t, l, w);
      var attached := Attach(s.o, l, w);
      assert Step(s, AttachLease(t)) ==
             if attached.None? then Move(s, t, Ended) else Move(s, t, Ended).(o := attached.value);
    }
  }

  lemma ReserveLeaseKeeps(s: System, d: Descriptor, l: LeaseId, alive: set<WorkerId>)
    requires Safe(s)
    ensures Safe(Step(s, ReserveLease(d, l, alive)))
  {
    if l !in s.o.leases && Reserve(s.o, d, l, alive).Some? {
      ReserveStepKeeps(s, d, l, alive);
      PredictionKeeps(s.(o := Reserve(s.o, d, l, alive).value), s.predictions[l := Running]);
    }
  }

  lemma CheckDeadlineKeeps(s: System, l: LeaseId, expired: bool)
    requires Safe(s)
    ensures Safe(Step(s, CheckDeadline(l, expired)))
  {
  }

  lemma ReleaseLeaseKeeps(s: System, l: LeaseId)
    requires Safe(s)
    ensures Safe(Step(s, ReleaseLease(l)))
  {
    if Predicts(s, l) {
      ReleaseStepKeeps(s, l);
      PredictionKeeps(s.(o := Release(s.o, l), handed := s.handed + HandedOut(s.o, l)), s.predictions[l := Released]);
    }
  }

  lemma RetireRequestKeeps(s: System, w: WorkerId)
    requires Safe(s)
    ensures Safe(Step(s, RetireRequest(w)))
  {
    if w in s.o.workers { RetireStepKeeps(s, w); }
  }

  lemma ClaimWorkerKeeps(s: System, c: CleanupId, w: WorkerId)
    requires Safe(s)
    ensures Safe(Step(s, ClaimWorker(c, w)))
  {
    if Step(s, ClaimWorker(c, w)) != s { ClaimStepKeeps(s, c, w); }
  }

  lemma FinishWorkerKeeps(s: System, c: CleanupId, proved: bool)
    requires Safe(s)
    ensures Safe(Step(s, FinishWorker(c, proved)))
  {
    if c in s.cleanups { FinishStepKeeps(s, c, proved); }
  }

  lemma LockToPublishKeeps(s: System, d: Descriptor)
    requires Safe(s)
    ensures Safe(Step(s, LockToPublish(d)))
  {
  }

  lemma ActivateLockedKeeps(s: System, alive: set<WorkerId>)
    requires Safe(s)
    ensures Safe(Step(s, ActivateLocked(alive)))
  {
    if s.lock.Publishing? {
      if Activate(s.o, s.lock.d, alive).Some? { ActivateStepKeeps(s, alive); } else { UnlockKeeps(s); }
    }
  }

  lemma CommitPublishedKeeps(s: System)
    requires Safe(s)
    ensures Safe(Step(s, CommitPublished))
  {
  }

  lemma LockToPredictKeeps(s: System)
    requires Safe(s)
    ensures Safe(Step(s, LockToPredict))
  {
  }

  lemma ReservePublishedKeeps(s: System, l: LeaseId, alive: set<WorkerId>)
    requires Safe(s)
    ensures Safe(Step(s, ReservePublished(l, alive)))
  {
    if s.lock.Predicting? && l !in s.o.leases {
      if s.published.Some? && Reserve(s.o, s.published.value, l, alive).Some? {
        var o := Reserve(s.o, s.published.value, l, alive).value;
        PublishedReserveKeeps(s, s.published.value, l, alive);
        PredictionKeeps(s.(o := o, lock := Free), s.predictions[l := Reserved]);
      } else {
        UnlockKeeps(s);
      }
    }
  }

  lemma StartCloseKeeps(s: System, k: CloseId)
    requires Safe(s)
    ensures Safe(Step(s, StartClose(k)))
  {
  }

  lemma SeeNoSpawnsKeeps(s: System, k: CloseId)
    requires Safe(s)
    ensures Safe(Step(s, SeeNoSpawns(k)))
  {
  }

  lemma SnapshotOwnedKeeps(s: System, k: CloseId)
    requires Safe(s)
    ensures Safe(Step(s, SnapshotOwned(k)))
  {
    RetiringKeeps(s.o, {}, s.o.active);
    assert Sound(CloseSnapshot(s.o));
  }

  lemma SeeReapedKeeps(s: System, k: CloseId, w: WorkerId)
    requires Safe(s)
    ensures Safe(Step(s, SeeReaped(k, w)))
  {
  }

  lemma CloseReturnsKeeps(s: System, k: CloseId)
    requires Safe(s)
    ensures Safe(Step(s, CloseReturns(k)))
  {
  }

  lemma StepKeeps(s: System, a: Action)
    requires Safe(s)
    ensures Safe(Step(s, a))
  {
    match a {
      case Prepare(t, d) => PrepareKeeps(s, t, d);
      case PrepareLease(t, l) => PrepareLeaseKeeps(s, t, l);
      case LookUp(t, alive) => LookUpKeeps(s, t, alive);
      case TrySpawn(t) => TrySpawnKeeps(s, t);
      case Start(t, w) => StartKeeps(s, t, w);
      case SpawnEnds(t, failed) => SpawnEndsKeeps(s, t, failed);
      case GiveUp(t) => GiveUpKeeps(s, t);
      case Ready(t, alive) => ReadyKeeps(s, t, alive);
      case AttachLease(t) => AttachLeaseKeeps(s, t);
      case ReserveLease(d, l, alive) => ReserveLeaseKeeps(s, d, l, alive);
      case CheckDeadline(l, expired) => CheckDeadlineKeeps(s, l, expired);
      case ReleaseLease(l) => ReleaseLeaseKeeps(s, l);
      case RetireRequest(w) => RetireRequestKeeps(s, w);
      case ClaimWorker(c, w) => ClaimWorkerKeeps(s, c, w);
      case FinishWorker(c, proved) => FinishWorkerKeeps(s, c, proved);
      case LockToPublish(d) => LockToPublishKeeps(s, d);
      case ActivateLocked(alive) => ActivateLockedKeeps(s, alive);
      case CommitPublished => CommitPublishedKeeps(s);
      case LockToPredict => LockToPredictKeeps(s);
      case ReservePublished(l, alive) => ReservePublishedKeeps(s, l, alive);
      case StartClose(k) => StartCloseKeeps(s, k);
      case SeeNoSpawns(k) => SeeNoSpawnsKeeps(s, k);
      case SnapshotOwned(k) => SnapshotOwnedKeeps(s, k);
      case SeeReaped(k, w) => SeeReapedKeeps(s, k, w);
      case CloseReturns(k) => CloseReturnsKeeps(s, k);
    }
  }
}
