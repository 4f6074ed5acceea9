/** What the owner's lookups find, what it refuses, and for how long an activated worker serves. */
module OwnershipService {
  import opened Bytes
  import opened Ownership
  import opened OwnershipAccounting
  import opened OwnershipProtocol
  import opened OwnershipSafety
  import opened OwnershipTheorems

  // ---------- lookups and refusals, said of the tables ----------

  /** The worker is indexed for exactly this descriptor, and nobody has retired it, cleans it up or has ended it. */
  predicate Serves(o: Owner, d: Descriptor, w: WorkerId) {
    && w in o.workers && d.generation in o.index && o.index[d.generation] == w && o.workers[w].descriptor == d
    && !o.workers[w].retired && !o.workers[w].cleaning && !o.workers[w].reaped
  }

  predicate Mispathed(o: Owner, d: Descriptor) {
    d.generation in o.index && o.index[d.generation] in o.workers
    && o.workers[o.index[d.generation]].descriptor != d
  }

  /** A serving worker that is alive is found, whatever leases it has; nothing else is. */
  lemma FoundExactlyWhenServing(o: Owner, d: Descriptor, alive: set<WorkerId>, w: WorkerId)
    requires o.Linked()
    ensures Usable(o, d, alive) == Found(w) <==> Serves(o, d, w) && w in alive
    ensures Usable(o, d, alive).Conflict? <==> Mispathed(o, d)
  {
  }

  /** The lookup depends on nothing that leases write: attaching, reserving and releasing leave it as it was. */
  lemma LeasesLeaveTheLookup(o: Owner, next: Owner, d: Descriptor, alive: set<WorkerId>)
    requires o.Linked() && next.Linked() && LeasesOnly(o, next)
    requires forall w <- o.workers :: next.workers[w].retired == o.workers[w].retired
    ensures Usable(next, d, alive) == Usable(o, d, alive)
  {
  }

  /** A reservation, of whatever descriptor, changes no lookup. */
  lemma {:induction false} ReservingLeavesTheLookup(
    o: Owner, d: Descriptor, l: LeaseId, e: Descriptor, alive: set<WorkerId>)
    requires Sound(o) && l !in o.leases && Reserve(o, e, l, alive).Some?
    ensures var next := Reserve(o, e, l, alive).value; next.Linked() && Usable(next, d, alive) == Usable(o, d, alive)
  {
    ReserveKeeps(o, e, l, alive);
    LeasesLeaveTheLookup(o, Reserve(o, e, l, alive).value, d, alive);
  }

  /** Nor does a release. */
  lemma {:induction false} ReleasingLeavesTheLookup(o: Owner, d: Descriptor, l: LeaseId, alive: set<WorkerId>)
    requires Sound(o) && l in o.leases
    ensures Release(o, l).Linked() && Usable(Release(o, l), d, alive) == Usable(o, d, alive)
  {
    ReleaseKeeps(o, l);
    LeasesLeaveTheLookup(o, Release(o, l), d, alive);
  }

  /** What the owner refuses: spawns while closing, leases of generations that are not active, mismatched paths. */
  lemma RefusedExactlyWhen(o: Owner, d: Descriptor, l: LeaseId, alive: set<WorkerId>)
    requires o.Linked()
    ensures BeginSpawn(o).None? <==> o.closing
    ensures Reserve(o, d, l, alive).None? <==> o.active != Some(d.generation) || Mispathed(o, d)
    ensures Activate(o, d, alive).Some? <==> !o.closing && exists w <- alive :: Serves(o, d, w)
  {
    match Usable(o, d, alive) {
      case Found(w) => FoundExactlyWhenServing(o, d, alive, w);
      case _ =>
        forall w <- alive ensures !Serves(o, d, w) {
          FoundExactlyWhenServing(o, d, alive, w);
        }
    }
  }

  /** A granted lease is attached to the serving worker exactly when that worker is alive, and otherwise waits for one. */
  lemma LeasedExactlyWhen(o: Owner, d: Descriptor, l: LeaseId, alive: set<WorkerId>, w: WorkerId)
    requires o.Linked() && Reserve(o, d, l, alive).Some?
    ensures var next := Reserve(o, d, l, alive).value;
            l in next.leases && next.leases[l].descriptor == d && !next.leases[l].released
            && (next.leases[l].worker == Some(w) <==> Serves(o, d, w) && w in alive)
  {
    FoundExactlyWhenServing(o, d, alive, w);
  }

  /** A READY worker is indexed exactly when the owner is open and no running worker holds its generation's entry. */
  lemma SelectedExactlyWhen(o: Owner, w: WorkerId, alive: set<WorkerId>)
    requires o.Linked() && w in o.workers
    ensures var d := o.workers[w].descriptor;
            && (EnlistOutcome(o, d, alive).Selected? <==>
                  !o.closing && (d.generation in o.index ==>
                    !Mispathed(o, d) && o.workers[o.index[d.generation]].reaped))
            && (EnlistOutcome(o, d, alive).Redundant? <==> !o.closing && exists e <- alive :: Serves(o, d, e))
  {
    var d := o.workers[w].descriptor;
    match Usable(o, d, alive) {
      case Found(e) => FoundExactlyWhenServing(o, d, alive, e);
      case _ =>
        forall e <- alive ensures !Serves(o, d, e) {
          FoundExactlyWhenServing(o, d, alive, e);
        }
    }
  }

  /** A worker indexed at its READY block is what later lookups find, unless somebody retired or claimed it. */
  lemma SelectedIsFound(o: Owner, w: WorkerId, alive: set<WorkerId>, later: set<WorkerId>)
    requires o.Linked() && w in o.workers && EnlistOutcome(o, o.workers[w].descriptor, alive).Selected?
    ensures Enlist(o, w, alive).Linked()
    ensures Usable(Enlist(o, w, alive), o.workers[w].descriptor, later) == Found(w) <==>
            w in later && !o.workers[w].retired && !o.workers[w].cleaning && !o.workers[w].reaped
  {
  }

  /** Activation leaves exactly one owned worker that is not superseded, and it serves the new generation. */
  lemma ActivationLeavesOne(o: Owner, d: Descriptor, alive: set<WorkerId>, w: WorkerId)
    requires o.Linked() && !o.closing && Serves(o, d, w) && w in alive && w in o.owned
    ensures Activate(o, d, alive).Some?
    ensures var next := Activate(o, d, alive).value;
            && Serves(next, d, w) && next.active == Some(d.generation)
            && forall v <- o.owned :: next.workers[v].retired <==> v != w
  {
    FoundExactlyWhenServing(o, d, alive, w);
  }

  /** A cleanup is granted exactly for a worker that is owned and that no other cleanup is at. */
  lemma {:induction false} GrantedExactlyWhen(run: seq<Action>, w: WorkerId)
    ensures var s := After(INITIAL, run);
            w in s.o.workers ==>
              && (ClaimOf(s.o, w).Granted? <==> w in s.o.owned && w !in s.cleanups.Values)
              && (ClaimOf(s.o, w).Wait? <==> w in s.cleanups.Values)
              && (ClaimOf(s.o, w).Complete? <==> w !in s.o.owned)
  {
    RunsAreSafe(INITIAL, run);
  }

  /** Proved cleanup frees exactly this worker's index entry. */
  lemma CleanupFreesTheEntry(o: Owner, w: WorkerId, proved: bool, g: Generation)
    requires o.Linked() && w in o.workers
    ensures g in FinishCleanup(o, w, proved).index <==> g in o.index && !(proved && o.index[g] == w)
    ensures ClaimOf(FinishCleanup(o, w, proved), w) == if proved || o.workers[w].reaped then Complete else Granted
  {
  }

  // ---------- an activated worker serves until somebody ends that ----------

  /** The worker's row is written at most in its lease counter. */
  predicate MarksStay(o: Owner, next: Owner, w: WorkerId) {
    w in o.workers && w in next.workers && SameMarks(o.workers[w], next.workers[w])
  }

  predicate SameMarks(a: Worker, b: Worker) {
    a.descriptor == b.descriptor && a.retired == b.retired && a.cleaning == b.cleaning && a.reaped == b.reaped
  }

  lemma AttachLeavesMarks(s: System, t: TaskId, d: Descriptor, w: WorkerId)
    requires s.o.Linked() && TasksSound(s) && Serves(s.o, d, w) && s.o.active == Some(d.generation)
    ensures MarksStay(s.o, StepTask(s, AttachLease(t)).o, w)
  {
    if t in s.tasks { assert TaskSound(s.o, s.tasks[t]); }
  }

  lemma LookingLeavesMarks(s: System, t: TaskId, alive: set<WorkerId>, w: WorkerId)
    requires s.o.Linked() && w in s.o.workers
    ensures MarksStay(s.o, StepTask(s, LookUp(t, alive)).o, w) && MarksStay(s.o, StepTask(s, Ready(t, alive)).o, w)
  {
  }

  lemma SpawningLeavesMarks(s: System, a: Action, w: WorkerId)
    requires s.o.Linked() && w in s.o.workers && !a.AttachLease? && !a.LookUp? && !a.Ready?
    ensures MarksStay(s.o, StepTask(s, a).o, w)
  {
  }

  lemma TasksLeaveMarks(s: System, a: Action, d: Descriptor, w: WorkerId)
    requires s.o.Linked() && TasksSound(s) && Serves(s.o, d, w) && s.o.active == Some(d.generation)
    ensures MarksStay(s.o, StepTask(s, a).o, w)
  {
    match a {
      case AttachLease(t) => AttachLeavesMarks(s, t, d, w);
      case LookUp(t, alive) => LookingLeavesMarks(s, t, alive, w);
      case Ready(t, alive) => LookingLeavesMarks(s, t, alive, w);
      case _ => SpawningLeavesMarks(s, a, w);
    }
  }

  lemma LeasesLeaveMarks(s: System, a: Action, w: WorkerId)
    requires s.o.Linked() && OneCleanupEach(s) && w in s.o.workers && !s.o.workers[w].cleaning
    requires a != RetireRequest(w) && !(a.ClaimWorker? && a.w == w)
    ensures MarksStay(s.o, StepLease(s, a).o, w)
  {
  }

  lemma ActivateLeavesMarks(o: Owner, e: Descriptor, alive: set<WorkerId>, d: Descriptor, w: WorkerId)
    requires o.Linked() && Serves(o, d, w) && w in o.owned && Activate(o, e, alive).Some?
    requires e.generation == d.generation
    ensures MarksStay(o, Activate(o, e, alive).value, w)
  {
  }

  lemma ReserveLeavesMarks(o: Owner, d: Descriptor, l: LeaseId, alive: set<WorkerId>, w: WorkerId)
    requires o.Linked() && w in o.workers && Reserve(o, d, l, alive).Some?
    ensures MarksStay(o, Reserve(o, d, l, alive).value, w)
  {
  }

  lemma ActivateLockedLeavesMarks(s: System, alive: set<WorkerId>, d: Descriptor, w: WorkerId)
    requires s.o.Linked() && Serves(s.o, d, w) && w in s.o.owned
    requires StepPublication(s, ActivateLocked(alive)).o.active == Some(d.generation)
    ensures MarksStay(s.o, StepPublication(s, ActivateLocked(alive)).o, w)
  {
    if s.lock.Publishing? && Activate(s.o, s.lock.d, alive).Some? { ActivateLeavesMarks(s.o, s.lock.d, alive, d, w); }
  }

  lemma ReservePublishedLeavesMarks(s: System, l: LeaseId, alive: set<WorkerId>, w: WorkerId)
    requires s.o.Linked() && w in s.o.workers
    ensures MarksStay(s.o, StepPublication(s, ReservePublished(l, alive)).o, w)
  {
    if s.published.Some? && Reserve(s.o, s.published.value, l, alive).Some? {
      ReserveLeavesMarks(s.o, s.published.value, l, alive, w);
    }
  }

  lemma PublicationsLeaveMarks(s: System, a: Action, d: Descriptor, w: WorkerId)
    requires s.o.Linked() && Serves(s.o, d, w) && StepPublication(s, a).o.active == Some(d.generation)
    requires w in s.o.owned
    ensures MarksStay(s.o, StepPublication(s, a).o, w)
  {
    match a {
      case ActivateLocked(alive) => ActivateLockedLeavesMarks(s, alive, d, w);
      case ReservePublished(l, alive) => ReservePublishedLeavesMarks(s, l, alive, w);
      case _ =>
    }
  }

  lemma ClosesLeaveMarks(s: System, a: Action, w: WorkerId)
    requires s.o.Linked() && ClosesSound(s) && !s.o.closing && w in s.o.workers
    ensures MarksStay(s.o, StepClose(s, a).o, w)
  {
  }

  lemma ServesStays(s: System, a: Action, d: Descriptor, w: WorkerId)
    requires Safe(s) && Serves(s.o, d, w) && s.o.active == Some(d.generation)
    requires a != RetireRequest(w) && !(a.ClaimWorker? && a.w == w) && Step(s, a).o.active == Some(d.generation)
    ensures Serves(Step(s, a).o, d, w)
  {
    IndexEntryIsKept(s, a, d.generation);
    TasksLeaveMarks(s, a, d, w);
    LeasesLeaveMarks(s, a, w);
    ClosesLeaveMarks(s, a, w);
    if StepPublication(s, a).o.active == Some(d.generation) { PublicationsLeaveMarks(s, a, d, w); }
  }

  /** The generation stays active through the run, and nobody asks to retire the worker or claims its cleanup. */
  ghost predicate Undisturbed(s: System, run: seq<Action>, g: Generation, w: WorkerId)
    requires Safe(s)
    decreases |run|
  {
    s.o.active == Some(g) && (run != [] ==>
      && run[0] != RetireRequest(w) && !(run[0].ClaimWorker? && run[0].w == w)
      && (StepKeeps(s, run[0]); Undisturbed(Step(s, run[0]), run[1..], g, w)))
  }

  /**
   Until its generation stops being active, or somebody asks to retire it or claims its cleanup, a serving worker goes
   on serving: it is found, leased and activated again whenever it is alive, whatever its leases and the other tasks.
   */
  lemma {:induction false} ActiveWorkerServes(
    s: System, run: seq<Action>, d: Descriptor, w: WorkerId, l: LeaseId, alive: set<WorkerId>)
    requires Safe(s) && Serves(s.o, d, w) && Undisturbed(s, run, d.generation, w) && w in alive
    ensures var o := After(s, run).o;
            && o.Linked() && Serves(o, d, w) && Usable(o, d, alive) == Found(w)
            && Reserve(o, d, l, alive) == Some(LeaseOn(o, d, l, w)) && Activate(o, d, alive).Some?
    decreases |run|
  {
    if run == [] {
      FoundExactlyWhenServing(s.o, d, alive, w);
      assert !s.o.closing;
    } else {
      StepKeeps(s, run[0]);
      ActiveThen(s, run, d.generation, w);
      ServesStays(s, run[0], d, w);
      ActiveWorkerServes(Step(s, run[0]), run[1..], d, w, l, alive);
    }
  }

  lemma ActiveThen(s: System, run: seq<Action>, g: Generation, w: WorkerId)
    requires Safe(s) && run != [] && Undisturbed(s, run, g, w)
    ensures Safe(Step(s, run[0])) && Step(s, run[0]).o.active == Some(g) && Undisturbed(Step(s, run[0]), run[1..], g, w)
  {
    StepKeeps(s, run[0]);
  }

  // ---------- what a task that nobody disturbs achieves ----------

  lemma {:induction false} AfterJoins(s: System, first: seq<Action>, rest: seq<Action>)
    requires Safe(s)
    ensures Safe(After(s, first)) && After(s, first + rest) == After(After(s, first), rest)
    decreases |rest|
  {
    RunsAreSafe(s, first);
    if rest == [] {
      assert first + rest == first;
    } else {
      var front, last := rest[..|rest| - 1], rest[|rest| - 1];
      assert (first + front) + [last] == first + rest;
      assert front + [last] == rest;
      AfterJoins(s, first, front);
      AfterOneMore(s, first + front, last);
      AfterOneMore(After(s, first), front, last);
    }
  }

  lemma {:induction false} AfterTwo(s: System, a: Action, b: Action)
    requires Safe(s)
    ensures Safe(Step(s, a)) && After(s, [a, b]) == Step(Step(s, a), b)
  {
    AfterOneMore(s, [a], b);
    AfterOneMore(s, [], a);
    assert [] + [a] == [a] && [a] + [b] == [a, b];
  }

  lemma ServingWorkerIsChosen(s: System, t: TaskId, w: WorkerId, alive: set<WorkerId>)
    requires s.o.Linked() && At(s, t).Looking? && Serves(s.o, s.tasks[t].d, w) && w in alive
    ensures Step(s, LookUp(t, alive)) == Onward(s, t, w)
  {
    FoundExactlyWhenServing(s.o, s.tasks[t].d, alive, w);
  }

  /** The attach block moves the lease from its generation's pending count to the worker. */
  lemma ChosenWorkerIsAttached(s: System, t: TaskId, w: WorkerId)
    requires Safe(s) && At(s, t) == Chosen(w) && s.tasks[t].lease.Some? && !s.o.leases[s.tasks[t].lease.value].released
    ensures var l := s.tasks[t].lease.value; var next := Step(s, AttachLease(t));
            && At(next, t).Ended? && l in next.o.leases && next.o.leases[l] == s.o.leases[l].(worker := Some(w))
            && w in s.o.workers && w in next.o.workers && next.o.workers[w].leases == s.o.workers[w].leases + 1
            && next.o.Pending(s.tasks[t].d.generation) == s.o.Pending(s.tasks[t].d.generation) - 1
  {
    assert TaskSound(s.o, s.tasks[t]);
    ClampsNeverAct(s.o, s.tasks[t].lease.value);
  }

  /** A prediction's task that finds its worker serving attaches its unreleased lease to it in two steps. */
  lemma {:induction false} ServingWorkerIsAttached(s: System, t: TaskId, w: WorkerId, alive: set<WorkerId>)
    requires Safe(s) && At(s, t).Looking? && s.tasks[t].lease.Some? && Serves(s.o, s.tasks[t].d, w) && w in alive
    requires !s.o.leases[s.tasks[t].lease.value].released
    ensures var l := s.tasks[t].lease.value; var next := After(s, [LookUp(t, alive), AttachLease(t)]);
            && At(next, t).Ended? && l in next.o.leases && next.o.leases[l] == s.o.leases[l].(worker := Some(w))
  {
    var found := Step(s, LookUp(t, alive));
    StepKeeps(s, LookUp(t, alive));
    ServingWorkerIsChosen(s, t, w, alive);
    ChosenWorkerIsAttached(found, t, w);
    AfterTwo(s, LookUp(t, alive), AttachLease(t));
  }

  /** A task with no worker to find spawns one: in an open owner nothing refuses it. */
  lemma SpawnsAlone(s: System, t: TaskId, w: WorkerId, alive: set<WorkerId>)
    requires Safe(s) && !s.o.closing && At(s, t).Looking? && s.tasks[t].d.generation !in s.o.index && w !in s.o.workers
    ensures var next := After(s, [LookUp(t, alive), TrySpawn(t)]);
            next == Move(s, t, Spawning(None)).(o := s.o.(spawning := s.o.spawning + 1))
  {
    AfterTwo(s, LookUp(t, alive), TrySpawn(t));
    LookAlone(s, t, alive);
    TryAlone(Step(s, LookUp(t, alive)), t);
  }

  lemma LookAlone(s: System, t: TaskId, alive: set<WorkerId>)
    requires s.o.Linked() && At(s, t).Looking? && s.tasks[t].d.generation !in s.o.index
    ensures Step(s, LookUp(t, alive)) == Move(s, t, Absent)
  {
  }

  lemma TryAlone(s: System, t: TaskId)
    requires s.o.Linked() && At(s, t).Absent? && !s.o.closing
    ensures Step(s, TrySpawn(t)) == Move(s, t, Spawning(None)).(o := s.o.(spawning := s.o.spawning + 1))
  {
  }

  lemma StartAlone(s: System, t: TaskId, w: WorkerId)
    requires s.o.Linked() && At(s, t) == Spawning(None) && w !in s.o.workers
    ensures Step(s, Start(t, w)) == Move(s, t, Spawning(Some(w))).(o := Register(s.o, w, s.tasks[t].d))
  {
  }

  lemma SpawnEndAlone(s: System, t: TaskId, w: WorkerId)
    requires s.o.Linked() && At(s, t) == Spawning(Some(w)) && s.o.spawning > 0
    ensures Step(s, SpawnEnds(t, false)) == Move(s, t, Spawned(w)).(o := EndSpawn(s.o))
  {
  }

  lemma StartsAlone(s: System, t: TaskId, w: WorkerId)
    requires Safe(s) && At(s, t) == Spawning(None) && w !in s.o.workers
    ensures var next := After(s, [Start(t, w), SpawnEnds(t, false)]);
            && At(next, t) == Spawned(w) && next.o.index == s.o.index && next.o.closing == s.o.closing
            && next.o.leases == s.o.leases && next.tasks[t] == s.tasks[t].(phase := Spawned(w))
            && w in next.o.workers && next.o.workers[w] == Worker(s.tasks[t].d, 0, false, false, false)
  {
    AfterTwo(s, Start(t, w), SpawnEnds(t, false));
    StartAlone(s, t, w);
    assert t in Spawners(s.tasks);
    SpawnEndAlone(Step(s, Start(t, w)), t, w);
  }

  /** A worker that reports READY in an open owner without an entry for its generation is indexed and serves its task. */
  lemma ReadyAlone(s: System, t: TaskId, w: WorkerId, alive: set<WorkerId>)
    requires Safe(s) && !s.o.closing && At(s, t) == Spawned(w)
    requires w in s.o.workers && s.o.workers[w].descriptor.generation !in s.o.index
    requires !s.o.workers[w].retired && !s.o.workers[w].cleaning && !s.o.workers[w].reaped
    ensures var next := Step(s, Ready(t, alive));
            && Serves(next.o, s.o.workers[w].descriptor, w)
            && At(next, t) == (if s.tasks[t].lease.Some? then Chosen(w) else Ended)
            && next.o.leases == s.o.leases && next.tasks[t].lease == s.tasks[t].lease
  {
  }

  /** The steps of a preparation that has to spawn. */
  function Spawn(t: TaskId, w: WorkerId, alive: set<WorkerId>): seq<Action> {
    [LookUp(t, alive), TrySpawn(t)] + [Start(t, w), SpawnEnds(t, false)]
  }

  /**
   In an open owner whose index has no entry for the generation, a preparation that nobody disturbs ends with its new
   worker serving the descriptor, chosen for the lease the task was made for.
   */
  lemma {:induction false} PreparationServes(s: System, t: TaskId, w: WorkerId, alive: set<WorkerId>)
    requires Safe(s) && !s.o.closing && At(s, t).Looking? && s.tasks[t].d.generation !in s.o.index && w !in s.o.workers
    ensures var next := After(s, Spawn(t, w, alive) + [Ready(t, alive)]);
            && Safe(next) && Serves(next.o, s.tasks[t].d, w)
            && At(next, t) == (if s.tasks[t].lease.Some? then Chosen(w) else Ended)
            && next.o.leases == s.o.leases && (t in next.tasks ==> next.tasks[t].lease == s.tasks[t].lease)
  {
    var spawning := After(s, [LookUp(t, alive), TrySpawn(t)]);
    var spawned := After(s, Spawn(t, w, alive));
    SpawnsAlone(s, t, w, alive);
    AfterJoins(s, [LookUp(t, alive), TrySpawn(t)], [Start(t, w), SpawnEnds(t, false)]);
    StartsAlone(spawning, t, w);
    AfterOneMore(s, Spawn(t, w, alive), Ready(t, alive));
    ReadyAlone(spawned, t, w, alive);
    RunsAreSafe(s, Spawn(t, w, alive) + [Ready(t, alive)]);
  }

  /** With a lease that nobody released meanwhile, the next step attaches it to that worker. */
  lemma {:induction false} PreparedLeaseIsAttached(s: System, t: TaskId, w: WorkerId, alive: set<WorkerId>)
    requires Safe(s) && !s.o.closing && At(s, t).Looking? && s.tasks[t].d.generation !in s.o.index && w !in s.o.workers
    requires s.tasks[t].lease.Some? && s.tasks[t].lease.value in s.o.leases && !s.o.leases[s.tasks[t].lease.value].released
    ensures var l := s.tasks[t].lease.value;
            var next := After(s, Spawn(t, w, alive) + [Ready(t, alive)] + [AttachLease(t)]);
            && At(next, t).Ended? && l in next.o.leases && next.o.leases[l] == s.o.leases[l].(worker := Some(w))
  {
    var ready := After(s, Spawn(t, w, alive) + [Ready(t, alive)]);
    PreparationServes(s, t, w, alive);
    ChosenWorkerIsAttached(ready, t, w);
    AfterOneMore(s, Spawn(t, w, alive) + [Ready(t, alive)], AttachLease(t));
  }

  lemma ActivatesAlone(s: System, d: Descriptor, w: WorkerId, alive: set<WorkerId>)
    requires s.o.Linked() && !s.o.closing && s.lock.Free? && Serves(s.o, d, w) && w in alive && w in s.o.owned
    ensures var locked := Step(s, LockToPublish(d));
            && locked.o == s.o
            && var next := Step(locked, ActivateLocked(alive));
               next.o == Activate(s.o, d, alive).value && next.lock == Committing(d)
  {
    ActivationLeavesOne(s.o, d, alive, w);
  }

  /** A publication of a descriptor with a serving worker that is alive is carried through. */
  lemma {:induction false} PublicationSucceeds(s: System, d: Descriptor, w: WorkerId, alive: set<WorkerId>)
    requires Safe(s) && !s.o.closing && s.lock.Free? && Serves(s.o, d, w) && w in alive
    ensures var next := After(s, [LockToPublish(d), ActivateLocked(alive)] + [CommitPublished]);
            && next.published == Some(d) && next.lock.Free? && next.o.active == Some(d.generation) && Serves(next.o, d, w)
            && forall v <- s.o.owned :: v in next.o.workers && (next.o.workers[v].retired <==> v != w)
  {
    ActivatesAlone(s, d, w, alive);
    ActivationLeavesOne(s.o, d, alive, w);
    AfterTwo(s, LockToPublish(d), ActivateLocked(alive));
    AfterOneMore(s, [LockToPublish(d), ActivateLocked(alive)], CommitPublished);
    Commits(After(s, [LockToPublish(d), ActivateLocked(alive)]));
  }

  lemma Commits(s: System)
    requires s.o.Linked() && s.lock.Committing?
    ensures Step(s, CommitPublished) == s.(published := Some(s.lock.d), lock := Free)
  {
  }

  // ---------- every close can return ----------

  /** A number that no member of the set has. */
  ghost function Above(ids: set<nat>): (n: nat)
    ensures forall i <- ids :: i < n
  {
    if ids == {} then 0
    else
      var i := Pick(ids);
      var n := Above(ids - {i});
      assert forall k <- ids :: k == i || k in ids - {i};
      if i < n then n else i + 1
  }

  ghost predicate SameCloses(s: System, next: System) {
    next.closes == s.closes && s.handed <= next.handed && s.o.workers.Keys <= next.o.workers.Keys
  }

  lemma FinishEnds(s: System, c: CleanupId)
    requires s.o.Linked() && c in s.cleanups && s.cleanups[c] in s.o.workers
    ensures var next := Step(s, FinishWorker(c, true));
            SameCloses(s, next) && next.o.workers[s.cleanups[c]].reaped
  {
  }

  lemma ClaimStarts(s: System, c: CleanupId, w: WorkerId)
    requires s.o.Linked() && c !in s.cleanups && w in s.handed && w in s.o.workers && ClaimOf(s.o, w).Granted?
    ensures var next := Step(s, ClaimWorker(c, w));
            SameCloses(s, next) && c in next.cleanups && next.cleanups[c] == w
  {
  }

  lemma SeesReaped(s: System, k: CloseId, w: WorkerId)
    requires s.o.Linked() && k in s.closes && s.closes[k].Reaping? && w in s.o.workers && s.o.workers[w].reaped
    ensures var next := Step(s, SeeReaped(k, w));
            next == s.(closes := s.closes[k := Reaping(s.closes[k].remaining - {w})])
  {
  }

  lemma CleanerOf(s: System, w: WorkerId) returns (c: CleanupId)
    requires OneCleanupEach(s) && w in s.o.workers && s.o.workers[w].cleaning
    ensures c in s.cleanups && s.cleanups[c] == w
  {
    c :| c in s.cleanups && s.cleanups[c] == w;
  }

  lemma {:induction false} AfterOne(s: System, a: Action)
    requires Safe(s)
    ensures Safe(Step(s, a)) && After(s, [a]) == Step(s, a)
  {
    var none: seq<Action> := [];
    assert none + [a] == [a];
    StepKeeps(s, a);
    AfterOneMore(s, none, a);
  }

  /** Any worker that somebody has to clean up can be ended. */
  lemma {:induction false} WorkerCanEnd(s: System, w: WorkerId) returns (run: seq<Action>)
    requires Safe(s) && w in s.handed && w in s.o.workers
    ensures Safe(After(s, run)) && SameCloses(s, After(s, run)) && After(s, run).o.workers[w].reaped
  {
    run := [];
    if s.o.workers[w].cleaning {
      var c := CleanerOf(s, w);
      run := [FinishWorker(c, true)];
      AfterOne(s, FinishWorker(c, true));
      FinishEnds(s, c);
    } else if !s.o.workers[w].reaped {
      var c := Above(s.cleanups.Keys);
      run := [ClaimWorker(c, w), FinishWorker(c, true)];
      AfterTwo(s, ClaimWorker(c, w), FinishWorker(c, true));
      ClaimStarts(s, c, w);
      FinishEnds(Step(s, ClaimWorker(c, w)), c);
      StepKeeps(Step(s, ClaimWorker(c, w)), FinishWorker(c, true));
    }
  }

  /** The close still waits for these workers, and each has been handed to somebody. */
  ghost predicate Reaps(s: System, k: CloseId, remaining: set<WorkerId>) {
    k in s.closes && s.closes[k] == Reaping(remaining) && remaining <= s.handed && remaining <= s.o.workers.Keys
  }

  lemma {:induction false} OneIsReaped(s: System, k: CloseId, remaining: set<WorkerId>, w: WorkerId)
    returns (run: seq<Action>)
    requires Safe(s) && Reaps(s, k, remaining) && w in remaining
    ensures Safe(After(s, run)) && Reaps(After(s, run), k, remaining - {w})
  {
    var first := WorkerCanEnd(s, w);
    run := first + [SeeReaped(k, w)];
    AfterOneMore(s, first, SeeReaped(k, w));
    StepKeeps(After(s, first), SeeReaped(k, w));
    SeesReaped(After(s, first), k, w);
  }

  /** Worker by worker, everything that a close still waits for can be ended. */
  lemma {:induction false} ReapingCanEnd(s: System, k: CloseId, remaining: set<WorkerId>) returns (run: seq<Action>)
    requires Safe(s) && Reaps(s, k, remaining)
    ensures ClosedIn(After(s, run), k)
    decreases |remaining|
  {
    if remaining == {} {
      run := [CloseReturns(k)];
      AfterOne(s, CloseReturns(k));
    } else {
      var w := Pick(remaining);
      var first := OneIsReaped(s, k, remaining, w);
      var rest := ReapingCanEnd(After(s, first), k, remaining - {w});
      AfterJoins(s, first, rest);
      run := first + rest;
    }
  }

  predicate ClosedIn(s: System, k: CloseId) {
    k in s.closes && s.closes[k].Closed?
  }

  lemma SnapshotReaps(s: System, k: CloseId)
    requires s.o.Linked() && k in s.closes && s.closes[k].Waiting? && s.o.spawning == 0
    ensures var seen := Step(s, SeeNoSpawns(k));
            seen.o.Linked() && Reaps(Step(seen, SnapshotOwned(k)), k, s.o.owned)
  {
  }

  /** Whatever is owned, and whoever is cleaning it up: a close that sees no spawn in flight can go on to return. */
  lemma {:induction false} CloseCanReturn(s: System, k: CloseId) returns (run: seq<Action>)
    requires Safe(s) && k in s.closes && s.closes[k].Waiting? && s.o.spawning == 0
    ensures ClosedIn(After(s, run), k)
  {
    var first := [SeeNoSpawns(k), SnapshotOwned(k)];
    AfterTwo(s, SeeNoSpawns(k), SnapshotOwned(k));
    StepKeeps(Step(s, SeeNoSpawns(k)), SnapshotOwned(k));
    SnapshotReaps(s, k);
    var rest := ReapingCanEnd(After(s, first), k, s.o.owned);
    AfterJoins(s, first, rest);
    run := first + rest;
  }
}
