/**
 Runs and states at which the ownership protocol does not do what its comments say: the inputs behind the exact
 conditions of OwnershipTheorems and OwnershipPredictions.
 */
module OwnershipWitnesses {
  import opened Bytes
  import opened Ownership
  import opened OwnershipAccounting
  import opened OwnershipProtocol
  import opened OwnershipSafety
  import opened OwnershipTheorems
  import opened OwnershipPredictions

  /** One generation id, resolved to two different sets of paths. */
  const HERE := Descriptor(0, 0)
  const THERE := Descriptor(0, 1)

  function Fresh(d: Descriptor): Worker { Worker(d, 0, false, false, false) }

  function Holding(workers: map<WorkerId, Worker>, index: map<Generation, WorkerId>, spawning: nat): Owner {
    EMPTY.(workers := workers, owned := workers.Keys, index := index, spawning := spawning)
  }

  function Preparing(o: Owner, here: Phase, there: Phase): System {
    INITIAL.(o := o, tasks := map[0 := Task(HERE, None, here), 1 := Task(THERE, None, there)])
  }

  /** A state that some run of the system reaches. */
  ghost predicate Reached(s: System) {
    exists run :: After(INITIAL, run) == s
  }

  lemma Begins()
    ensures Reached(INITIAL)
  {
    assert After(INITIAL, []) == INITIAL;
  }

  lemma ReachesOneMore(run: seq<Action>, a: Action)
    ensures After(INITIAL, run).o.Linked() && Reached(Step(After(INITIAL, run), a))
  {
    AfterOneMore(INITIAL, run, a);
    var next := After(INITIAL, run + [a]);
    assert Reached(next);
  }

  lemma Goes(s: System, a: Action, next: System)
    requires s.o.Linked() && Reached(s) && Step(s, a) == next
    ensures Reached(next)
  {
    var run :| After(INITIAL, run) == s;
    ReachesOneMore(run, a);
  }

  // ---------- a READY worker that nobody accounts for ----------

  lemma BothPrepare()
    ensures Reached(Preparing(EMPTY, Looking, Looking))
  {
    Begins();
    var one := INITIAL.(tasks := map[0 := Task(HERE, None, Looking)]);
    Goes(INITIAL, Prepare(0, HERE), one);
    Goes(one, Prepare(1, THERE), Preparing(EMPTY, Looking, Looking));
  }

  lemma LooksFirst()
    ensures Step(Preparing(EMPTY, Looking, Looking), LookUp(0, {})) == Preparing(EMPTY, Absent, Looking)
  {
  }

  lemma BothLook()
    ensures Reached(Preparing(EMPTY, Absent, Absent))
  {
    BothPrepare();
    var one := Preparing(EMPTY, Absent, Looking);
    LooksFirst();
    Goes(Preparing(EMPTY, Looking, Looking), LookUp(0, {}), one);
    Goes(one, LookUp(1, {}), Preparing(EMPTY, Absent, Absent));
  }

  const ONE := map[0 := Fresh(HERE)]
  const TWO := map[0 := Fresh(HERE), 1 := Fresh(THERE)]

  lemma BothMaySpawn()
    ensures Reached(Preparing(Holding(map[], map[], 2), Spawning(None), Spawning(None)))
  {
    BothLook();
    var one := Preparing(Holding(map[], map[], 1), Spawning(None), Absent);
    FirstMaySpawn();
    Goes(Preparing(EMPTY, Absent, Absent), TrySpawn(0), one);
    Goes(one, TrySpawn(1), Preparing(Holding(map[], map[], 2), Spawning(None), Spawning(None)));
  }

  lemma FirstMaySpawn()
    ensures Step(Preparing(EMPTY, Absent, Absent), TrySpawn(0)) ==
            Preparing(Holding(map[], map[], 1), Spawning(None), Absent)
  {
  }

  lemma BothStart()
    ensures Reached(Preparing(Holding(TWO, map[], 2), Spawning(Some(0)), Spawning(Some(1))))
  {
    BothMaySpawn();
    FirstStarts();
    SecondStarts();
    var one := Preparing(Holding(ONE, map[], 2), Spawning(Some(0)), Spawning(None));
    Goes(Preparing(Holding(map[], map[], 2), Spawning(None), Spawning(None)), Start(0, 0), one);
    Goes(one, Start(1, 1), Preparing(Holding(TWO, map[], 2), Spawning(Some(0)), Spawning(Some(1))));
  }

  lemma FirstStarts()
    ensures Step(Preparing(Holding(map[], map[], 2), Spawning(None), Spawning(None)), Start(0, 0)) ==
            Preparing(Holding(ONE, map[], 2), Spawning(Some(0)), Spawning(None))
  {
    var next := Step(Preparing(Holding(map[], map[], 2), Spawning(None), Spawning(None)), Start(0, 0));
    assert next.o.workers == ONE;
    assert next.o.owned == ONE.Keys;
  }

  lemma SecondStarts()
    ensures Step(Preparing(Holding(ONE, map[], 2), Spawning(Some(0)), Spawning(None)), Start(1, 1)) ==
            Preparing(Holding(TWO, map[], 2), Spawning(Some(0)), Spawning(Some(1)))
  {
    var next := Step(Preparing(Holding(ONE, map[], 2), Spawning(Some(0)), Spawning(None)), Start(1, 1));
    assert next.o.workers == TWO;
    assert next.o.owned == TWO.Keys;
  }

  lemma BothSpawned()
    ensures Reached(Preparing(Holding(TWO, map[], 0), Spawned(0), Spawned(1)))
  {
    BothStart();
    FirstSpawned();
    var one := Preparing(Holding(TWO, map[], 1), Spawned(0), Spawning(Some(1)));
    Goes(Preparing(Holding(TWO, map[], 2), Spawning(Some(0)), Spawning(Some(1))), SpawnEnds(0, false), one);
    Goes(one, SpawnEnds(1, false), Preparing(Holding(TWO, map[], 0), Spawned(0), Spawned(1)));
  }

  lemma FirstSpawned()
    ensures Step(Preparing(Holding(TWO, map[], 2), Spawning(Some(0)), Spawning(Some(1))), SpawnEnds(0, false)) ==
            Preparing(Holding(TWO, map[], 1), Spawned(0), Spawning(Some(1)))
  {
  }

  const INDEXED := Holding(TWO, map[0 := 0], 0)

  lemma FirstIsReady()
    ensures INDEXED.Linked() && Reached(Preparing(INDEXED, Ended, Spawned(1)))
  {
    BothSpawned();
    Goes(Preparing(Holding(TWO, map[], 0), Spawned(0), Spawned(1)), Ready(0, {0, 1}), Preparing(INDEXED, Ended, Spawned(1)));
  }

  /** Worker 1 runs and is owned, but neither the index nor any caller that was told to clean up knows it. */
  ghost predicate Unaccounted(s: System, w: WorkerId) {
    && w in s.o.owned && w in s.o.workers && !s.o.workers[w].reaped
    && w !in s.o.index.Values && w !in s.handed && w !in s.cleanups.Values
    && forall t <- s.tasks :: WorkerOf(s.tasks[t].phase) != Some(w)
  }

  /** What ReadyWorkerIsAccountedFor excludes is reached: two preparations of one id that resolved to different paths. */
  lemma {:induction false} UnaccountedWorkerIsReached()
    ensures exists s :: Reached(s) && !s.o.closing && Unaccounted(s, 1)
  {
    FirstIsReady();
    var s, next := Preparing(INDEXED, Ended, Spawned(1)), Preparing(INDEXED, Ended, Ended);
    assert Usable(INDEXED, THERE, {0, 1}).Conflict?;
    Goes(s, Ready(1, {0, 1}), next);
    assert Unaccounted(next, 1);
  }

  // ---------- a prediction that its deadline abandons ----------

  const SERVING := INDEXED.(active := Some(0), workers := map[0 := Fresh(HERE), 1 := Fresh(THERE).(retired := true)])

  function Published(lock: Publication): System {
    Preparing(SERVING, Ended, Spawned(1)).(handed := {1}, published := Some(HERE), lock := lock)
  }

  lemma Activates()
    ensures INDEXED.Linked()
    ensures Step(Preparing(INDEXED, Ended, Spawned(1)).(lock := Publishing(HERE)), ActivateLocked({0})) ==
            Published(Committing(HERE)).(published := None)
  {
    assert Usable(INDEXED, HERE, {0}) == Found(0);
    assert RetireAllBut(TWO, TWO.Keys, {0}) == SERVING.workers;
    assert ActivateHandsOut(INDEXED, HERE, {0}) == {1};
  }

  lemma FirstIsActivated()
    ensures Reached(Published(Committing(HERE)).(published := None))
  {
    FirstIsReady();
    Activates();
    var s := Preparing(INDEXED, Ended, Spawned(1));
    var locked := s.(lock := Publishing(HERE));
    Goes(s, LockToPublish(HERE), locked);
    Goes(locked, ActivateLocked({0}), Published(Committing(HERE)).(published := None));
  }

  lemma Commits()
    ensures SERVING.Linked()
    ensures Step(Published(Committing(HERE)).(published := None), CommitPublished) == Published(Free)
    ensures Step(Published(Free), LockToPredict) == Published(Predicting)
  {
  }

  lemma FirstIsPublished()
    ensures SERVING.Linked() && Reached(Published(Predicting))
  {
    FirstIsActivated();
    Commits();
    Goes(Published(Committing(HERE)).(published := None), CommitPublished, Published(Free));
    Goes(Published(Free), LockToPredict, Published(Predicting));
  }

  const LEASED := SERVING.(
    workers := map[0 := Fresh(HERE).(leases := 1), 1 := Fresh(THERE).(retired := true)],
    leases := map[0 := Lease(HERE, Some(0), false)])

  lemma Reserves()
    ensures SERVING.Linked()
    ensures Step(Published(Predicting), ReservePublished(0, {0})) ==
            Published(Free).(o := LEASED, predictions := map[0 := Reserved])
  {
    assert Usable(SERVING, HERE, {0}) == Found(0);
    assert LeaseOn(SERVING, HERE, 0, 0).workers == LEASED.workers;
  }

  function Predicted(p: Prediction): System {
    Published(Free).(o := LEASED, predictions := map[0 := p])
  }

  lemma FirstIsReserved()
    ensures LEASED.Linked() && Reached(Predicted(Reserved))
  {
    FirstIsPublished();
    Reserves();
    Goes(Published(Predicting), ReservePublished(0, {0}), Predicted(Reserved));
  }

  /** A run reaches an expired deadline behind a reserved lease; AbandonedLeaseStays says what follows from there. */
  lemma {:induction false} AbandonedLeaseIsReached()
    ensures exists s :: Reached(s) && Followed(s) && 0 in s.o.leases && s.predictions[0].Abandoned?
                        && s.o.leases[0].worker == Some(0)
  {
    FirstIsReserved();
    var s := Predicted(Abandoned);
    Goes(Predicted(Reserved), CheckDeadline(0, true), s);
    assert Followed(s);
  }

  // ---------- attaching twice ----------

  /** Lease 0 is attached to worker 0, lease 1 of the same generation is still pending. */
  const SHARED := SERVING.(
    workers := map[0 := Fresh(HERE).(leases := 1)], owned := {0}, pending := map[0 := 1],
    leases := map[0 := Lease(HERE, Some(0), false), 1 := Lease(HERE, None, false)])

  lemma SharedIsSound()
    ensures Sound(SHARED)
  {
    assert Held(SHARED.leases, On(0)) == {0};
    assert Held(SHARED.leases, PendingFor(0)) == {1};
    forall g | g != 0 ensures Held(SHARED.leases, PendingFor(g)) == {} {
    }
  }

  /** The books break when a lease is attached a second time: the block lets it through and counts it twice. */
  lemma {:induction false} AttachingTwiceBreaksTheBooks()
    ensures Sound(SHARED) && SHARED.leases[0].worker == Some(0) && Attach(SHARED, 0, 0).Some?
    ensures !Counted(Attach(SHARED, 0, 0).value)
  {
    SharedIsSound();
    var next := Attach(SHARED, 0, 0).value;
    assert Held(next.leases, On(0)) == {0};
    assert next.workers[0].leases == 2;
  }
}
