/** What the inference owner promises over every interleaving of its tasks. */
module OwnershipTheorems {
  import opened Bytes
  import opened Ownership
  import opened OwnershipAccounting
  import opened OwnershipProtocol
  import opened OwnershipSafety

  /** The state after a run of actions. */
  ghost function After(s: System, run: seq<Action>): System
    requires Safe(s)
    decreases |run|
  {
    if run == [] then s else
      StepKeeps(s, run[0]);
      After(Step(s, run[0]), run[1..])
  }

  /** Every invariant holds after every run. */
  lemma {:induction false} RunsAreSafe(s: System, run: seq<Action>)
    requires Safe(s)
    ensures Safe(After(s, run))
    decreases |run|
  {
    if run != [] {
      StepKeeps(s, run[0]);
      RunsAreSafe(Step(s, run[0]), run[1..]);
    }
  }

  lemma {:induction false} AfterOneMore(s: System, run: seq<Action>, a: Action)
    requires Safe(s)
    ensures Safe(After(s, run)) && After(s, run + [a]) == Step(After(s, run), a)
    decreases |run|
  {
    RunsAreSafe(s, run);
    if run == [] {
      assert [a][1..] == [];
    } else {
      StepKeeps(s, run[0]);
      AfterOneMore(Step(s, run[0]), run[1..], a);
      assert (run + [a])[1..] == run[1..] + [a];
    }
  }

  // ---------- close ----------

  ghost predicate Quiesced(o: Owner) {
    o.closing && o.spawning == 0
  }

  ghost predicate StaysQuiesced(o: Owner, next: Owner) {
    next.closing && next.spawning == o.spawning && next.owned <= o.owned
  }

  lemma QuiescedTask(s: System, a: Action)
    requires s.o.Linked() && SpawnsCounted(s) && Quiesced(s.o)
    ensures StaysQuiesced(s.o, StepTask(s, a).o)
  {
    assert Spawners(s.tasks) == {};
    match a {
      case TrySpawn(_) =>
      case Start(t, _) => assert t !in Spawners(s.tasks);
      case SpawnEnds(t, _) => assert t !in Spawners(s.tasks);
      case AttachLease(_) =>
      case _ => assert StepTask(s, a).o.owned == s.o.owned;
    }
  }

  lemma QuiescedLease(s: System, a: Action)
    requires s.o.Linked() && Quiesced(s.o)
    ensures StaysQuiesced(s.o, StepLease(s, a).o)
  {
  }

  lemma QuiescedPublication(s: System, a: Action)
    requires s.o.Linked() && s.o.active.None? && Quiesced(s.o)
    ensures StepPublication(s, a).o == s.o
  {
  }

  lemma QuiescedStep(s: System, a: Action)
    requires s.o.Linked() && SpawnsCounted(s) && s.o.active.None? && Quiesced(s.o)
    ensures Quiesced(Step(s, a).o) && Step(s, a).o.owned <= s.o.owned
  {
    QuiescedTask(s, a);
    QuiescedLease(s, a);
    QuiescedPublication(s, a);
    assert StaysQuiesced(s.o, StepClose(s, a).o);
  }

  /** Once closing with no spawn in flight, ownership never grows and the owner admits no work, for ever. */
  lemma {:induction false} CloseQuiescence(s: System, run: seq<Action>)
    requires Safe(s) && Quiesced(s.o)
    ensures Safe(After(s, run)) && Quiesced(After(s, run).o) && After(s, run).o.owned <= s.o.owned
    ensures forall d, l, alive :: Reserve(After(s, run).o, d, l, alive).None?
    ensures forall d, alive :: Activate(After(s, run).o, d, alive).None?
    ensures BeginSpawn(After(s, run).o).None?
    decreases |run|
  {
    if run != [] {
      StepKeeps(s, run[0]);
      QuiescedStep(s, run[0]);
      CloseQuiescence(Step(s, run[0]), run[1..]);
    }
  }

  /** A close that returned normally left nothing owned, and nothing is ever owned again. */
  lemma {:induction false} NormalCloseIsFinal(s: System, k: CloseId, run: seq<Action>)
    requires Safe(s) && k in s.closes && s.closes[k].Closed?
    ensures After(s, run).o.owned == {}
  {
    assert CloseSound(s.o, s.closes[k]);
    CloseQuiescence(s, run);
  }

  // ---------- supersession ----------

  function Outstanding(o: Owner, g: Generation): set<LeaseId> {
    set l | l in o.leases && !o.leases[l].released && o.leases[l].descriptor.generation == g
  }

  /** Every lease row of next is one of o's with the same descriptor, released if it was, or is of another generation. */
  ghost predicate Drains(o: Owner, next: Owner, g: Generation) {
    forall l <- next.leases :: !next.leases[l].released && next.leases[l].descriptor.generation == g ==>
      l in Outstanding(o, g)
  }

  lemma AttachDrains(o: Owner, l: LeaseId, w: WorkerId, g: Generation)
    requires l in o.leases && w in o.workers && Attach(o, l, w).Some?
    ensures Drains(o, Attach(o, l, w).value, g)
  {
  }

  lemma SameLeasesDrain(o: Owner, next: Owner, g: Generation)
    requires next.leases == o.leases
    ensures Drains(o, next, g)
  {
  }

  lemma DrainTask(s: System, a: Action, g: Generation)
    requires s.o.Linked()
    ensures Drains(s.o, StepTask(s, a).o, g)
  {
    match a {
      case AttachLease(t) =>
        if At(s, t).Chosen? && s.tasks[t].lease.Some? {
          var l, w := s.tasks[t].lease.value, s.tasks[t].phase.worker;
          if l in s.o.leases && w in s.o.workers && Attach(s.o, l, w).Some? { AttachDrains(s.o, l, w, g); }
        }
      case _ =>
        OtherTasksKeepTheLeases(s, a);
        SameLeasesDrain(s.o, StepTask(s, a).o, g);
    }
  }

  lemma OtherTasksKeepTheLeases(s: System, a: Action)
    requires s.o.Linked() && !a.AttachLease?
    ensures StepTask(s, a).o.leases == s.o.leases
  {
    match a {
      case Ready(_, _) =>
      case LookUp(_, _) =>
      case _ =>
    }
  }

  lemma ReserveDrains(o: Owner, d: Descriptor, l: LeaseId, alive: set<WorkerId>, g: Generation)
    requires o.Linked() && l !in o.leases && o.active != Some(g) && Reserve(o, d, l, alive).Some?
    ensures Drains(o, Reserve(o, d, l, alive).value, g)
  {
  }

  lemma ReleaseDrains(o: Owner, l: LeaseId, g: Generation)
    requires o.Linked() && l in o.leases
    ensures Drains(o, Release(o, l), g)
  {
  }

  lemma DrainReserve(s: System, d: Descriptor, l: LeaseId, alive: set<WorkerId>, g: Generation)
    requires s.o.Linked() && s.o.active != Some(g)
    ensures Drains(s.o, StepLease(s, ReserveLease(d, l, alive)).o, g)
  {
    if l !in s.o.leases && Reserve(s.o, d, l, alive).Some? {
      ReserveDrains(s.o, d, l, alive, g);
    } else {
      SameLeasesDrain(s.o, s.o, g);
    }
  }

  lemma DrainRelease(s: System, l: LeaseId, g: Generation)
    requires s.o.Linked()
    ensures Drains(s.o, StepLease(s, ReleaseLease(l)).o, g)
  {
    if Predicts(s, l) { ReleaseDrains(s.o, l, g); } else { SameLeasesDrain(s.o, s.o, g); }
  }

  lemma DrainLease(s: System, a: Action, g: Generation)
    requires s.o.Linked() && s.o.active != Some(g)
    ensures Drains(s.o, StepLease(s, a).o, g)
  {
    match a {
      case ReserveLease(d, l, alive) => DrainReserve(s, d, l, alive, g);
      case ReleaseLease(l) => DrainRelease(s, l, g);
      case _ =>
        OthersKeepTheLeases(s, a);
        SameLeasesDrain(s.o, StepLease(s, a).o, g);
    }
  }

  lemma OthersKeepTheLeases(s: System, a: Action)
    requires s.o.Linked()
    ensures !a.ReserveLease? && !a.ReleaseLease? ==> StepLease(s, a).o.leases == s.o.leases
    ensures !a.ReservePublished? ==> StepPublication(s, a).o.leases == s.o.leases
  {
  }

  lemma DrainPublication(s: System, a: Action, g: Generation)
    requires s.o.Linked() && s.o.active != Some(g)
    ensures Drains(s.o, StepPublication(s, a).o, g)
  {
    match a {
      case ReservePublished(l, alive) =>
        if s.lock.Predicting? && l !in s.o.leases && s.published.Some?
           && Reserve(s.o, s.published.value, l, alive).Some? {
          ReserveDrains(s.o, s.published.value, l, alive, g);
        } else {
          SameLeasesDrain(s.o, s.o, g);
        }
      case _ =>
        OthersKeepTheLeases(s, a);
        SameLeasesDrain(s.o, StepPublication(s, a).o, g);
    }
  }

  lemma DrainStep(s: System, a: Action, g: Generation)
    requires s.o.Linked() && s.o.active != Some(g)
    ensures Outstanding(Step(s, a).o, g) <= Outstanding(s.o, g)
  {
    DrainTask(s, a, g);
    DrainLease(s, a, g);
    DrainPublication(s, a, g);
    SameLeasesDrain(s.o, StepClose(s, a).o, g);
    assert Drains(s.o, Step(s, a).o, g);
  }

  ghost predicate InactiveThroughout(s: System, run: seq<Action>, g: Generation)
    requires Safe(s)
    decreases |run|
  {
    s.o.active != Some(g) && (run != [] ==>
      (StepKeeps(s, run[0]); InactiveThroughout(Step(s, run[0]), run[1..], g)))
  }

  /** While a generation is not active, its unreleased leases only drain. */
  lemma {:induction false} SupersededDrains(s: System, run: seq<Action>, g: Generation)
    requires Safe(s) && InactiveThroughout(s, run, g)
    ensures Outstanding(After(s, run).o, g) <= Outstanding(s.o, g)
    decreases |run|
  {
    if run != [] {
      StepKeeps(s, run[0]);
      DrainStep(s, run[0], g);
      SupersededDrains(Step(s, run[0]), run[1..], g);
    }
  }

  ghost function Pick(ws: set<WorkerId>): (w: WorkerId)
    requires ws != {}
    ensures w in ws
  {
    var w :| w in ws; w
  }

  ghost function SumOfLeases(o: Owner, ws: set<WorkerId>): nat
    requires ws <= o.workers.Keys
  {
    if ws == {} then 0 else var w := Pick(ws); o.workers[w].leases + SumOfLeases(o, ws - {w})
  }

  function AttachedTo(o: Owner, ws: set<WorkerId>): set<LeaseId> {
    set l | l in o.leases && !o.leases[l].released && o.leases[l].worker.Some? && o.leases[l].worker.value in ws
  }

  lemma {:induction false} SumCountsAttached(o: Owner, ws: set<WorkerId>)
    requires Sound(o) && ws <= o.workers.Keys
    ensures SumOfLeases(o, ws) == |AttachedTo(o, ws)|
  {
    if ws == {} {
      assert AttachedTo(o, ws) == {};
    } else {
      var w := Pick(ws);
      SumCountsAttached(o, ws - {w});
      AttachedSplits(o, ws, w);
    }
  }

  lemma AttachedSplits(o: Owner, ws: set<WorkerId>, w: WorkerId)
    requires w in ws
    ensures AttachedTo(o, ws) == Held(o.leases, On(w)) + AttachedTo(o, ws - {w})
    ensures |AttachedTo(o, ws)| == |Held(o.leases, On(w))| + |AttachedTo(o, ws - {w})|
  {
    assert Held(o.leases, On(w)) !! AttachedTo(o, ws - {w});
    assert AttachedTo(o, ws) == Held(o.leases, On(w)) + AttachedTo(o, ws - {w});
  }

  /** What the tables say a generation still serves: its workers' counters plus its pending count. */
  ghost function Load(o: Owner, g: Generation): nat {
    SumOfLeases(o, set w | w in o.workers && o.workers[w].descriptor.generation == g) + o.Pending(g)
  }

  lemma OutstandingSplits(o: Owner, g: Generation, ws: set<WorkerId>)
    requires Attached(o) && ws == set w | w in o.workers && o.workers[w].descriptor.generation == g
    ensures Outstanding(o, g) == AttachedTo(o, ws) + Held(o.leases, PendingFor(g))
    ensures AttachedTo(o, ws) !! Held(o.leases, PendingFor(g))
  {
  }

  lemma {:induction false} LoadIsOutstanding(o: Owner, g: Generation)
    requires Sound(o)
    ensures Load(o, g) == |Outstanding(o, g)|
  {
    var ws := set w | w in o.workers && o.workers[w].descriptor.generation == g;
    SumCountsAttached(o, ws);
    OutstandingSplits(o, g, ws);
  }

  lemma SubsetIsNoLarger<T>(a: set<T>, b: set<T>)
    requires a <= b
    ensures |a| <= |b|
  {
    assert b == a + (b - a);
  }

  /** The counters themselves: attached plus pending never increases while g is superseded. */
  lemma {:induction false} SupersededLoadNeverGrows(s: System, run: seq<Action>, g: Generation)
    requires Safe(s) && InactiveThroughout(s, run, g)
    ensures Load(After(s, run).o, g) <= Load(s.o, g)
  {
    SupersededDrains(s, run, g);
    RunsAreSafe(s, run);
    LoadIsOutstanding(s.o, g);
    LoadIsOutstanding(After(s, run).o, g);
    SubsetIsNoLarger(Outstanding(After(s, run).o, g), Outstanding(s.o, g));
  }

  /** activate hands out exactly the other owned workers that no unreleased lease is attached to. */
  lemma {:induction false} ActivateHandsOutTheUnattached(o: Owner, d: Descriptor, alive: set<WorkerId>, w: WorkerId)
    requires Sound(o) && Activate(o, d, alive).Some?
    ensures w in ActivateHandsOut(o, d, alive) <==>
            w in o.owned && Usable(o, d, alive) != Found(w) && forall l <- o.leases ::
              o.leases[l].worker == Some(w) ==> o.leases[l].released
  {
    if w in o.owned {
      assert o.workers[w].leases == 0 <==> Held(o.leases, On(w)) == {};
      assert forall l <- o.leases :: o.leases[l].worker == Some(w) && !o.leases[l].released ==> l in Held(o.leases, On(w));
    }
  }

  /** Leak freedom: a superseded worker with no unreleased lease has ended or has been handed to some caller. */
  lemma {:induction false} NoSupersededWorkerLeaks(run: seq<Action>, w: WorkerId)
    ensures var s := After(INITIAL, run);
            (w in s.o.workers && s.o.workers[w].retired
             && forall l <- s.o.leases :: s.o.leases[l].worker == Some(w) ==> s.o.leases[l].released)
            ==> s.o.workers[w].reaped || w in s.handed
  {
    var s := After(INITIAL, run);
    RunsAreSafe(INITIAL, run);
    if w in s.o.workers && s.o.workers[w].leases != 0 {
      assert Held(s.o.leases, On(w)) != {};
      var l :| l in Held(s.o.leases, On(w));
    }
  }

  /** In an open owner, a release from a worker of a superseded generation hands it out exactly when it was the last. */
  lemma {:induction false} LastReleaseHandsOut(s: System, l: LeaseId, w: WorkerId)
    requires Safe(s) && !s.o.closing && l in s.o.leases && !s.o.leases[l].released && s.o.leases[l].worker == Some(w)
    requires w in s.o.owned && s.o.active != Some(s.o.workers[w].descriptor.generation)
    ensures ReleaseHandsOut(s.o, l) == Some(w) <==>
            forall k <- s.o.leases :: k != l && s.o.leases[k].worker == Some(w) ==> s.o.leases[k].released
    ensures Predicts(s, l) && ReleaseHandsOut(s.o, l) == Some(w) ==> w in Step(s, ReleaseLease(l)).handed
  {
    var held := Held(s.o.leases, On(w));
    assert l in held && |held| == s.o.workers[w].leases;
    Alone(held, l);
    forall k <- s.o.leases | k != l && s.o.leases[k].worker == Some(w) && !s.o.leases[k].released
      ensures held != {l}
    {
      assert k in held;
    }
    if held != {l} {
      assert held - {l} != {};
      var k :| k in held - {l};
      assert s.o.leases[k].worker == Some(w) && !s.o.leases[k].released;
    }
  }

  lemma Alone<T>(s: set<T>, x: T)
    requires x in s
    ensures |s| == 1 <==> s == {x}
  {
    assert s == {x} + (s - {x});
  }

  // ---------- leases ----------

  /** A prediction that reaches the attach block is refused exactly when its lease was released meanwhile. */
  lemma {:induction false} AttachNeverLosesAccounting(s: System, t: TaskId)
    requires Safe(s) && At(s, t).Chosen? && s.tasks[t].lease.Some?
    ensures var l := s.tasks[t].lease.value; var w := s.tasks[t].phase.worker;
            l in s.o.leases && w in s.o.workers && (Attach(s.o, l, w).None? <==> s.o.leases[l].released)
  {
    var l := s.tasks[t].lease.value;
    if !s.o.leases[l].released { ClampsNeverAct(s.o, l); }
  }

  /** Attaching keeps the books exactly for a lease that is not attached yet. */
  lemma {:induction false} AttachOnlyOnce(o: Owner, l: LeaseId, w: WorkerId)
    requires Sound(o) && l in o.leases && w in o.workers
    requires o.workers[w].descriptor == o.leases[l].descriptor && Attach(o, l, w).Some?
    ensures Sound(Attach(o, l, w).value) <==> o.leases[l].worker.None?
  {
    if o.leases[l].worker.None? {
      AttachKeeps(o, l, w);
    } else {
      var next := Attach(o, l, w).value;
      var g := o.leases[l].descriptor.generation;
      assert Held(next.leases, PendingFor(g)) == Held(o.leases, PendingFor(g));
    }
  }

  /** The worker a lease is attached to was resolved to the same paths as the lease. */
  lemma {:induction false} AttachedWorkerMatches(run: seq<Action>, l: LeaseId)
    ensures var o := After(INITIAL, run).o;
            l in o.leases && o.leases[l].worker.Some? ==>
              var w := o.leases[l].worker.value; w in o.workers && o.workers[w].descriptor == o.leases[l].descriptor
  {
    RunsAreSafe(INITIAL, run);
  }

  // ---------- the index and cleanup ----------

  ghost predicate KeepsEntry(o: Owner, next: Owner, g: Generation)
    requires g in o.index
  {
    o.index[g] in next.workers &&
    (next.workers[o.index[g]].reaped || (g in next.index && next.index[g] == o.index[g]))
  }

  lemma EnlistKeepsEntry(o: Owner, w: WorkerId, alive: set<WorkerId>, g: Generation)
    requires o.Linked() && w in o.workers && g in o.index && !o.workers[o.index[g]].reaped
    ensures KeepsEntry(o, Enlist(o, w, alive), g)
  {
  }

  lemma FinishKeepsEntry(o: Owner, w: WorkerId, proved: bool, g: Generation)
    requires o.Linked() && w in o.workers && g in o.index
    ensures KeepsEntry(o, FinishCleanup(o, w, proved), g)
  {
  }

  lemma LeasingLeavesTheIndex(o: Owner, d: Descriptor, l: LeaseId, w: WorkerId, alive: set<WorkerId>)
    requires o.Linked()
    ensures Reserve(o, d, l, alive).Some? ==> Reserve(o, d, l, alive).value.index == o.index
    ensures l in o.leases ==> Release(o, l).index == o.index
    ensures l in o.leases && w in o.workers && Attach(o, l, w).Some? ==> Attach(o, l, w).value.index == o.index
  {
  }

  lemma ActivatingLeavesTheIndex(o: Owner, d: Descriptor, alive: set<WorkerId>)
    requires o.Linked() && Activate(o, d, alive).Some?
    ensures Activate(o, d, alive).value.index == o.index
  {
  }

  lemma AttachLeavesTheIndex(s: System, t: TaskId)
    requires s.o.Linked()
    ensures StepTask(s, AttachLease(t)).o.index == s.o.index
  {
  }

  lemma OtherTasksLeaveTheIndex(s: System, a: Action)
    requires s.o.Linked() && !a.Ready?
    ensures StepTask(s, a).o.index == s.o.index
  {
    match a {
      case AttachLease(t) => AttachLeavesTheIndex(s, t);
      case LookUp(t, alive) => assert StepTask(s, a).o == s.o;
      case _ =>
    }
  }

  lemma OtherLeasesLeaveTheIndex(s: System, a: Action)
    requires s.o.Linked() && !a.FinishWorker?
    ensures StepLease(s, a).o.index == s.o.index
  {
    match a {
      case ReserveLease(d, l, alive) => LeasingLeavesTheIndex(s.o, d, l, 0, alive);
      case ReleaseLease(l) => if Predicts(s, l) { LeasingLeavesTheIndex(s.o, s.o.leases[l].descriptor, l, 0, {}); }
      case _ =>
    }
  }

  lemma PublicationsLeaveTheIndex(s: System, a: Action)
    requires s.o.Linked()
    ensures StepPublication(s, a).o.index == s.o.index
  {
    match a {
      case ReservePublished(l, alive) =>
        if s.published.Some? { LeasingLeavesTheIndex(s.o, s.published.value, l, 0, alive); }
      case ActivateLocked(alive) =>
        if s.lock.Publishing? && Activate(s.o, s.lock.d, alive).Some? { ActivatingLeavesTheIndex(s.o, s.lock.d, alive); }
      case _ =>
    }
  }

  lemma OthersLeaveTheIndex(s: System, a: Action)
    requires s.o.Linked() && !a.Ready? && !a.FinishWorker?
    ensures Step(s, a).o.index == s.o.index
  {
    OtherTasksLeaveTheIndex(s, a);
    OtherLeasesLeaveTheIndex(s, a);
    PublicationsLeaveTheIndex(s, a);
  }

  lemma ReadyKeepsEntry(s: System, t: TaskId, alive: set<WorkerId>, g: Generation)
    requires s.o.Linked() && g in s.o.index && !s.o.workers[s.o.index[g]].reaped
    ensures KeepsEntry(s.o, Step(s, Ready(t, alive)).o, g)
  {
    if At(s, t).Spawned? && s.tasks[t].phase.worker in s.o.workers {
      EnlistKeepsEntry(s.o, s.tasks[t].phase.worker, alive, g);
    }
  }

  /** An index entry of a worker that still runs is only ever dropped by that worker's proved cleanup. */
  lemma IndexEntryIsKept(s: System, a: Action, g: Generation)
    requires Safe(s) && g in s.o.index && !s.o.workers[s.o.index[g]].reaped
    ensures KeepsEntry(s.o, Step(s, a).o, g)
  {
    StepKeeps(s, a);
    EntryKept(s, a, g);
  }

  lemma EntryKept(s: System, a: Action, g: Generation)
    requires s.o.Linked() && g in s.o.index && !s.o.workers[s.o.index[g]].reaped
    requires Step(s, a).o.Linked()
    ensures KeepsEntry(s.o, Step(s, a).o, g)
  {
    match a {
      case Ready(t, alive) => ReadyKeepsEntry(s, t, alive, g);
      case FinishWorker(c, proved) => FinishedKeepsEntry(s, c, proved, g);
      case _ => OthersLeaveTheIndex(s, a);
    }
  }

  lemma FinishedKeepsEntry(s: System, c: CleanupId, proved: bool, g: Generation)
    requires s.o.Linked() && g in s.o.index && !s.o.workers[s.o.index[g]].reaped
    ensures KeepsEntry(s.o, Step(s, FinishWorker(c, proved)).o, g)
  {
    if c in s.cleanups && s.cleanups[c] in s.o.workers { FinishKeepsEntry(s.o, s.cleanups[c], proved, g); }
  }

  /** At most one cleanup per worker runs at a time, and none on a worker that has ended. */
  lemma {:induction false} SoleCleanup(run: seq<Action>, c: CleanupId, e: CleanupId)
    ensures var s := After(INITIAL, run);
            c in s.cleanups && e in s.cleanups && s.cleanups[c] == s.cleanups[e] ==>
              c == e && s.cleanups[c] in s.o.owned && s.cleanups[c] in s.o.workers && s.o.workers[s.cleanups[c]].cleaning
  {
    RunsAreSafe(INITIAL, run);
    var s := After(INITIAL, run);
    if c in s.cleanups { assert s.cleanups[c] in s.cleanups.Values; }
  }

  /** After READY the new worker is indexed or handed over, unless its generation id resolved to other paths. */
  lemma ReadyWorkerIsAccountedFor(s: System, t: TaskId, w: WorkerId, alive: set<WorkerId>)
    requires Safe(s) && At(s, t) == Spawned(w) && w in s.o.workers && w !in s.handed && w !in s.o.index.Values
    ensures var next := AfterReady(s, t, w, alive);
            w in next.handed || w in next.o.index.Values <==>
              !Usable(s.o, s.o.workers[w].descriptor, alive).Conflict? || s.o.closing
  {
    var next := AfterReady(s, t, w, alive);
    var g := s.o.workers[w].descriptor.generation;
    if EnlistOutcome(s.o, s.o.workers[w].descriptor, alive).Selected? {
      assert next.o.index[g] == w;
    }
  }

  // ---------- publication ----------

  /** Outside a publication's two assignments, the published generation is the active one. */
  lemma {:induction false} PublicationAgrees(run: seq<Action>)
    ensures var s := After(INITIAL, run);
            !s.o.closing && !s.lock.Committing? ==> s.o.active == PublishedGeneration(s)
  {
    RunsAreSafe(INITIAL, run);
  }

  /** Under the publication lock an open owner leases exactly the published generation. */
  lemma PredictionLeasesThePublished(s: System, l: LeaseId, alive: set<WorkerId>)
    requires s.o.Linked() && Agreed(s)
    requires !s.o.closing && s.lock.Predicting? && s.published.Some? && l !in s.o.leases
    ensures var d := s.published.value; var next := Step(s, ReservePublished(l, alive)).o;
            && (l in next.leases <==> !Usable(s.o, d, alive).Conflict?)
            && (l in next.leases ==> next.leases[l].descriptor == d && s.o.active == Some(d.generation))
  {
  }

  /** A refused activation leaves the owner and the publication as they were. */
  lemma RefusedActivationChangesNothing(s: System, alive: set<WorkerId>)
    requires Safe(s) && s.lock.Publishing? && Step(s, ActivateLocked(alive)).lock.Free?
    ensures var next := Step(s, ActivateLocked(alive)); next.o == s.o && next.published == s.published
    ensures Activate(s.o, s.lock.d, alive).None?
  {
  }
}
