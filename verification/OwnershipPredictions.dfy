/**
 What becomes of the leases of predictions: a release for every one that was predicted with, none for one whose
 call stopped at its deadline, and what the second kind costs.
 */
module OwnershipPredictions {
  import opened Bytes
  import opened Ownership
  import opened OwnershipAccounting
  import opened OwnershipProtocol
  import opened OwnershipSafety
  import opened OwnershipTheorems

  /** Every lease belongs to one call, is released exactly when that call has released it, and is worked on only by it. */
  ghost predicate Followed(s: System) {
    && s.predictions.Keys == s.o.leases.Keys
    && (forall l <- s.o.leases :: s.o.leases[l].released <==> s.predictions[l].Released?)
    && (forall t <- s.tasks :: s.tasks[t].lease.Some? ==> PastDeadline(s.predictions, s.tasks[t].lease.value))
  }

  predicate PastDeadline(predictions: map<LeaseId, Prediction>, l: LeaseId) {
    l in predictions && (predictions[l].Running? || predictions[l].Released?)
  }

  /** A step of a task prepares only for running predictions and writes lease rows only to attach such a lease. */
  ghost predicate ServesPredictions(s: System, next: System) {
    && next.predictions == s.predictions
    && next.o.leases.Keys == s.o.leases.Keys
    && (forall l <- s.o.leases :: next.o.leases[l].released == s.o.leases[l].released)
    && (forall l <- s.o.leases :: next.o.leases[l] == s.o.leases[l] || Prepared(s.tasks, l))
    && (forall t <- next.tasks :: next.tasks[t].lease.Some? ==>
          (t in s.tasks && s.tasks[t].lease == next.tasks[t].lease) || Predicts(s, next.tasks[t].lease.value))
  }

  lemma MoveServes(s: System, t: TaskId, phase: Phase, o: Owner, handed: set<WorkerId>)
    requires t in s.tasks && o.leases == s.o.leases
    ensures ServesPredictions(s, Move(s, t, phase).(o := o, handed := handed))
  {
  }

  lemma ReadyServes(s: System, t: TaskId, w: WorkerId, alive: set<WorkerId>)
    requires s.o.Linked() && t in s.tasks && w in s.o.workers
    ensures ServesPredictions(s, AfterReady(s, t, w, alive))
  {
    var next := AfterReady(s, t, w, alive);
    MoveServes(s, t, next.tasks[t].phase, next.o, next.handed);
  }

  lemma LookUpServes(s: System, t: TaskId, alive: set<WorkerId>)
    requires s.o.Linked()
    ensures ServesPredictions(s, StepTask(s, LookUp(t, alive)))
  {
    var next := StepTask(s, LookUp(t, alive));
    if At(s, t).Looking? { MoveServes(s, t, next.tasks[t].phase, s.o, s.handed); }
  }

  lemma AttachServes(s: System, t: TaskId)
    requires s.o.Linked()
    ensures ServesPredictions(s, StepTask(s, AttachLease(t)))
  {
  }

  lemma SpawnServes(s: System, a: Action)
    requires s.o.Linked() && (a.TrySpawn? || a.Start? || a.SpawnEnds?)
    ensures ServesPredictions(s, StepTask(s, a))
  {
    var next := StepTask(s, a);
    if a.t in s.tasks { MoveServes(s, a.t, next.tasks[a.t].phase, next.o, next.handed); }
  }

  lemma GiveUpServes(s: System, t: TaskId)
    requires s.o.Linked()
    ensures ServesPredictions(s, StepTask(s, GiveUp(t)))
  {
    match At(s, t) {
      case Looking | Absent | Chosen(_) => MoveServes(s, t, Ended, s.o, s.handed);
      case Spawned(w) => MoveServes(s, t, Ended, s.o, s.handed + {w});
      case _ =>
    }
  }

  lemma TasksServe(s: System, a: Action)
    requires s.o.Linked()
    ensures ServesPredictions(s, StepTask(s, a))
  {
    match a {
      case LookUp(t, alive) => LookUpServes(s, t, alive);
      case Ready(t, alive) =>
        if At(s, t).Spawned? && s.tasks[t].phase.worker in s.o.workers {
          ReadyServes(s, t, s.tasks[t].phase.worker, alive);
        }
      case AttachLease(t) => AttachServes(s, t);
      case TrySpawn(_) | Start(_, _) | SpawnEnds(_, _) => SpawnServes(s, a);
      case GiveUp(t) => GiveUpServes(s, t);
      case _ =>
    }
  }

  /** The other steps write lease rows and predictions together, one lease at a time. */
  ghost predicate WritesOneLease(s: System, next: System, l: LeaseId, prediction: Prediction) {
    && next.tasks == s.tasks && next.predictions == s.predictions[l := prediction]
    && next.o.leases.Keys == s.o.leases.Keys + {l}
    && (forall k <- s.o.leases :: k != l ==> next.o.leases[k] == s.o.leases[k])
    && (next.o.leases[l].released <==> prediction.Released?)
  }

  ghost predicate LeavesLeases(s: System, next: System) {
    next.tasks == s.tasks && next.predictions == s.predictions && next.o.leases == s.o.leases
  }

  lemma LeaseStepWrites(s: System, a: Action)
    requires s.o.Linked() && Followed(s)
    ensures var next := StepLease(s, a);
            LeavesLeases(s, next)
            || (a.ReserveLease? && a.l !in s.o.leases && WritesOneLease(s, next, a.l, Running))
            || (a.CheckDeadline? && a.l in s.o.leases && s.predictions[a.l].Reserved?
                && WritesOneLease(s, next, a.l, if a.expired then Abandoned else Running)
                && next.o.leases == s.o.leases)
            || (a.ReleaseLease? && Predicts(s, a.l) && WritesOneLease(s, next, a.l, Released))
  {
    match a {
      case ReserveLease(d, l, alive) => ReserveWrites(s, d, l, alive);
      case ReleaseLease(l) => ReleaseWrites(s, l);
      case CheckDeadline(_, _) =>
      case _ => OtherLeaseStepsLeave(s, a);
    }
  }

  lemma ReserveWrites(s: System, d: Descriptor, l: LeaseId, alive: set<WorkerId>)
    requires s.o.Linked()
    ensures var next := StepLease(s, ReserveLease(d, l, alive));
            LeavesLeases(s, next) || (l !in s.o.leases && WritesOneLease(s, next, l, Running))
  {
    if l !in s.o.leases && Reserve(s.o, d, l, alive).Some? {
      ReserveAddsOne(s.o, d, l, alive);
    }
  }

  lemma ReleaseWrites(s: System, l: LeaseId)
    requires s.o.Linked()
    ensures var next := StepLease(s, ReleaseLease(l));
            LeavesLeases(s, next) || (Predicts(s, l) && WritesOneLease(s, next, l, Released))
  {
  }

  lemma PublicationWrites(s: System, a: Action)
    requires s.o.Linked()
    ensures var next := StepPublication(s, a);
            LeavesLeases(s, next)
            || (a.ReservePublished? && a.l !in s.o.leases && WritesOneLease(s, next, a.l, Reserved))
  {
    match a {
      case ReservePublished(l, alive) => ReservePublishedWrites(s, l, alive);
      case _ => OtherPublicationsLeave(s, a);
    }
  }

  lemma OtherPublicationsLeave(s: System, a: Action)
    requires s.o.Linked() && !a.ReservePublished?
    ensures LeavesLeases(s, StepPublication(s, a))
  {
  }

  lemma OtherLeaseStepsLeave(s: System, a: Action)
    requires s.o.Linked() && !a.ReserveLease? && !a.ReleaseLease? && !a.CheckDeadline?
    ensures LeavesLeases(s, StepLease(s, a))
  {
  }

  lemma ReservePublishedWrites(s: System, l: LeaseId, alive: set<WorkerId>)
    requires s.o.Linked()
    ensures var next := StepPublication(s, ReservePublished(l, alive));
            LeavesLeases(s, next) || (l !in s.o.leases && WritesOneLease(s, next, l, Reserved))
  {
    if s.lock.Predicting? && l !in s.o.leases && s.published.Some?
       && Reserve(s.o, s.published.value, l, alive).Some? {
      ReserveAddsOne(s.o, s.published.value, l, alive);
    }
  }

  lemma ReserveAddsOne(o: Owner, d: Descriptor, l: LeaseId, alive: set<WorkerId>)
    requires o.Linked() && Reserve(o, d, l, alive).Some?
    ensures var lease := if Usable(o, d, alive).Found? then Lease(d, Some(Usable(o, d, alive).worker), false)
                         else Lease(d, None, false);
            Reserve(o, d, l, alive).value.leases == o.leases[l := lease]
  {
  }

  lemma ServingFollows(s: System, next: System)
    requires Followed(s) && ServesPredictions(s, next)
    ensures Followed(next)
  {
  }

  lemma WritingFollows(s: System, next: System, l: LeaseId, prediction: Prediction)
    requires Followed(s) && WritesOneLease(s, next, l, prediction)
    requires l in s.predictions ==> s.predictions[l].Reserved? || !(prediction.Reserved? || prediction.Abandoned?)
    ensures Followed(next)
  {
  }

  lemma StepFollows(s: System, a: Action)
    requires s.o.Linked() && Followed(s)
    ensures Followed(Step(s, a))
  {
    TasksServe(s, a);
    ServingFollows(s, StepTask(s, a));
    LeaseStepWrites(s, a);
    PublicationWrites(s, a);
    var next := Step(s, a);
    match a {
      case ReserveLease(_, l, _) => if !LeavesLeases(s, next) { WritingFollows(s, next, l, Running); }
      case CheckDeadline(l, expired) =>
        if !LeavesLeases(s, next) { WritingFollows(s, next, l, if expired then Abandoned else Running); }
      case ReleaseLease(l) => if !LeavesLeases(s, next) { WritingFollows(s, next, l, Released); }
      case ReservePublished(l, _) => if !LeavesLeases(s, next) { WritingFollows(s, next, l, Reserved); }
      case _ =>
    }
  }

  lemma {:induction false} RunsAreFollowed(s: System, run: seq<Action>)
    requires Safe(s) && Followed(s)
    ensures Followed(After(s, run))
    decreases |run|
  {
    if run != [] {
      StepKeeps(s, run[0]);
      StepFollows(s, run[0]);
      RunsAreFollowed(Step(s, run[0]), run[1..]);
    }
  }

  /** The state behind the first n actions of a run. */
  ghost function StateAt(run: seq<Action>, n: nat): (s: System)
    requires n <= |run|
    ensures s.o.Linked()
  {
    RunsAreSafe(INITIAL, run[..n]);
    After(INITIAL, run[..n])
  }

  lemma StateSteps(run: seq<Action>, n: nat)
    requires n < |run|
    ensures StateAt(run, n + 1) == Step(StateAt(run, n), run[n])
  {
    AfterOneMore(INITIAL, run[..n], run[n]);
    assert run[..n + 1] == run[..n] + [run[n]];
  }

  lemma StateFollowed(run: seq<Action>, n: nat)
    requires n <= |run|
    ensures Followed(StateAt(run, n))
  {
    RunsAreFollowed(INITIAL, run[..n]);
  }

  ghost predicate PassedAt(run: seq<Action>, n: nat, l: LeaseId)
    requires n <= |run|
  {
    PastDeadline(StateAt(run, n).predictions, l)
  }

  ghost predicate ReleasedAt(run: seq<Action>, n: nat, l: LeaseId)
    requires n <= |run|
  {
    HasReleased(StateAt(run, n), l)
  }

  /** This step lets the call go on to predict: its deadline lives at the check, or it reserves without one. */
  predicate LetsPredict(s: System, a: Action, l: LeaseId)
    requires s.o.Linked()
  {
    || (a == CheckDeadline(l, false) && l in s.predictions && s.predictions[l].Reserved?)
    || (a.ReserveLease? && a.l == l && l !in s.o.leases && Reserve(s.o, a.d, l, a.alive).Some?)
  }

  predicate HasReleased(s: System, l: LeaseId) {
    l in s.predictions && s.predictions[l].Released?
  }

  /** The prediction that a step records for a lease, if it is its step to record one. */
  lemma ReserveMoves(s: System, d: Descriptor, l: LeaseId, alive: set<WorkerId>)
    requires s.o.Linked()
    ensures Step(s, ReserveLease(d, l, alive)).predictions ==
            if l !in s.o.leases && Reserve(s.o, d, l, alive).Some? then s.predictions[l := Running] else s.predictions
  {
  }

  lemma CheckMoves(s: System, l: LeaseId, expired: bool)
    requires s.o.Linked()
    ensures Step(s, CheckDeadline(l, expired)).predictions ==
            if l in s.predictions && s.predictions[l].Reserved?
            then s.predictions[l := if expired then Abandoned else Running] else s.predictions
  {
  }

  lemma ReleaseMoves(s: System, l: LeaseId)
    requires s.o.Linked()
    ensures Step(s, ReleaseLease(l)).predictions ==
            if Predicts(s, l) then s.predictions[l := Released] else s.predictions
  {
  }

  lemma PublishedMoves(s: System, l: LeaseId, alive: set<WorkerId>)
    requires s.o.Linked()
    ensures var next := Step(s, ReservePublished(l, alive)).predictions;
            next == s.predictions || (l !in s.o.leases && next == s.predictions[l := Reserved])
  {
  }

  lemma OthersMove(s: System, a: Action)
    requires s.o.Linked()
    requires !a.ReserveLease? && !a.ReservePublished? && !a.CheckDeadline? && !a.ReleaseLease?
    ensures Step(s, a).predictions == s.predictions
  {
    TasksServe(s, a);
    OtherPublicationsLeave(s, a);
    OtherLeaseStepsLeave(s, a);
  }

  lemma ReservationMoves(s: System, a: Action, l: LeaseId)
    requires s.o.Linked() && Followed(s) && (a.ReserveLease? || a.ReservePublished?)
    ensures PastDeadline(Step(s, a).predictions, l) <==> PastDeadline(s.predictions, l) || LetsPredict(s, a, l)
    ensures HasReleased(Step(s, a), l) <==> HasReleased(s, l)
  {
    match a {
      case ReserveLease(d, k, alive) => ReserveMoves(s, d, k, alive);
      case ReservePublished(k, alive) => PublishedMoves(s, k, alive);
    }
  }

  lemma DeadlinePassedBy(s: System, a: Action, l: LeaseId)
    requires s.o.Linked() && Followed(s)
    ensures PastDeadline(Step(s, a).predictions, l) <==> PastDeadline(s.predictions, l) || LetsPredict(s, a, l)
    ensures HasReleased(Step(s, a), l) <==>
            HasReleased(s, l) || (PastDeadline(s.predictions, l) && a == ReleaseLease(l))
  {
    match a {
      case ReserveLease(_, _, _) => ReservationMoves(s, a, l);
      case ReservePublished(_, _) => ReservationMoves(s, a, l);
      case CheckDeadline(k, expired) => CheckMoves(s, k, expired);
      case ReleaseLease(k) => ReleaseMoves(s, k);
      case _ => OthersMove(s, a);
    }
  }

  ghost predicate LetsPredictAt(run: seq<Action>, i: nat, l: LeaseId)
    requires i < |run|
  {
    LetsPredict(StateAt(run, i), run[i], l)
  }

  lemma PassedSteps(run: seq<Action>, n: nat, l: LeaseId)
    requires n < |run|
    ensures PassedAt(run, n + 1, l) <==> PassedAt(run, n, l) || LetsPredictAt(run, n, l)
    ensures ReleasedAt(run, n + 1, l) <==>
            ReleasedAt(run, n, l) || (PassedAt(run, n, l) && run[n] == ReleaseLease(l))
  {
    StateSteps(run, n);
    StateFollowed(run, n);
    DeadlinePassedBy(StateAt(run, n), run[n], l);
  }

  lemma NothingAtFirst(run: seq<Action>, l: LeaseId)
    ensures !PassedAt(run, 0, l) && !ReleasedAt(run, 0, l)
  {
    assert run[..0] == [];
  }

  ghost predicate LetBefore(run: seq<Action>, n: nat, l: LeaseId)
    requires n <= |run|
  {
    exists i: nat | i < n :: LetsPredictAt(run, i, l)
  }

  ghost predicate EndedBefore(run: seq<Action>, n: nat, l: LeaseId)
    requires n <= |run|
  {
    exists j: nat | j < n :: run[j] == ReleaseLease(l) && LetBefore(run, j, l)
  }

  lemma {:induction false} PassedExactlyWhen(run: seq<Action>, n: nat, l: LeaseId)
    requires n <= |run|
    ensures PassedAt(run, n, l) <==> LetBefore(run, n, l)
  {
    if n == 0 {
      NothingAtFirst(run, l);
    } else {
      PassedExactlyWhen(run, n - 1, l);
      PassedSteps(run, n - 1, l);
    }
  }

  lemma {:induction false} ReleasedBy(run: seq<Action>, n: nat, l: LeaseId)
    requires n <= |run|
    ensures ReleasedAt(run, n, l) <==> EndedBefore(run, n, l)
  {
    if n == 0 {
      NothingAtFirst(run, l);
    } else {
      ReleasedBy(run, n - 1, l);
      PassedExactlyWhen(run, n - 1, l);
      PassedSteps(run, n - 1, l);
    }
  }

  /**
   After every run a lease is released exactly when some step of it let its call past the deadline check, or
   reserved it for a call without one, and a later step ended that call.
   */
  lemma ReleasedExactlyWhen(run: seq<Action>, l: LeaseId)
    ensures var o := After(INITIAL, run).o;
            l in o.leases && o.leases[l].released <==>
              exists j: nat | j < |run| :: run[j] == ReleaseLease(l) && LetBefore(run, j, l)
  {
    assert run[..|run|] == run;
    ReleasedBy(run, |run|, l);
    StateFollowed(run, |run|);
  }

  /** The end of a call releases its lease exactly when its deadline, if it had one to check, had not expired. */
  lemma ExitReleasesExactlyWhen(s: System, l: LeaseId, expired: bool)
    requires Safe(s) && Followed(s) && l in s.predictions && s.predictions[l].Reserved?
    ensures Safe(Step(s, CheckDeadline(l, expired)))
    ensures var o := Step(Step(s, CheckDeadline(l, expired)), ReleaseLease(l)).o;
            l in o.leases && (o.leases[l].released <==> !expired)
  {
    StepKeeps(s, CheckDeadline(l, expired));
    var next := Step(s, CheckDeadline(l, expired));
    StepFollows(s, CheckDeadline(l, expired));
    ReleaseWrites(next, l);
  }

  ghost predicate StaysAbandoned(s: System, next: System, l: LeaseId) {
    && l in s.o.leases && l in s.predictions && s.predictions[l].Abandoned?
    && l in next.o.leases && l in next.predictions
    && next.predictions[l].Abandoned? && next.o.leases[l] == s.o.leases[l]
  }

  lemma AbandonedIsNotPrepared(s: System, l: LeaseId)
    requires Followed(s) && l in s.predictions && s.predictions[l].Abandoned?
    ensures !Prepared(s.tasks, l)
  {
  }

  lemma AbandonedByTask(s: System, a: Action, l: LeaseId)
    requires s.o.Linked() && Followed(s) && l in s.o.leases && s.predictions[l].Abandoned?
    ensures StaysAbandoned(s, StepTask(s, a), l)
  {
    TasksServe(s, a);
    AbandonedIsNotPrepared(s, l);
  }

  lemma AbandonedByLease(s: System, a: Action, l: LeaseId)
    requires s.o.Linked() && Followed(s) && l in s.o.leases && s.predictions[l].Abandoned?
    ensures StaysAbandoned(s, StepLease(s, a), l)
  {
    LeaseStepWrites(s, a);
  }

  lemma AbandonedByPublication(s: System, a: Action, l: LeaseId)
    requires s.o.Linked() && Followed(s) && l in s.o.leases && s.predictions[l].Abandoned?
    ensures StaysAbandoned(s, StepPublication(s, a), l)
  {
    PublicationWrites(s, a);
  }

  lemma AbandonedStep(s: System, a: Action, l: LeaseId)
    requires s.o.Linked() && Followed(s) && l in s.o.leases && s.predictions[l].Abandoned?
    ensures StaysAbandoned(s, Step(s, a), l)
  {
    AbandonedByTask(s, a, l);
    AbandonedByLease(s, a, l);
    AbandonedByPublication(s, a, l);
  }

  lemma {:induction false} AbandonedForEver(s: System, run: seq<Action>, l: LeaseId)
    requires Safe(s) && Followed(s) && l in s.o.leases && s.predictions[l].Abandoned?
    ensures Safe(After(s, run)) && StaysAbandoned(s, After(s, run), l)
    decreases |run|
  {
    if run != [] {
      StepKeeps(s, run[0]);
      StepFollows(s, run[0]);
      AbandonedStep(s, run[0], l);
      AbandonedForEver(Step(s, run[0]), run[1..], l);
    }
  }

  /**
   What an expired deadline costs: the lease stays unreleased for ever, so its generation never drains; and a
   worker it was reserved on never becomes idle, so neither a release nor an activation ever hands it out.
   */
  lemma {:induction false} AbandonedLeaseStays(s: System, run: seq<Action>, l: LeaseId)
    requires Safe(s) && Followed(s) && l in s.o.leases && s.predictions[l].Abandoned?
    ensures Safe(After(s, run))
    ensures var o := After(s, run).o; var lease := s.o.leases[l];
            && l in o.leases && !o.leases[l].released
            && 1 <= Load(o, lease.descriptor.generation)
            && (lease.worker.Some? ==>
                  && lease.worker.value !in Idle(o)
                  && (forall k <- o.leases :: ReleaseHandsOut(o, k) != lease.worker || k == l)
                  && (forall d, alive :: lease.worker.value !in ActivateHandsOut(o, d, alive)))
  {
    AbandonedForEver(s, run, l);
    var o, lease := After(s, run).o, s.o.leases[l];
    RunsAreFollowed(s, run);
    LoadIsOutstanding(o, lease.descriptor.generation);
    assert l in Outstanding(o, lease.descriptor.generation);
    ClampsNeverAct(o, l);
    if lease.worker.Some? {
      forall k <- o.leases | k != l ensures ReleaseHandsOut(o, k) != lease.worker {
        BusyAfterRelease(o, k, l, lease.worker.value);
      }
    }
  }

  lemma BusyAfterRelease(o: Owner, k: LeaseId, l: LeaseId, w: WorkerId)
    requires Sound(o) && k in o.leases && l in o.leases && k != l
    requires !o.leases[l].released && o.leases[l].worker == Some(w)
    ensures ReleaseHandsOut(o, k) != Some(w)
  {
    if ReleaseHandsOut(o, k) == Some(w) {
      var held := Held(o.leases, On(w));
      assert k in held && l in held;
      assert {k, l} <= held;
      SubsetIsNoLarger({k, l}, held);
      assert false;
    }
  }
}
