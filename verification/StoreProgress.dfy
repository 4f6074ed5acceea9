/** A store call that meets no failure of its own returns, whatever other processes do, fail at or crash in. */
module StoreProgress {
  import opened Bytes
  import opened StoreProtocol
  import opened StoreSafety
  import opened StoreTheorems
  import opened StoreResults

  /** Every visible generation, and with it the pointer's, loads. */
  ghost predicate AllLoad(or: Oracle, s: Store) {
    && (forall g: GenerationId | Generation(g) in s.entries :: Loadable(or, s.entries, g))
    && forall v <- s.history :: v.Some? ==> Generation(v.value.generation) in s.entries
  }

  /** What the environment does for one call never fails it: the remote serves one bundle that loads. */
  predicate Kind(or: Oracle, a: Action, bundle: ETags) {
    match a
    case Fail => false
    case Crash => false
    case SeeRemote(remote) => remote == bundle
    case Fetched(model, thresholds, remote, after) => remote == bundle && after == bundle && or.loads(model, thresholds)
    case _ => true
  }

  predicate Failing(pc: Pc) {
    pc.Raised? || pc.Crashed? || (pc.Discard? && pc.outcome.None?)
  }

  /** The call has met no failure, and what it downloaded loads. */
  predicate Unfailing(or: Oracle, s: Store, p: ProcessId, bundle: ETags)
    requires p in s.processes
  {
    var proc := s.processes[p];
    && !Failing(proc.pc) && (proc.remote.Some? ==> proc.remote.value == bundle)
    && (proc.pc.Download? ==> proc.remote.Some?)
    && (proc.pc.MakeStage? ==> proc.remote.Some?)
    && (proc.pc.LoadCandidate? ==> Generation(proc.pc.next.generation) in s.entries)
    && (proc.pc.ValidateStage? ==> Staging(proc.pc.stage) in s.entries && Loads(or, s.entries[Staging(proc.pc.stage)]))
  }

  /** Only the entries of this call's own stage and generations that are new may differ. */
  ghost predicate LeavesStages(s: Store, next: Store, mine: Option<StageId>) {
    forall k: StageId :: Staging(k) in s.entries && mine != Some(k) ==>
      Staging(k) in next.entries && next.entries[Staging(k)] == s.entries[Staging(k)]
  }

  lemma AdvanceLeavesStages(or: Oracle, s: Store, p: ProcessId)
    requires p in s.processes
    ensures LeavesStages(s, AdvanceStaged(or, s, p), StageOf(s.processes[p].pc))
  {
  }

  lemma StepLeavesStages(or: Oracle, s: Store, p: ProcessId, a: Action)
    requires p in s.processes && !a.Begin?
    ensures LeavesStages(s, Step(or, s, p, a), StageOf(s.processes[p].pc))
  {
    if a.Advance? && StageOf(s.processes[p].pc).Some? { AdvanceLeavesStages(or, s, p); }
  }

  /** A step leaves other calls and their stages as they are. */
  lemma OthersStay(or: Oracle, s: Store, p: ProcessId, a: Action, q: ProcessId, bundle: ETags)
    requires Safe(or, s) && q in s.processes && q != p && Unfailing(or, s, q, bundle)
    ensures q in Step(or, s, p, a).processes && Unfailing(or, Step(or, s, p, a), q, bundle)
  {
    if p in s.processes && !a.Begin? {
      StepLeavesStages(or, s, p, a);
      StepOfOne(or, s, p, a);
      GenerationsNeverChange(or, s, p, a);
    }
  }

  lemma StagedIsOfOne(or: Oracle, s: Store, p: ProcessId)
    requires p in s.processes
    ensures var next := AdvanceStaged(or, s, p);
            p in next.processes && next.processes == s.processes[p := next.processes[p]]
  {
  }

  lemma StepOfOne(or: Oracle, s: Store, p: ProcessId, a: Action)
    requires p in s.processes
    ensures var next := Step(or, s, p, a);
            p in next.processes && next.processes == s.processes[p := next.processes[p]]
  {
    if a.Advance? && StageOf(s.processes[p].pc).Some? { StagedIsOfOne(or, s, p); }
  }

  /** Only a promotion makes a directory visible under a generation's name: the stage, as it was validated. */
  ghost predicate MakesVisible(s: Store, next: Store, p: ProcessId) {
    forall g: GenerationId :: Generation(g) in next.entries && Generation(g) !in s.entries ==>
      && p in s.processes && s.processes[p].pc.Promote? && s.processes[p].pc.next.generation == g
      && Staging(s.processes[p].pc.stage) in s.entries
      && next.entries[Generation(g)] == s.entries[Staging(s.processes[p].pc.stage)]
  }

  lemma AdvanceMakesVisible(or: Oracle, s: Store, p: ProcessId)
    requires p in s.processes
    ensures MakesVisible(s, AdvanceStaged(or, s, p), p)
  {
  }

  lemma StepMakesVisible(or: Oracle, s: Store, p: ProcessId, a: Action)
    ensures MakesVisible(s, Step(or, s, p, a), p)
  {
    if p in s.processes && a.Advance? && StageOf(s.processes[p].pc).Some? { AdvanceMakesVisible(or, s, p); }
  }

  /** Only a replacement writes the pointer. */
  ghost predicate WritesNext(s: Store, next: Store, p: ProcessId) {
    || next.history == s.history
    || (p in s.processes && s.processes[p].pc.Replace? && next.history == s.history + [Some(s.processes[p].pc.next)])
  }

  lemma StepWritesNext(or: Oracle, s: Store, p: ProcessId, a: Action)
    ensures WritesNext(s, Step(or, s, p, a), p)
  {
  }

  lemma StepKeepsLoads(or: Oracle, s: Store, p: ProcessId, a: Action)
    requires Safe(or, s) && AllLoad(or, s)
    ensures AllLoad(or, Step(or, s, p, a))
  {
    GenerationsNeverChange(or, s, p, a);
    StepMakesVisible(or, s, p, a);
    StepWritesNext(or, s, p, a);
    if p in s.processes { assert Knows(or, s, s.processes[p]); }
  }

  // ---------- the call's own steps ----------

  lemma SeenLoads(or: Oracle, s: Store, since: nat, ptr: Pointer)
    requires AllLoad(or, s) && Seen(s, since, Some(ptr))
    ensures Loadable(or, s.entries, ptr.generation)
  {
  }

  lemma UnstagedSucceeds(or: Oracle, s: Store, p: ProcessId, bundle: ETags)
    requires Safe(or, s) && AllLoad(or, s) && p in s.processes && Unfailing(or, s, p, bundle)
    ensures Unfailing(or, AdvanceUnstaged(or, s, p), p, bundle)
  {
    var proc := s.processes[p];
    match proc.pc {
      case LoadPointed(ptr) => SeenLoads(or, s, proc.since, ptr);
      case CheckPublished(ptr) => SeenLoads(or, s, proc.since, ptr);
      case _ =>
    }
  }

  lemma LoadsSucceed(or: Oracle, s: Store, p: ProcessId, bundle: ETags)
    requires Safe(or, s) && AllLoad(or, s) && p in s.processes && Unfailing(or, s, p, bundle)
    requires s.processes[p].pc.LoadCandidate? || s.processes[p].pc.LoadPeer?
    ensures Unfailing(or, AdvanceStaged(or, s, p), p, bundle)
  {
    var proc := s.processes[p];
    if proc.pc.LoadPeer? {
      assert Written(s, proc.since, proc.pc.peer);
      SeenLoads(or, s, proc.since, proc.pc.peer);
    }
  }

  lemma CompareSucceeds(or: Oracle, s: Store, p: ProcessId, bundle: ETags)
    requires Safe(or, s) && p in s.processes && Unfailing(or, s, p, bundle) && s.processes[p].pc.Compare?
    ensures Unfailing(or, AdvanceStaged(or, s, p), p, bundle)
  {
    var proc := s.processes[p];
    if proc.pc.expected.Some? { OnceSeenAlwaysPresent(s, proc.since, proc.pc.expected); }
  }

  lemma PreparationSucceeds(or: Oracle, s: Store, p: ProcessId, bundle: ETags)
    requires Safe(or, s) && p in s.processes && Unfailing(or, s, p, bundle)
    requires s.processes[p].pc.ValidateStage? || s.processes[p].pc.Promote?
    ensures Unfailing(or, AdvanceStaged(or, s, p), p, bundle)
  {
    assert Knows(or, s, s.processes[p]);
  }

  lemma StagedSucceeds(or: Oracle, s: Store, p: ProcessId, bundle: ETags)
    requires Safe(or, s) && AllLoad(or, s) && p in s.processes && Unfailing(or, s, p, bundle)
    ensures p in AdvanceStaged(or, s, p).processes && Unfailing(or, AdvanceStaged(or, s, p), p, bundle)
  {
    match s.processes[p].pc {
      case ValidateStage(_, _, _) => PreparationSucceeds(or, s, p, bundle);
      case Promote(_, _, _) => PreparationSucceeds(or, s, p, bundle);
      case LoadCandidate(_, _, _) => LoadsSucceed(or, s, p, bundle);
      case LoadPeer(_, _, _) => LoadsSucceed(or, s, p, bundle);
      case Compare(_, _, _) => CompareSucceeds(or, s, p, bundle);
      case _ =>
    }
  }

  lemma OtherActionSucceeds(or: Oracle, s: Store, p: ProcessId, a: Action, bundle: ETags)
    requires Safe(or, s) && p in s.processes && Unfailing(or, s, p, bundle) && Kind(or, a, bundle) && !a.Advance?
    ensures p in Step(or, s, p, a).processes && Unfailing(or, Step(or, s, p, a), p, bundle)
  {
    var proc := s.processes[p];
    if a.SeeRemote? && proc.pc.ReadAgain? { OnceSeenAlwaysPresent(s, proc.since, Some(proc.pc.p)); }
  }

  lemma OwnStepSucceeds(or: Oracle, s: Store, p: ProcessId, a: Action, bundle: ETags)
    requires Safe(or, s) && AllLoad(or, s) && p in s.processes && Unfailing(or, s, p, bundle) && Kind(or, a, bundle)
    ensures p in Step(or, s, p, a).processes && Unfailing(or, Step(or, s, p, a), p, bundle)
  {
    if !a.Advance? {
      OtherActionSucceeds(or, s, p, a, bundle);
    } else if StageOf(s.processes[p].pc).Some? {
      StagedSucceeds(or, s, p, bundle);
    } else {
      UnstagedSucceeds(or, s, p, bundle);
    }
  }

  /** What this run's environment does for one process. */
  ghost predicate KindTo(or: Oracle, run: seq<Event>, p: ProcessId, bundle: ETags) {
    forall i | 0 <= i < |run| :: run[i].process == p ==> Kind(or, run[i].action, bundle)
  }

  ghost predicate Well(or: Oracle, s: Store, p: ProcessId, bundle: ETags) {
    Safe(or, s) && AllLoad(or, s) && (p in s.processes ==> Unfailing(or, s, p, bundle))
  }

  lemma BeginSucceeds(s: Store, or: Oracle, p: ProcessId, call: Call, q: ProcessId, bundle: ETags)
    requires q in s.processes ==> Unfailing(or, s, q, bundle)
    ensures q in Begun(s, p, call).processes ==> Unfailing(or, Begun(s, p, call), q, bundle)
  {
  }

  lemma FirstStep(or: Oracle, s: Store, q: ProcessId, a: Action, p: ProcessId)
    requires p !in s.processes && p in Step(or, s, q, a).processes
    ensures a.Begin?
  {
    if q in s.processes { StepOfOne(or, s, q, a); }
  }

  lemma StepSucceeds(or: Oracle, s: Store, q: ProcessId, a: Action, p: ProcessId, bundle: ETags)
    requires Well(or, s, p, bundle) && (q == p ==> Kind(or, a, bundle))
    ensures Well(or, Step(or, s, q, a), p, bundle)
  {
    StepKeeps(or, s, q, a);
    StepKeepsLoads(or, s, q, a);
    if a.Begin? {
      BeginSucceeds(s, or, q, a.call, p, bundle);
    } else if p !in s.processes {
      if p in Step(or, s, q, a).processes { FirstStep(or, s, q, a, p); }
    } else if q == p {
      OwnStepSucceeds(or, s, p, a, bundle);
    } else {
      OthersStay(or, s, q, a, p, bundle);
    }
  }

  lemma {:induction false} RunsSucceed(or: Oracle, s: Store, run: seq<Event>, p: ProcessId, bundle: ETags)
    requires Well(or, s, p, bundle) && KindTo(or, run, p, bundle)
    ensures Well(or, After(or, s, run), p, bundle)
    decreases |run|
  {
    if run != [] {
      var q, a := run[0].process, run[0].action;
      StepSucceeds(or, s, q, a, p, bundle);
      RunsSucceed(or, Step(or, s, q, a), run[1..], p, bundle);
    }
  }

  /** Whatever the other processes do, fail at or crash in, a call that meets no failure of its own never raises. */
  lemma {:induction false} NoCallFailsByItself(or: Oracle, s: Store, run: seq<Event>, p: ProcessId, bundle: ETags)
    requires Initial(s) && AllLoad(or, s) && KindTo(or, run, p, bundle)
    ensures var t := After(or, s, run); p in t.processes ==> !Failing(t.processes[p].pc)
  {
    RunsSucceed(or, s, run, p, bundle);
  }

  // ---------- every call can end ----------

  /** How many steps of its own the call has before it at most. */
  function Rank(pc: Pc): nat {
    match pc
    case ReadFirst => 13
    case CheckPublished(_) => 12
    case ReadAgain(_) => 11
    case Bootstrap => 11
    case MakeStage(_) => 10
    case Download(_, _) => 9
    case ValidateStage(_, _, _) => 8
    case Promote(_, _, _) => 7
    case LoadCandidate(_, _, _) => 6
    case AcquireLock(_, _, _) => 5
    case Compare(_, _, _) => 4
    case Replace(_, _, _) => 3
    case LoadPeer(_, _, _) => 3
    case Release(_, _, _) => 2
    case Discard(_, _) => 1
    case LoadPointed(_) => 1
    case _ => 0
  }

  /** What the call waits for. */
  function Awaited(pc: Pc, a: Replies): Action {
    match pc
    case ReadAgain(_) => SeeRemote(a.before)
    case Bootstrap => SeeRemote(a.before)
    case MakeStage(_) => NewStage(a.stage)
    case Download(_, _) => Fetched(a.model, a.thresholds, a.etags, a.after)
    case _ => Advance
  }

  /** The call gets what it waits for, so many times. */
  function LeftAlone(or: Oracle, s: Store, p: ProcessId, a: Replies, n: nat): Store
    decreases n
  {
    if n == 0 then s else LeftAlone(or, Awaiting(or, s, p, a), p, a, n - 1)
  }

  function Awaiting(or: Oracle, s: Store, p: ProcessId, a: Replies): Store {
    if p !in s.processes then s else Step(or, s, p, Awaited(s.processes[p].pc, a))
  }

  /** The lock is not another process's, and the stage's name is new for as long as the call needs one. */
  ghost predicate Unhindered(s: Store, p: ProcessId, a: Replies) {
    && p in s.processes && (s.lock.None? || s.lock == Some(p))
    && (Rank(s.processes[p].pc) >= 10 ==> a.stage !in s.used && Staging(a.stage) !in s.entries)
  }

  /** A step that did not fail left the call nearer to its end, and the lock free or its own. */
  ghost predicate Falls(s: Store, next: Store, p: ProcessId) {
    && p in s.processes && p in next.processes && (next.lock.None? || next.lock == Some(p))
    && (!Failing(next.processes[p].pc) ==> Rank(next.processes[p].pc) < Rank(s.processes[p].pc))
  }

  lemma LockedFalls(or: Oracle, s: Store, p: ProcessId)
    requires p in s.processes && s.lock == (if Holds(s.processes[p].pc) then Some(p) else None)
    requires s.processes[p].pc.AcquireLock? || Holds(s.processes[p].pc)
    ensures Falls(s, AdvanceStaged(or, s, p), p)
  {
  }

  lemma AdvanceFalls(or: Oracle, s: Store, p: ProcessId)
    requires p in s.processes && s.lock == (if Holds(s.processes[p].pc) then Some(p) else None)
    requires StageOf(s.processes[p].pc).Some? && !s.processes[p].pc.Download?
    ensures Falls(s, AdvanceStaged(or, s, p), p)
  {
    if s.processes[p].pc.AcquireLock? || Holds(s.processes[p].pc) { LockedFalls(or, s, p); }
  }

  lemma UnstagedFalls(or: Oracle, s: Store, p: ProcessId, a: Replies)
    requires LockHeld(s) && Unhindered(s, p, a) && !Ended(s.processes[p].pc)
    requires StageOf(s.processes[p].pc).None? || s.processes[p].pc.Download?
    requires var next := Step(or, s, p, Awaited(s.processes[p].pc, a)); p in next.processes && !Failing(next.processes[p].pc)
    ensures var next := Step(or, s, p, Awaited(s.processes[p].pc, a));
            Rank(next.processes[p].pc) < Rank(s.processes[p].pc) && Unhindered(next, p, a)
  {
  }

  predicate ReturnsIn(s: Store, p: ProcessId) {
    p in s.processes && s.processes[p].pc.Returned?
  }

  lemma MovesOn(or: Oracle, s: Store, p: ProcessId, a: Replies, bundle: ETags) returns (next: Store)
    requires Well(or, s, p, bundle) && Unhindered(s, p, a) && !Ended(s.processes[p].pc)
    requires a.before == bundle && Kind(or, Fetched(a.model, a.thresholds, a.etags, a.after), bundle)
    ensures Well(or, next, p, bundle) && Unhindered(next, p, a) && Rank(next.processes[p].pc) < Rank(s.processes[p].pc)
    ensures next == Awaiting(or, s, p, a)
  {
    hide AllLoad, Knows, Chained, Named, StagesApart;
    next := Awaiting(or, s, p, a);
    var pc := s.processes[p].pc;
    StepSucceeds(or, s, p, Awaited(pc, a), p, bundle);
    StepOfOne(or, s, p, Awaited(pc, a));
    if StageOf(pc).Some? && !pc.Download? { AdvanceFalls(or, s, p); } else { UnstagedFalls(or, s, p, a); }
  }

  lemma {:induction false} LeftAloneItReturns(or: Oracle, s: Store, p: ProcessId, a: Replies, bundle: ETags, n: nat)
    requires Well(or, s, p, bundle) && Unhindered(s, p, a) && n >= Rank(s.processes[p].pc)
    requires a.before == bundle && Kind(or, Fetched(a.model, a.thresholds, a.etags, a.after), bundle)
    ensures ReturnsIn(LeftAlone(or, s, p, a, n), p)
    decreases n
  {
    hide Safe, AllLoad, Step;
    if Ended(s.processes[p].pc) {
      AwaitingNothing(or, s, p, a, n);
    } else {
      var next := MovesOn(or, s, p, a, bundle);
      LeftAloneItReturns(or, next, p, a, bundle, n - 1);
    }
  }

  lemma {:induction false} AwaitingNothing(or: Oracle, s: Store, p: ProcessId, a: Replies, n: nat)
    requires p in s.processes && Ended(s.processes[p].pc)
    ensures LeftAlone(or, s, p, a, n) == s
    decreases n
  {
    if n > 0 { AwaitingNothing(or, s, p, a, n - 1); }
  }

  /**
   After any run, a call that has met no failure of its own can return within 13 steps: left alone with the lock free
   or its own, and with a remote that serves one bundle that loads.
   */
  lemma {:induction false} EveryCallCanReturn(
    or: Oracle, s: Store, run: seq<Event>, p: ProcessId, a: Replies, bundle: ETags)
    requires Initial(s) && AllLoad(or, s) && KindTo(or, run, p, bundle)
    requires Unhindered(After(or, s, run), p, a)
    requires a.before == bundle && Kind(or, Fetched(a.model, a.thresholds, a.etags, a.after), bundle)
    ensures ReturnsIn(LeftAlone(or, After(or, s, run), p, a, 13), p)
  {
    RunsSucceed(or, s, run, p, bundle);
    LeftAloneItReturns(or, After(or, s, run), p, a, bundle, 13);
  }
}
