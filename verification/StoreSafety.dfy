/** Every step of every process keeps the store safe, and leaves every visible generation as it is. */
module StoreSafety {
  import opened Bytes
  import opened StoreProtocol

  /** A visible generation keeps its name and its contents. */
  ghost predicate KeepsGenerations(before: map<Name, Dir>, after: map<Name, Dir>) {
    forall g: GenerationId :: Generation(g) in before ==>
      Generation(g) in after && after[Generation(g)] == before[Generation(g)]
  }

  ghost predicate HistoryGrows(s: Store, next: Store) {
    |s.history| <= |next.history| && next.history[..|s.history|] == s.history
  }

  /** No step of any process, failing or not, changes or removes a directory that has a generation's name. */
  lemma GenerationsNeverChange(or: Oracle, s: Store, p: ProcessId, a: Action)
    ensures KeepsGenerations(s.entries, Step(or, s, p, a).entries)
  {
  }

  lemma SeenStays(s: Store, next: Store, since: nat, v: Option<Pointer>)
    requires HistoryGrows(s, next) && Seen(s, since, v)
    ensures Seen(next, since, v)
  {
    var i :| since - 1 <= i < |s.history| && 0 <= i && s.history[i] == v;
    assert next.history[i] == next.history[..|s.history|][i];
  }

  lemma WrittenStays(s: Store, next: Store, since: nat, v: Pointer)
    requires HistoryGrows(s, next) && Written(s, since, v)
    ensures Written(next, since, v)
  {
    var i :| since <= i < |s.history| && s.history[i] == Some(v);
    assert next.history[i] == next.history[..|s.history|][i];
  }

  /** A value in place now that is not one seen earlier in the call was written during the call. */
  lemma OtherWasWritten(s: Store, since: nat, earlier: Option<Pointer>)
    requires Chained(s) && since <= |s.history| && Seen(s, since, earlier) && s.pointer.Some? && s.pointer != earlier
    ensures Written(s, since, s.pointer.value)
  {
    var i :| since - 1 <= i < |s.history| && 0 <= i && s.history[i] == earlier;
    var last := |s.history| - 1;
    assert s.history[last] == s.pointer && i != last;
  }

  lemma MatchStays(s: Store, next: Store, proc: Process, r: Outcome)
    requires HistoryGrows(s, next) && Matches(s, proc, r)
    ensures Matches(next, proc, r)
  {
    match r {
      case Loaded(ptr) => SeenStays(s, next, proc.since, Some(ptr));
      case Updated(ptr) => SeenStays(s, next, proc.since, Some(ptr));
      case Current =>
        var g := proc.call.published.value;
        if Unchanged(s, proc) {
          SeenStays(s, next, proc.since, Some(Pointer(g, proc.remote.value)));
        } else {
          var remote :| Written(s, proc.since, Pointer(g, remote));
          WrittenStays(s, next, proc.since, Pointer(g, remote));
        }
    }
  }

  /** What another process knows survives a step that does not touch its stage or its locked pointer. */
  lemma KnowsStays(or: Oracle, s: Store, next: Store, proc: Process)
    requires Knows(or, s, proc) && HistoryGrows(s, next) && KeepsGenerations(s.entries, next.entries)
    requires proc.pc.Replace? ==> next.pointer == s.pointer
    requires proc.pc.Promote? ==>
               Staging(proc.pc.stage) in next.entries
               && next.entries[Staging(proc.pc.stage)] == s.entries[Staging(proc.pc.stage)]
    ensures Knows(or, next, proc)
  {
    match proc.pc {
      case Bootstrap => SeenStays(s, next, proc.since, None);
      case LoadPointed(ptr) => SeenStays(s, next, proc.since, Some(ptr));
      case CheckPublished(ptr) => SeenStays(s, next, proc.since, Some(ptr));
      case ReadAgain(ptr) => SeenStays(s, next, proc.since, Some(ptr));
      case MakeStage(e) => SeenStays(s, next, proc.since, e);
      case Download(e, _) => SeenStays(s, next, proc.since, e);
      case ValidateStage(e, _, _) => SeenStays(s, next, proc.since, e);
      case Promote(e, _, _) => SeenStays(s, next, proc.since, e);
      case LoadCandidate(e, _, _) => SeenStays(s, next, proc.since, e);
      case AcquireLock(e, _, _) => SeenStays(s, next, proc.since, e);
      case Compare(e, _, _) => SeenStays(s, next, proc.since, e);
      case Release(_, _, ptr) => WrittenStays(s, next, proc.since, ptr);
      case LoadPeer(_, _, ptr) => WrittenStays(s, next, proc.since, ptr);
      case Discard(_, r) => if r.Some? { MatchStays(s, next, proc, r.value); }
      case Returned(r) => MatchStays(s, next, proc, r);
      case _ =>
    }
  }

  /** Only process p moves; what the others rely on is untouched. */
  ghost predicate Isolated(s: Store, next: Store, p: ProcessId) {
    && p in next.processes && next.processes == s.processes[p := next.processes[p]]
    && HistoryGrows(s, next) && KeepsGenerations(s.entries, next.entries)
    && (forall q <- s.processes :: q != p && s.processes[q].pc.Replace? ==> next.pointer == s.pointer)
    && (forall q <- s.processes :: q != p && s.processes[q].pc.Promote? ==>
          var n := Staging(s.processes[q].pc.stage);
          n in s.entries ==> n in next.entries && next.entries[n] == s.entries[n])
  }

  lemma IsolatedStepKeeps(or: Oracle, s: Store, next: Store, p: ProcessId)
    requires Safe(or, s) && Isolated(s, next, p)
    requires Chained(next) && Named(or, next) && LockHeld(next) && StagesApart(next)
    requires next.processes[p].since <= |next.history| && Knows(or, next, next.processes[p])
    ensures Safe(or, next)
  {
    forall q <- next.processes ensures next.processes[q].since <= |next.history| && Knows(or, next, next.processes[q]) {
      if q != p { KnowsStays(or, s, next, s.processes[q]); }
    }
  }

  function LockAfter(s: Store, p: ProcessId, pc: Pc): Option<ProcessId>
    requires p in s.processes
  {
    if Holds(pc) then Some(p) else if Holds(s.processes[p].pc) then None else s.lock
  }

  /** The same call, further on. */
  predicate Continues(before: Process, after: Process) {
    after.call == before.call && after.since == before.since
  }

  function Move(s: Store, p: ProcessId, proc: Process): Store
    requires p in s.processes
  {
    s.(processes := s.processes[p := proc], lock := LockAfter(s, p, proc.pc))
  }

  lemma MoveOrders(s: Store, p: ProcessId, proc: Process)
    requires StagesApart(s) && LockHeld(s) && p in s.processes
    requires StageOf(proc.pc).None? || StageOf(proc.pc) == StageOf(s.processes[p].pc)
    requires Holds(proc.pc) && !Holds(s.processes[p].pc) ==> s.lock.None?
    ensures StagesApart(Move(s, p, proc)) && LockHeld(Move(s, p, proc)) && Isolated(s, Move(s, p, proc), p)
  {
  }

  /** The call moves on, keeping or giving up its stage, with the lock as its new position says. */
  lemma MoveKeeps(or: Oracle, s: Store, p: ProcessId, proc: Process)
    requires Safe(or, s) && p in s.processes && Continues(s.processes[p], proc)
    requires StageOf(proc.pc).None? || StageOf(proc.pc) == StageOf(s.processes[p].pc)
    requires Holds(proc.pc) && !Holds(s.processes[p].pc) ==> s.lock.None?
    requires Knows(or, s, proc)
    ensures Safe(or, Move(s, p, proc))
  {
    MoveOrders(s, p, proc);
    KnowsStays(or, s, Move(s, p, proc), proc);
    IsolatedStepKeeps(or, s, Move(s, p, proc), p);
  }

  lemma FailedKeeps(or: Oracle, s: Store, p: ProcessId)
    requires Safe(or, s) && p in s.processes
    ensures Safe(or, Failed(s, p))
  {
    var pc := s.processes[p].pc;
    if !Ended(pc) {
      var after := if StageOf(pc).Some? && !pc.Discard? then Discard(StageOf(pc).value, None) else Raised;
      MoveKeeps(or, s, p, s.processes[p].(pc := after));
    }
  }

  lemma BegunKeeps(or: Oracle, s: Store, p: ProcessId, call: Call)
    requires Safe(or, s)
    ensures Safe(or, Begun(s, p, call))
  {
    var next := Begun(s, p, call);
    if next != s { IsolatedStepKeeps(or, s, next, p); }
  }

  lemma SeesNow(s: Store, since: nat)
    requires Chained(s) && since <= |s.history|
    ensures Seen(s, since, s.pointer)
  {
    assert s.history[|s.history| - 1] == s.pointer;
  }

  lemma FirstReadKeeps(or: Oracle, s: Store, p: ProcessId)
    requires Safe(or, s) && p in s.processes && s.processes[p].pc.ReadFirst?
    ensures Safe(or, AdvanceUnstaged(or, s, p))
  {
    var next := AdvanceUnstaged(or, s, p);
    SeesNow(s, s.processes[p].since);
    if next != s { MoveKeeps(or, s, p, next.processes[p]); }
  }

  lemma ChecksKeep(or: Oracle, s: Store, p: ProcessId)
    requires Safe(or, s) && p in s.processes
    requires s.processes[p].pc.LoadPointed? || s.processes[p].pc.CheckPublished?
    ensures Safe(or, AdvanceUnstaged(or, s, p))
  {
    var next := AdvanceUnstaged(or, s, p);
    if next == Failed(s, p) { FailedKeeps(or, s, p); } else { MoveKeeps(or, s, p, next.processes[p]); }
  }

  lemma UnstagedKeeps(or: Oracle, s: Store, p: ProcessId)
    requires Safe(or, s) && p in s.processes
    ensures Safe(or, AdvanceUnstaged(or, s, p))
  {
    match s.processes[p].pc {
      case ReadFirst => FirstReadKeeps(or, s, p);
      case LoadPointed(_) => ChecksKeep(or, s, p);
      case CheckPublished(_) => ChecksKeep(or, s, p);
      case _ =>
    }
  }

  lemma DecisionIsKnown(or: Oracle, s: Store, p: ProcessId, remote: ETags)
    requires Safe(or, s) && p in s.processes && s.processes[p].pc.ReadAgain? && s.pointer.Some?
    ensures s.lock.None? ==> Knows(or, s, SecondRead(s, p, remote).processes[p])
  {
    var proc := s.processes[p];
    SeesNow(s, proc.since);
    if s.pointer.value != proc.pc.p {
      OtherWasWritten(s, proc.since, Some(proc.pc.p));
      assert s.pointer.value == Pointer(s.pointer.value.generation, s.pointer.value.remote);
    } else if Decided(s, p, remote).Returned? {
      assert s.pointer.value == Pointer(proc.call.published.value, remote);
    }
  }

  lemma SecondReadKeeps(or: Oracle, s: Store, p: ProcessId, remote: ETags)
    requires Safe(or, s) && p in s.processes && s.processes[p].pc.ReadAgain?
    ensures Safe(or, SecondRead(s, p, remote))
  {
    var next := SecondRead(s, p, remote);
    if next == Failed(s, p) {
      FailedKeeps(or, s, p);
    } else if next != s {
      DecisionIsKnown(or, s, p, remote);
      MoveKeeps(or, s, p, next.processes[p]);
    }
  }

  lemma ValidatedKeeps(or: Oracle, s: Store, p: ProcessId, expected: Option<Pointer>, k: StageId, remote: ETags)
    requires Safe(or, s) && p in s.processes && s.processes[p].pc == Pc.ValidateStage(expected, k, remote)
    ensures Safe(or, Validated(or, s, p, expected, k, remote))
  {
    var next := Validated(or, s, p, expected, k, remote);
    if next == Failed(s, p) {
      FailedKeeps(or, s, p);
    } else {
      KnowsStays(or, s, next, s.processes[p]);
      IsolatedStepKeeps(or, s, next, p);
    }
  }

  lemma PromotedIsolated(s: Store, p: ProcessId, expected: Option<Pointer>, k: StageId, ptr: Pointer)
    requires StagesApart(s) && p in s.processes && s.processes[p].pc == Pc.Promote(expected, k, ptr)
    requires Staging(k) in s.entries
    ensures Isolated(s, Promoted(s, p, expected, k, ptr), p)
  {
  }

  lemma PromotedOrders(s: Store, p: ProcessId, expected: Option<Pointer>, k: StageId, ptr: Pointer)
    requires StagesApart(s) && LockHeld(s) && p in s.processes && s.processes[p].pc == Pc.Promote(expected, k, ptr)
    requires Staging(k) in s.entries
    ensures StagesApart(Promoted(s, p, expected, k, ptr)) && LockHeld(Promoted(s, p, expected, k, ptr))
  {
  }

  lemma PromotedKeeps(or: Oracle, s: Store, p: ProcessId, expected: Option<Pointer>, k: StageId, ptr: Pointer)
    requires Safe(or, s) && p in s.processes && s.processes[p].pc == Pc.Promote(expected, k, ptr)
    ensures Safe(or, Promoted(s, p, expected, k, ptr))
  {
    var next := Promoted(s, p, expected, k, ptr);
    PromotedIsolated(s, p, expected, k, ptr);
    PromotedOrders(s, p, expected, k, ptr);
    SeenStays(s, next, s.processes[p].since, expected);
    NamedStays(or, s, next);
    IsolatedStepKeeps(or, s, next, p);
  }

  lemma NamedStays(or: Oracle, s: Store, next: Store)
    requires Named(or, s) && next.history == s.history && KeepsGenerations(s.entries, next.entries)
    ensures Named(or, next)
  {
  }

  lemma ReplacedRecords(or: Oracle, s: Store, p: ProcessId, expected: Option<Pointer>, k: StageId, ptr: Pointer)
    requires Chained(s) && Named(or, s) && p in s.processes && s.pointer == expected
    requires Loadable(or, s.entries, ptr.generation)
    ensures Chained(Replaced(s, p, expected, k, ptr)) && Named(or, Replaced(s, p, expected, k, ptr))
    ensures HistoryGrows(s, Replaced(s, p, expected, k, ptr))
  {
  }

  lemma ReplacedKeeps(or: Oracle, s: Store, p: ProcessId, expected: Option<Pointer>, k: StageId, ptr: Pointer)
    requires Safe(or, s) && p in s.processes && s.processes[p].pc == Pc.Replace(expected, k, ptr)
    ensures Safe(or, Replaced(s, p, expected, k, ptr))
  {
    var next := Replaced(s, p, expected, k, ptr);
    ReplacedRecords(or, s, p, expected, k, ptr);
    SeesNow(next, s.processes[p].since);
    assert Isolated(s, next, p);
    IsolatedStepKeeps(or, s, next, p);
  }

  lemma StageWriteKeeps(or: Oracle, s: Store, p: ProcessId, k: StageId, pc: Pc, content: Dir)
    requires Safe(or, s) && p in s.processes && Knows(or, s, s.processes[p].(pc := pc))
    requires StageOf(pc) == Some(k) && (StageOf(s.processes[p].pc) == Some(k) || k !in s.used)
    requires !Holds(pc) && !Holds(s.processes[p].pc) && !pc.Promote?
    ensures Safe(or, To(s, p, pc).(used := s.used + {k}, entries := s.entries[Staging(k) := content]))
  {
    var next := To(s, p, pc).(used := s.used + {k}, entries := s.entries[Staging(k) := content]);
    KnowsStays(or, s, next, s.processes[p].(pc := pc));
    IsolatedStepKeeps(or, s, next, p);
  }

  lemma NewStageKeeps(or: Oracle, s: Store, p: ProcessId, k: StageId)
    requires Safe(or, s) && p in s.processes
    ensures Safe(or, Acted(or, s, p, NewStage(k)))
  {
    var pc := s.processes[p].pc;
    if pc.MakeStage? && k !in s.used {
      StageWriteKeeps(or, s, p, k, Download(pc.expected, k), Dir(None, None, None));
    }
  }

  lemma CrashKeeps(or: Oracle, s: Store, p: ProcessId)
    requires Safe(or, s) && p in s.processes
    ensures Safe(or, Acted(or, s, p, Crash))
  {
    if !Ended(s.processes[p].pc) { MoveKeeps(or, s, p, s.processes[p].(pc := Crashed)); }
  }

  lemma WriteKeeps(or: Oracle, s: Store, p: ProcessId, content: Dir)
    requires Safe(or, s) && p in s.processes
    ensures Safe(or, Acted(or, s, p, Write(content)))
  {
    var pc := s.processes[p].pc;
    if pc.Download? {
      StageWriteKeeps(or, s, p, pc.stage, pc, content);
      assert s.used + {pc.stage} == s.used;
      assert To(s, p, pc).processes == s.processes;
    }
  }

  lemma FetchedKeeps(or: Oracle, s: Store, p: ProcessId, m: Text, t: Text, remote: ETags, after: ETags)
    requires Safe(or, s) && p in s.processes
    ensures Safe(or, Acted(or, s, p, Fetched(m, t, remote, after)))
  {
    var next, pc := Acted(or, s, p, Fetched(m, t, remote, after)), s.processes[p].pc;
    if next == Failed(s, p) {
      FailedKeeps(or, s, p);
    } else if pc.Download? {
      assert s.used + {pc.stage} == s.used;
      StageWriteKeeps(or, s, p, pc.stage, ValidateStage(pc.expected, pc.stage, remote), Dir(Some(m), Some(t), None));
    }
  }

  lemma DiscardIsolated(s: Store, p: ProcessId, k: StageId, outcome: Option<Outcome>)
    requires StagesApart(s) && p in s.processes && s.processes[p].pc == Pc.Discard(k, outcome)
    ensures Isolated(s, Discarded(s, p, k, outcome), p)
  {
  }

  lemma DiscardOrders(s: Store, p: ProcessId, k: StageId, outcome: Option<Outcome>)
    requires StagesApart(s) && LockHeld(s) && p in s.processes && s.processes[p].pc == Pc.Discard(k, outcome)
    ensures StagesApart(Discarded(s, p, k, outcome)) && LockHeld(Discarded(s, p, k, outcome))
  {
  }

  lemma DiscardKeeps(or: Oracle, s: Store, p: ProcessId, k: StageId, outcome: Option<Outcome>)
    requires Safe(or, s) && p in s.processes && s.processes[p].pc == Pc.Discard(k, outcome)
    ensures Safe(or, Discarded(s, p, k, outcome))
  {
    var next := Discarded(s, p, k, outcome);
    DiscardIsolated(s, p, k, outcome);
    DiscardOrders(s, p, k, outcome);
    if outcome.Some? { MatchStays(s, next, s.processes[p], outcome.value); }
    NamedStays(or, s, next);
    IsolatedStepKeeps(or, s, next, p);
  }

  lemma LoadsKeep(or: Oracle, s: Store, p: ProcessId)
    requires Safe(or, s) && p in s.processes
    requires s.processes[p].pc.LoadCandidate? || s.processes[p].pc.LoadPeer?
    ensures Safe(or, AdvanceStaged(or, s, p))
  {
    var next := AdvanceStaged(or, s, p);
    if next == Failed(s, p) { FailedKeeps(or, s, p); } else { MoveKeeps(or, s, p, next.processes[p]); }
  }

  lemma CompareKeeps(or: Oracle, s: Store, p: ProcessId)
    requires Safe(or, s) && p in s.processes && s.processes[p].pc.Compare?
    ensures Safe(or, AdvanceStaged(or, s, p))
  {
    var next := AdvanceStaged(or, s, p);
    if s.pointer.Some? && s.pointer != s.processes[p].pc.expected {
      OtherWasWritten(s, s.processes[p].since, s.processes[p].pc.expected);
    }
    if next == Failed(s, p) { FailedKeeps(or, s, p); } else { MoveKeeps(or, s, p, next.processes[p]); }
  }

  lemma LockMovesKeep(or: Oracle, s: Store, p: ProcessId)
    requires Safe(or, s) && p in s.processes
    requires s.processes[p].pc.AcquireLock? || s.processes[p].pc.Release?
    ensures Safe(or, AdvanceStaged(or, s, p))
  {
    var next := AdvanceStaged(or, s, p);
    if next != s { MoveKeeps(or, s, p, next.processes[p]); }
  }

  lemma StagedKeeps(or: Oracle, s: Store, p: ProcessId)
    requires Safe(or, s) && p in s.processes
    ensures Safe(or, AdvanceStaged(or, s, p))
  {
    match s.processes[p].pc {
      case ValidateStage(expected, k, remote) => ValidatedKeeps(or, s, p, expected, k, remote);
      case Promote(expected, k, next) => PromotedKeeps(or, s, p, expected, k, next);
      case Replace(expected, k, next) => ReplacedKeeps(or, s, p, expected, k, next);
      case Discard(k, outcome) => DiscardKeeps(or, s, p, k, outcome);
      case LoadCandidate(_, _, _) => LoadsKeep(or, s, p);
      case LoadPeer(_, _, _) => LoadsKeep(or, s, p);
      case AcquireLock(_, _, _) => LockMovesKeep(or, s, p);
      case Release(_, _, _) => LockMovesKeep(or, s, p);
      case Compare(_, _, _) => CompareKeeps(or, s, p);
      case _ =>
    }
  }

  lemma SeeRemoteKeeps(or: Oracle, s: Store, p: ProcessId, remote: ETags)
    requires Safe(or, s) && p in s.processes
    ensures Safe(or, Acted(or, s, p, SeeRemote(remote)))
  {
    var next, pc := Acted(or, s, p, SeeRemote(remote)), s.processes[p].pc;
    if pc.ReadAgain? {
      SecondReadKeeps(or, s, p, remote);
    } else if pc.Bootstrap? {
      MoveKeeps(or, s, p, next.processes[p]);
    }
  }

  lemma ActedKeeps(or: Oracle, s: Store, p: ProcessId, a: Action)
    requires Safe(or, s) && p in s.processes
    ensures Safe(or, Acted(or, s, p, a))
  {
    var pc := s.processes[p].pc;
    match a {
      case Begin(_) =>
      case Advance => if StageOf(pc).Some? { StagedKeeps(or, s, p); } else { UnstagedKeeps(or, s, p); }
      case SeeRemote(remote) => SeeRemoteKeeps(or, s, p, remote);
      case NewStage(k) => NewStageKeeps(or, s, p, k);
      case Write(content) => WriteKeeps(or, s, p, content);
      case Fetched(m, t, remote, after) => FetchedKeeps(or, s, p, m, t, remote, after);
      case Fail => FailedKeeps(or, s, p);
      case Crash => CrashKeeps(or, s, p);
    }
  }

  lemma StepKeeps(or: Oracle, s: Store, p: ProcessId, a: Action)
    requires Safe(or, s)
    ensures Safe(or, Step(or, s, p, a))
  {
    if a.Begin? {
      BegunKeeps(or, s, p, a.call);
    } else if p in s.processes {
      ActedKeeps(or, s, p, a);
    }
  }
}
