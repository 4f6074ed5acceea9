/** What the generation store promises over every interleaving, failure and crash of its processes. */
module StoreTheorems {
  import opened Bytes
  import opened StoreProtocol
  import opened StoreSafety

  datatype Event = Event(process: ProcessId, action: Action)

  function After(or: Oracle, s: Store, run: seq<Event>): Store
    decreases |run|
  {
    if run == [] then s else After(or, Step(or, s, run[0].process, run[0].action), run[1..])
  }

  /** Any directory and pointer that the first process finds. */
  ghost predicate Initial(s: Store) {
    s.lock.None? && s.processes == map[] && s.history == [s.pointer] && s.commits == []
  }

  lemma {:induction false} RunsAreSafe(or: Oracle, s: Store, run: seq<Event>)
    requires Safe(or, s)
    ensures Safe(or, After(or, s, run))
    decreases |run|
  {
    if run != [] {
      StepKeeps(or, s, run[0].process, run[0].action);
      RunsAreSafe(or, Step(or, s, run[0].process, run[0].action), run[1..]);
    }
  }

  // ---------- generations and the pointer ----------

  /** Visible generations keep their name and contents in every run, whatever fails or crashes. */
  lemma {:induction false} GenerationsAreImmutable(or: Oracle, s: Store, run: seq<Event>)
    ensures KeepsGenerations(s.entries, After(or, s, run).entries)
    decreases |run|
  {
    if run != [] {
      GenerationsNeverChange(or, s, run[0].process, run[0].action);
      GenerationsAreImmutable(or, Step(or, s, run[0].process, run[0].action), run[1..]);
    }
  }

  /** Without commits the pointer is the one found at the start; after one it names an intact generation that loads. */
  lemma {:induction false} PointerIntegrity(or: Oracle, s: Store, run: seq<Event>)
    requires Initial(s)
    ensures var t := After(or, s, run);
            if t.commits == [] then t.pointer == s.pointer
            else t.pointer.Some? && Loadable(or, t.entries, t.pointer.value.generation)
    ensures var t := After(or, s, run);
            t.pointer.Some? && (s.pointer.Some? ==> Valid(or, s.entries, s.pointer.value.generation)) ==>
              Valid(or, t.entries, t.pointer.value.generation)
  {
    RunsAreSafe(or, s, run);
    GenerationsAreImmutable(or, s, run);
    StartStays(or, s, run);
    var t := After(or, s, run);
    if t.commits != [] {
      var last := |t.commits| - 1;
      assert t.history[last + 1] == Some(t.commits[last].next);
    }
  }

  lemma {:induction false} StartStays(or: Oracle, s: Store, run: seq<Event>)
    requires s.history != []
    ensures After(or, s, run).history != [] && After(or, s, run).history[0] == s.history[0]
    decreases |run|
  {
    if run != [] { StartStays(or, Step(or, s, run[0].process, run[0].action), run[1..]); }
  }

  /** Every commit replaced exactly the generation and ETags that its process expected to replace. */
  lemma {:induction false} CommitsReplaceWhatTheyExpected(or: Oracle, s: Store, run: seq<Event>, i: nat)
    requires Initial(s) && i < |After(or, s, run).commits|
    ensures var t := After(or, s, run);
            |t.history| == |t.commits| + 1 && t.history[|t.commits|] == t.pointer
            && t.history[i] == t.commits[i].expected && t.history[i + 1] == Some(t.commits[i].next)
  {
    RunsAreSafe(or, s, run);
  }

  /** The pointer is only ever written by a process that holds the lock and finds the value it expected. */
  lemma PointerChangesUnderTheLock(or: Oracle, s: Store, p: ProcessId, a: Action)
    requires Safe(or, s)
    ensures Step(or, s, p, a).pointer != s.pointer ==>
              s.lock == Some(p) && p in s.processes && s.processes[p].pc.Replace? && s.processes[p].pc.expected == s.pointer
  {
  }

  lemma OnlyStagesDisappear(or: Oracle, s: Store, p: ProcessId, a: Action, n: Name)
    requires n in s.entries && n !in Step(or, s, p, a).entries
    ensures n.Staging? && p in s.processes && StageOf(s.processes[p].pc) == Some(n.stage)
  {
  }

  // ---------- results ----------

  /** The instant at which a normal return is true of the pointer. */
  ghost predicate TrueAt(v: Option<Pointer>, call: Call, r: Outcome) {
    match r
    case Loaded(p) => call.Load? && v == Some(p)
    case Updated(p) => call.Refresh? && v == Some(p)
    case Current => call.Refresh? && v.Some? && call.published == Some(v.value.generation)
  }

  /** Linearizability: every normal return was true of the pointer at some instant inside its call. */
  lemma {:induction false} ResultsMatchThePointer(or: Oracle, s: Store, run: seq<Event>, p: ProcessId)
    returns (i: nat)
    requires Initial(s)
    requires var t := After(or, s, run); p in t.processes && t.processes[p].pc.Returned?
    ensures var t := After(or, s, run); var proc := t.processes[p];
            proc.since - 1 <= i < |t.history| && TrueAt(t.history[i], proc.call, proc.pc.result)
            && Intact(or, t.entries, proc.pc.result)
    ensures var t := After(or, s, run); var proc := t.processes[p];
            proc.pc.result.Current? && i < proc.since ==>
              proc.remote.Some? && proc.remote.value.Complete() && t.history[i].value.remote == proc.remote.value
  {
    RunsAreSafe(or, s, run);
    var t := After(or, s, run);
    var proc := t.processes[p];
    match proc.pc.result {
      case Loaded(ptr) => i :| proc.since - 1 <= i < |t.history| && 0 <= i && t.history[i] == Some(ptr);
      case Updated(ptr) => i :| proc.since - 1 <= i < |t.history| && 0 <= i && t.history[i] == Some(ptr);
      case Current => i := CurrentIsTrue(t, proc);
    }
  }

  lemma CurrentIsTrue(t: Store, proc: Process) returns (i: nat)
    requires Matches(t, proc, Current)
    ensures proc.since - 1 <= i < |t.history| && TrueAt(t.history[i], proc.call, Current)
    ensures i < proc.since ==>
              proc.remote.Some? && proc.remote.value.Complete() && t.history[i].value.remote == proc.remote.value
  {
    var g := proc.call.published.value;
    if Unchanged(t, proc) {
      i :| proc.since - 1 <= i < |t.history| && 0 <= i && t.history[i] == Some(Pointer(g, proc.remote.value));
    } else {
      var remote :| Written(t, proc.since, Pointer(g, remote));
      i :| proc.since <= i < |t.history| && t.history[i] == Some(Pointer(g, remote));
    }
  }

  // ---------- the pointer never disappears ----------

  lemma OnceSeenAlwaysPresent(s: Store, since: nat, v: Option<Pointer>)
    requires Chained(s) && Seen(s, since, v) && v.Some?
    ensures s.pointer.Some?
  {
    var i :| since - 1 <= i < |s.history| && 0 <= i && s.history[i] == v;
    if i < |s.commits| { assert s.history[|s.commits| - 1 + 1] == Some(s.commits[|s.commits| - 1].next); }
  }

  /** Neither error for a pointer that disappeared can be raised: the second read and the compare find one. */
  lemma {:induction false} PointerNeverDisappears(or: Oracle, s: Store, run: seq<Event>, p: ProcessId)
    requires Initial(s) && p in After(or, s, run).processes
    ensures var t := After(or, s, run); var pc := t.processes[p].pc;
            && (pc.ReadAgain? ==> t.pointer.Some?)
            && (pc.Compare? && t.pointer.None? ==> pc.expected == t.pointer)
  {
    RunsAreSafe(or, s, run);
    var t := After(or, s, run);
    var proc := t.processes[p];
    match proc.pc {
      case ReadAgain(ptr) => OnceSeenAlwaysPresent(t, proc.since, Some(ptr));
      case Compare(e, _, _) => if e.Some? { OnceSeenAlwaysPresent(t, proc.since, e); }
      case _ =>
    }
  }

  /** At most one process is between taking the lock and releasing it. */
  lemma {:induction false} LockExcludes(or: Oracle, s: Store, run: seq<Event>, p: ProcessId, q: ProcessId)
    requires Initial(s)
    ensures var t := After(or, s, run);
            p in t.processes && q in t.processes && Holds(t.processes[p].pc) && Holds(t.processes[q].pc) ==> p == q
  {
    RunsAreSafe(or, s, run);
  }
}
