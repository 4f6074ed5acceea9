/** What a store call answers: exactly what its own reads of the pointer say, and of an undisturbed call everything. */
module StoreResults {
  import opened Bytes
  import opened StoreProtocol
  import opened StoreSafety
  import opened StoreTheorems

  // ---------- what a call must have looked at ----------

  /** A refresh that finds the generation its caller already uses. */
  predicate FindsPublished(call: Call, look: Option<Pointer>) {
    call.Refresh? && look.Some? && call.published == Some(look.value.generation)
  }

  predicate SameETags(a: ETags, b: ETags) {
    a.Complete() && b.Complete() && a == b
  }

  /** The call may download: it found no pointer, or twice the published generation with other ETags. */
  predicate MayDownload(proc: Process, looks: seq<Option<Pointer>>, expected: Option<Pointer>) {
    && proc.remote.Some?
    && if expected.None? then looks == [None]
       else looks == [expected, expected] && FindsPublished(proc.call, expected)
            && !SameETags(expected.value.remote, proc.remote.value)
  }

  /** The call has looked often enough, and has written exactly when its last look found what it expected to replace. */
  predicate HasLooked(proc: Process) {
    && proc.looks != []
    && if proc.looks[0].None? then proc.remote.Some? && |proc.looks| == 2 && (proc.committed.Some? <==> proc.looks[1].None?)
       else if !FindsPublished(proc.call, proc.looks[0]) then |proc.looks| == 1 && proc.committed.None?
       else
         && proc.remote.Some? && |proc.looks| >= 2 && proc.looks[1].Some?
         && if proc.looks[1] != proc.looks[0] || SameETags(proc.looks[0].value.remote, proc.remote.value)
            then |proc.looks| == 2 && proc.committed.None?
            else |proc.looks| == 3 && proc.looks[2].Some? && (proc.committed.Some? <==> proc.looks[2] == proc.looks[0])
  }

  /** What the pointer file holds as far as the call knows: what it wrote, or else what it read last. */
  function Known(proc: Process): Pointer
    requires HasLooked(proc)
  {
    if proc.committed.Some? then proc.committed.value else proc.looks[|proc.looks| - 1].value
  }

  function Answer(proc: Process): Outcome
    requires HasLooked(proc)
  {
    if proc.call.Load? then Loaded(Known(proc))
    else if proc.looks[0].Some? && FindsPublished(proc.call, Some(Known(proc))) then Current
    else Updated(Known(proc))
  }

  predicate Answers(proc: Process, r: Outcome) {
    HasLooked(proc) && r == Answer(proc)
  }

  /** The pointer that a call is about to write carries ETags that the lookup before the download does not contradict. */
  predicate Undisputed(proc: Process, next: ETags) {
    proc.remote.Some? && SameBundle(proc.remote.value, next, ETags(None, None))
  }

  /** Where the call stands, said by its own reads alone. */
  predicate OnCourse(proc: Process) {
    && (proc.committed.Some? ==> Undisputed(proc, proc.committed.value.remote))
    && (proc.pc.Release? || proc.pc.Discard? || proc.pc.Returned? || proc.pc.Raised? || proc.pc.Crashed?
        || proc.committed.None?)
    && match proc.pc
       case ReadFirst => proc.looks == []
       case Bootstrap => proc.looks == [None]
       case LoadPointed(ptr) => Answers(proc, Adopt(proc.call, ptr))
       case CheckPublished(ptr) => proc.looks == [Some(ptr)] && FindsPublished(proc.call, Some(ptr))
       case ReadAgain(ptr) => proc.looks == [Some(ptr)] && FindsPublished(proc.call, Some(ptr))
       case MakeStage(e) => MayDownload(proc, proc.looks, e)
       case Download(e, _) => MayDownload(proc, proc.looks, e)
       case ValidateStage(e, _, remote) => MayDownload(proc, proc.looks, e) && Undisputed(proc, remote)
       case Promote(e, _, next) => MayDownload(proc, proc.looks, e) && Undisputed(proc, next.remote)
       case LoadCandidate(e, _, next) => MayDownload(proc, proc.looks, e) && Undisputed(proc, next.remote)
       case AcquireLock(e, _, next) => MayDownload(proc, proc.looks, e) && Undisputed(proc, next.remote)
       case Compare(e, _, next) => MayDownload(proc, proc.looks, e) && Undisputed(proc, next.remote)
       case Replace(e, _, next) => ReadLast(proc, e, e) && Undisputed(proc, next.remote)
       case Release(e, _, next) => ReadLast(proc, e, e) && proc.committed == Some(next)
       case LoadPeer(e, _, peer) => ReadLast(proc, e, Some(peer)) && e != Some(peer)
       case Discard(_, outcome) => outcome.Some? ==> Answers(proc, outcome.value)
       case Returned(r) => Answers(proc, r)
       case _ => true
  }

  /** The read under the lock, behind those that led to the download. */
  predicate ReadLast(proc: Process, expected: Option<Pointer>, found: Option<Pointer>) {
    && proc.looks != [] && proc.looks[|proc.looks| - 1] == found
    && MayDownload(proc, proc.looks[..|proc.looks| - 1], expected)
  }

  /** The next state of the call is on course; no other call's state changes. */
  ghost predicate Follows(s: Store, next: Store, p: ProcessId) {
    p in next.processes && next.processes == s.processes[p := next.processes[p]] && OnCourse(next.processes[p])
  }

  lemma FirstReadFollows(or: Oracle, s: Store, p: ProcessId)
    requires p in s.processes && s.processes[p].pc.ReadFirst? && OnCourse(s.processes[p])
    ensures Follows(s, AdvanceUnstaged(or, s, p), p)
  {
  }

  lemma UnstagedFollows(or: Oracle, s: Store, p: ProcessId)
    requires p in s.processes && OnCourse(s.processes[p])
    ensures Follows(s, AdvanceUnstaged(or, s, p), p)
  {
    if s.processes[p].pc.ReadFirst? { FirstReadFollows(or, s, p); }
  }

  lemma SecondReadFollows(s: Store, p: ProcessId, remote: ETags)
    requires p in s.processes && s.processes[p].pc.ReadAgain? && OnCourse(s.processes[p])
    ensures Follows(s, SecondRead(s, p, remote), p)
  {
  }

  lemma FailureFollows(s: Store, p: ProcessId)
    requires p in s.processes && OnCourse(s.processes[p])
    ensures Follows(s, Failed(s, p), p)
  {
  }

  lemma CompareFollows(or: Oracle, s: Store, p: ProcessId)
    requires p in s.processes && s.processes[p].pc.Compare? && OnCourse(s.processes[p])
    ensures Follows(s, AdvanceStaged(or, s, p), p)
  {
    var proc := s.processes[p];
    assert (proc.looks + [s.pointer])[..|proc.looks|] == proc.looks;
    if AdvanceStaged(or, s, p) == Failed(s, p) { FailureFollows(s, p); }
  }

  lemma ReplaceFollows(or: Oracle, s: Store, p: ProcessId)
    requires p in s.processes && s.processes[p].pc.Replace? && OnCourse(s.processes[p])
    ensures Follows(s, AdvanceStaged(or, s, p), p)
  {
  }

  lemma AnswerOfLast(proc: Process, expected: Option<Pointer>, found: Option<Pointer>, ptr: Pointer)
    requires ReadLast(proc, expected, found)
    requires if proc.committed.Some? then found == expected && proc.committed.value == ptr
             else found == Some(ptr) && found != expected
    ensures Answers(proc, OutcomeOf(proc.call, expected, ptr))
  {
    var before := proc.looks[..|proc.looks| - 1];
    assert proc.looks == before + [found];
  }

  lemma ReleaseFollows(or: Oracle, s: Store, p: ProcessId)
    requires p in s.processes && s.processes[p].pc.Release? && OnCourse(s.processes[p])
    ensures Follows(s, AdvanceStaged(or, s, p), p)
  {
    var proc := s.processes[p];
    AnswerOfLast(proc, proc.pc.expected, proc.pc.expected, proc.pc.next);
  }

  lemma LoadPeerFollows(or: Oracle, s: Store, p: ProcessId)
    requires p in s.processes && s.processes[p].pc.LoadPeer? && OnCourse(s.processes[p])
    ensures Follows(s, AdvanceStaged(or, s, p), p)
  {
    var proc := s.processes[p];
    if AdvanceStaged(or, s, p) == Failed(s, p) {
      FailureFollows(s, p);
    } else {
      AnswerOfLast(proc, proc.pc.expected, Some(proc.pc.peer), proc.pc.peer);
    }
  }

  lemma PreparationFollows(or: Oracle, s: Store, p: ProcessId)
    requires p in s.processes && (s.processes[p].pc.ValidateStage? || s.processes[p].pc.Promote?)
    requires OnCourse(s.processes[p])
    ensures Follows(s, AdvanceStaged(or, s, p), p)
  {
    if AdvanceStaged(or, s, p) == Failed(s, p) { FailureFollows(s, p); }
  }

  lemma CandidateFollows(or: Oracle, s: Store, p: ProcessId)
    requires p in s.processes && (s.processes[p].pc.LoadCandidate? || s.processes[p].pc.AcquireLock?)
    requires OnCourse(s.processes[p])
    ensures Follows(s, AdvanceStaged(or, s, p), p)
  {
    if AdvanceStaged(or, s, p) == Failed(s, p) { FailureFollows(s, p); }
  }

  lemma StagedFollows(or: Oracle, s: Store, p: ProcessId)
    requires p in s.processes && OnCourse(s.processes[p])
    ensures Follows(s, AdvanceStaged(or, s, p), p)
  {
    match s.processes[p].pc {
      case Compare(_, _, _) => CompareFollows(or, s, p);
      case Replace(_, _, _) => ReplaceFollows(or, s, p);
      case Release(_, _, _) => ReleaseFollows(or, s, p);
      case LoadPeer(_, _, _) => LoadPeerFollows(or, s, p);
      case ValidateStage(_, _, _) => PreparationFollows(or, s, p);
      case Promote(_, _, _) => PreparationFollows(or, s, p);
      case LoadCandidate(_, _, _) => CandidateFollows(or, s, p);
      case AcquireLock(_, _, _) => CandidateFollows(or, s, p);
      case _ =>
    }
  }

  lemma OtherActionFollows(or: Oracle, s: Store, p: ProcessId, a: Action)
    requires p in s.processes && OnCourse(s.processes[p]) && !a.Advance? && !a.Begin?
    requires a.SeeRemote? ==> !s.processes[p].pc.ReadAgain?
    ensures Follows(s, Acted(or, s, p, a), p)
  {
    if Acted(or, s, p, a) == Failed(s, p) { FailureFollows(s, p); }
  }

  lemma StepFollows(or: Oracle, s: Store, p: ProcessId, a: Action)
    requires p in s.processes && OnCourse(s.processes[p])
    ensures Follows(s, Step(or, s, p, a), p)
  {
    var pc := s.processes[p].pc;
    match a {
      case Begin(_) =>
      case Advance => if StageOf(pc).Some? { StagedFollows(or, s, p); } else { UnstagedFollows(or, s, p); }
      case SeeRemote(remote) =>
        if pc.ReadAgain? { SecondReadFollows(s, p, remote); } else { OtherActionFollows(or, s, p, a); }
      case _ => OtherActionFollows(or, s, p, a);
    }
  }

  // ---------- whole runs ----------

  /** Every value that the call read was in place at some instant inside the call. */
  ghost predicate Genuine(s: Store, proc: Process) {
    forall v <- proc.looks :: Seen(s, proc.since, v)
  }

  ghost predicate AllFollowed(s: Store) {
    forall p <- s.processes :: OnCourse(s.processes[p]) && Genuine(s, s.processes[p])
  }

  lemma GenuineStays(s: Store, next: Store, proc: Process)
    requires HistoryGrows(s, next) && Genuine(s, proc)
    ensures Genuine(next, proc)
  {
    forall v <- proc.looks ensures Seen(next, proc.since, v) {
      SeenStays(s, next, proc.since, v);
    }
  }

  /** A step adds to the looks of its own call at most the present pointer. */
  ghost predicate LooksOnce(s: Store, next: Store, p: ProcessId) {
    && p in s.processes && p in next.processes && HistoryGrows(s, next)
    && next.processes[p].since == s.processes[p].since
    && (next.processes[p].looks == s.processes[p].looks || next.processes[p].looks == s.processes[p].looks + [s.pointer])
  }

  lemma StagedLooksOnce(or: Oracle, s: Store, p: ProcessId)
    requires p in s.processes
    ensures LooksOnce(s, AdvanceStaged(or, s, p), p)
  {
  }

  lemma OneLook(or: Oracle, s: Store, p: ProcessId, a: Action)
    requires p in s.processes && !a.Begin?
    ensures LooksOnce(s, Step(or, s, p, a), p)
  {
    if a.Advance? && StageOf(s.processes[p].pc).Some? { StagedLooksOnce(or, s, p); }
  }

  lemma StepKeepsFollowed(or: Oracle, s: Store, p: ProcessId, a: Action)
    requires Safe(or, s) && AllFollowed(s)
    ensures AllFollowed(Step(or, s, p, a))
  {
    var next := Step(or, s, p, a);
    if !a.Begin? && p in s.processes {
      StepFollows(or, s, p, a);
      OneLook(or, s, p, a);
      SeesNow(s, s.processes[p].since);
      forall q <- next.processes ensures OnCourse(next.processes[q]) && Genuine(next, next.processes[q]) {
        GenuineStays(s, next, s.processes[q]);
        if q == p { SeenStays(s, next, s.processes[p].since, s.pointer); }
      }
    }
  }

  lemma {:induction false} RunsAreFollowed(or: Oracle, s: Store, run: seq<Event>)
    requires Safe(or, s) && AllFollowed(s)
    ensures AllFollowed(After(or, s, run))
    decreases |run|
  {
    if run != [] {
      StepKeeps(or, s, run[0].process, run[0].action);
      StepKeepsFollowed(or, s, run[0].process, run[0].action);
      RunsAreFollowed(or, Step(or, s, run[0].process, run[0].action), run[1..]);
    }
  }

  /**
   A call that returned looked exactly as often as it had to, wrote exactly when its last look allowed it, and answers
   what it wrote or read last. Each look found the pointer of an instant inside the call.
   */
  lemma {:induction false} ResultsFollowTheLooks(or: Oracle, s: Store, run: seq<Event>, p: ProcessId)
    requires Initial(s)
    requires var t := After(or, s, run); p in t.processes && t.processes[p].pc.Returned?
    ensures var t := After(or, s, run); var proc := t.processes[p];
            HasLooked(proc) && proc.pc.result == Answer(proc) && Genuine(t, proc)
  {
    RunsAreFollowed(or, s, run);
  }

  /** No refresh answers for the published generation without the remote's metadata, unless it first found no pointer. */
  lemma {:induction false} RefreshLooksAtTheRemote(or: Oracle, s: Store, run: seq<Event>, p: ProcessId)
    requires Initial(s)
    requires var t := After(or, s, run); p in t.processes && t.processes[p].pc.Returned? && t.processes[p].call.Refresh?
    ensures var proc := After(or, s, run).processes[p];
            && proc.looks != []
            && (FindsPublished(proc.call, proc.looks[0]) ==> proc.remote.Some?)
            && (proc.pc.result.Updated? && FindsPublished(proc.call, Some(proc.pc.result.p)) ==> proc.looks[0].None?)
  {
    ResultsFollowTheLooks(or, s, run, p);
  }

  /** What is written as a generation's ETags never disagrees with the metadata that the call saw before downloading. */
  lemma {:induction false} StoredETagsAgree(or: Oracle, s: Store, run: seq<Event>, p: ProcessId)
    requires Initial(s)
    requires var t := After(or, s, run); p in t.processes && t.processes[p].committed.Some?
    ensures var proc := After(or, s, run).processes[p];
            proc.remote.Some? && SameBundle(proc.remote.value, proc.committed.value.remote, ETags(None, None))
  {
    RunsAreFollowed(or, s, run);
  }

  // ---------- a call that nobody disturbs ----------

  function Advances(or: Oracle, s: Store, p: ProcessId, n: nat): Store
    decreases n
  {
    if n == 0 then s else Advances(or, Step(or, s, p, Advance), p, n - 1)
  }

  /** What the environment answers a call: two metadata lookups, a name for the stage, two bodies and their ETags. */
  datatype Replies = Replies(before: ETags, stage: StageId, model: Text, thresholds: Text, etags: ETags, after: ETags) {
    function Id(or: Oracle): GenerationId { or.id(or.sha(model), or.sha(thresholds)) }

    function Next(or: Oracle): Pointer { Pointer(Id(or), etags) }

    /** The finished stage. */
    function Finished(or: Oracle): Dir { Dir(Some(model), Some(thresholds), Some(Manifested(or, model, thresholds))) }
  }

  /** The reads and the lookup of a call, with nothing in between. */
  function Looking(or: Oracle, s: Store, p: ProcessId, call: Call, a: Replies): Store {
    Step(or, Advances(or, Step(or, s, p, Begin(call)), p, 2), p, SeeRemote(a.before))
  }

  function Downloaded(or: Oracle, s: Store, p: ProcessId, a: Replies): Store {
    Step(or, Step(or, s, p, NewStage(a.stage)), p, Fetched(a.model, a.thresholds, a.etags, a.after))
  }

  /** All the steps of a call, with nothing in between. */
  function Alone(or: Oracle, s: Store, p: ProcessId, call: Call, a: Replies): Store {
    Advances(or, Downloaded(or, Looking(or, s, p, call, a), p, a), p, 8)
  }

  /** No call holds the lock, this process has none in progress, and the stage's name is new. */
  predicate Undisturbed(s: Store, p: ProcessId, a: Replies) {
    && s.lock.None? && (p in s.processes ==> Ended(s.processes[p].pc))
    && a.stage !in s.used && Staging(a.stage) !in s.entries
  }

  lemma {:induction false} EndedStays(or: Oracle, s: Store, p: ProcessId, n: nat)
    requires p in s.processes && Ended(s.processes[p].pc)
    ensures Advances(or, s, p, n) == s
    decreases n
  {
    if n > 0 { EndedStays(or, s, p, n - 1); }
  }

  /** An outcome that is known, or an error, is what the call ends with once its stage is gone. */
  lemma DiscardsAlone(or: Oracle, s: Store, p: ProcessId, n: nat)
    requires p in s.processes && s.processes[p].pc.Discard? && n > 0
    ensures var pc := s.processes[p].pc;
            Advances(or, s, p, n) == Discarded(s, p, pc.stage, pc.outcome)
  {
    EndedStays(or, Step(or, s, p, Advance), p, n - 1);
  }

  lemma Unfold(or: Oracle, s: Store, p: ProcessId, n: nat)
    requires n > 0
    ensures Advances(or, s, p, n) == Advances(or, Step(or, s, p, Advance), p, n - 1)
  {
  }

  /** The pointer is written, the lock given up, and the call answers with what it wrote. */
  lemma WritesAlone(or: Oracle, s: Store, p: ProcessId, n: nat)
    requires p in s.processes && s.processes[p].pc.Replace? && n >= 3
    ensures var pc, t := s.processes[p].pc, Advances(or, s, p, n);
            && p in t.processes && t.pointer == Some(pc.next) && t.lock.None? && t.entries == s.entries - {Staging(pc.stage)}
            && t.processes[p].pc == Returned(OutcomeOf(s.processes[p].call, pc.expected, pc.next))
  {
    var replaced := Step(or, s, p, Advance);
    var released := Step(or, replaced, p, Advance);
    assert released.processes[p].pc.Discard?;
    Unfold(or, s, p, n);
    Unfold(or, replaced, p, n - 1);
    DiscardsAlone(or, released, p, n - 2);
  }

  /** With the lock free and the pointer as expected, the call writes and answers. */
  lemma CommitsAlone(or: Oracle, s: Store, p: ProcessId, n: nat)
    requires p in s.processes && s.processes[p].pc.AcquireLock? && n >= 5
    requires s.lock.None? && s.pointer == s.processes[p].pc.expected
    ensures var pc, t := s.processes[p].pc, Advances(or, s, p, n);
            && p in t.processes && t.pointer == Some(pc.next) && t.lock.None? && t.entries == s.entries - {Staging(pc.stage)}
            && t.processes[p].pc == Returned(OutcomeOf(s.processes[p].call, pc.expected, pc.next))
  {
    var locked := Step(or, s, p, Advance);
    var compared := Step(or, locked, p, Advance);
    assert compared.processes[p].pc == Pc.Replace(s.pointer, s.processes[p].pc.stage, s.processes[p].pc.next);
    Unfold(or, s, p, n);
    Unfold(or, locked, p, n - 1);
    WritesAlone(or, compared, p, n - 2);
  }

  /** The pair that the call downloaded can be published: it loads, and a directory of its id is that of its content. */
  predicate Publishable(or: Oracle, entries: map<Name, Dir>, a: Replies) {
    or.loads(a.model, a.thresholds) && (Generation(a.Id(or)) in entries ==> Loadable(or, entries, a.Id(or)))
  }

  /** The call ended without publishing anything. */
  predicate Abandons(s: Store, t: Store, p: ProcessId) {
    && p in t.processes && t.processes[p].pc.Raised? && t.pointer == s.pointer && t.lock.None?
  }

  lemma FailsAlone(or: Oracle, s: Store, p: ProcessId, n: nat)
    requires p in s.processes && StageOf(s.processes[p].pc).Some? && !s.processes[p].pc.Discard? && n >= 1
    requires !Holds(s.processes[p].pc) && s.lock.None?
    ensures var k := StageOf(s.processes[p].pc).value;
            var t := Advances(or, Failed(s, p), p, n);
            Abandons(s, t, p) && t.entries == s.entries - {Staging(k)}
  {
    DiscardsAlone(or, Failed(s, p), p, n);
  }

  lemma PromotesOnce(or: Oracle, s: Store, p: ProcessId)
    requires p in s.processes && s.processes[p].pc.Promote? && Staging(s.processes[p].pc.stage) in s.entries
    ensures var pc, t := s.processes[p].pc, Step(or, s, p, Advance);
            && p in t.processes && t.processes[p] == s.processes[p].(pc := LoadCandidate(pc.expected, pc.stage, pc.next))
            && t == s.(processes := t.processes, entries := Promoted(s, p, pc.expected, pc.stage, pc.next).entries)
  {
  }

  lemma LoadsOnce(or: Oracle, s: Store, p: ProcessId)
    requires p in s.processes && s.processes[p].pc.LoadCandidate?
    ensures var pc, t := s.processes[p].pc, Step(or, s, p, Advance);
            if Loadable(or, s.entries, pc.next.generation)
            then t == s.(processes := s.processes[p := s.processes[p].(pc := AcquireLock(pc.expected, pc.stage, pc.next))])
            else t == Failed(s, p)
  {
  }

  /** A candidate that loads is committed, any other is given up. */
  lemma CandidateAlone(or: Oracle, s: Store, p: ProcessId, n: nat)
    requires p in s.processes && s.processes[p].pc.LoadCandidate? && n >= 6
    requires s.lock.None? && s.pointer == s.processes[p].pc.expected
    ensures var pc, t := s.processes[p].pc, Advances(or, s, p, n);
            && p in t.processes && t.lock.None? && t.entries == s.entries - {Staging(pc.stage)}
            && if Loadable(or, s.entries, pc.next.generation)
               then t.pointer == Some(pc.next)
                    && t.processes[p].pc == Returned(OutcomeOf(s.processes[p].call, pc.expected, pc.next))
               else Abandons(s, t, p)
  {
    Unfold(or, s, p, n);
    LoadsOnce(or, s, p);
    if Loadable(or, s.entries, s.processes[p].pc.next.generation) {
      CommitsAlone(or, Step(or, s, p, Advance), p, n - 1);
    } else {
      FailsAlone(or, s, p, n - 1);
    }
  }

  /** A stage becomes the generation of its content and the pointer's target, or its call fails. */
  lemma PromotesAlone(or: Oracle, s: Store, p: ProcessId, n: nat)
    requires p in s.processes && s.processes[p].pc.Promote? && n >= 7
    requires s.lock.None? && s.pointer == s.processes[p].pc.expected && Staging(s.processes[p].pc.stage) in s.entries
    ensures var pc, t := s.processes[p].pc, Advances(or, s, p, n);
            var entries := Promoted(s, p, pc.expected, pc.stage, pc.next).entries;
            && p in t.processes && t.lock.None? && t.entries == entries - {Staging(pc.stage)}
            && if Loadable(or, entries, pc.next.generation)
               then t.pointer == Some(pc.next)
                    && t.processes[p].pc == Returned(OutcomeOf(s.processes[p].call, pc.expected, pc.next))
               else Abandons(s, t, p)
  {
    Unfold(or, s, p, n);
    PromotesOnce(or, s, p);
    CandidateAlone(or, Step(or, s, p, Advance), p, n - 1);
  }

  /** The call must download: there is no pointer, or it names the published, intact generation with other ETags. */
  predicate MustDownload(or: Oracle, s: Store, call: Call, a: Replies) {
    s.pointer.Some? ==>
      && FindsPublished(call, s.pointer) && Valid(or, s.entries, s.pointer.value.generation)
      && !SameETags(s.pointer.value.remote, a.before)
  }

  /** The first read, and the load or the check behind it. */
  lemma ReadsAlone(or: Oracle, s: Store, p: ProcessId, call: Call)
    requires s.lock.None? && (p in s.processes ==> Ended(s.processes[p].pc))
    ensures var t := Advances(or, Step(or, s, p, Begin(call)), p, 2);
            && p in t.processes && t.processes[p].call == call && t == s.(processes := t.processes)
            && t.processes[p].pc ==
               (if s.pointer.None? then Bootstrap
                else
                  var ptr := s.pointer.value;
                  if FindsPublished(call, s.pointer)
                  then if Valid(or, s.entries, ptr.generation) then ReadAgain(ptr) else Raised
                  else if Loadable(or, s.entries, ptr.generation) then Returned(Adopt(call, ptr)) else Raised)
  {
    var begun := Step(or, s, p, Begin(call));
    var read := Step(or, begun, p, Advance);
    Unfold(or, begun, p, 2);
    Unfold(or, read, p, 1);
    assert Advances(or, begun, p, 2) == Step(or, read, p, Advance);
  }

  lemma DecidesAlone(or: Oracle, s: Store, p: ProcessId, call: Call, a: Replies)
    requires Undisturbed(s, p, a)
    ensures var t := Looking(or, s, p, call, a);
            && p in t.processes && t.processes[p].call == call && t == s.(processes := t.processes)
            && if MustDownload(or, s, call, a)
               then t.processes[p].pc == MakeStage(s.pointer) && t.processes[p].remote == Some(a.before)
               else t.processes[p].pc == Decision(or, s, call)
  {
    ReadsAlone(or, s, p, call);
  }

  /** The end of a call that does not download. */
  function Decision(or: Oracle, s: Store, call: Call): Pc
    requires s.pointer.Some?
  {
    var ptr := s.pointer.value;
    if FindsPublished(call, s.pointer) then if Valid(or, s.entries, ptr.generation) then Returned(Current) else Raised
    else if Loadable(or, s.entries, ptr.generation) then Returned(Adopt(call, ptr)) else Raised
  }

  lemma DownloadsAlone(or: Oracle, s: Store, p: ProcessId, a: Replies)
    requires p in s.processes && s.processes[p].pc.MakeStage? && s.processes[p].remote == Some(a.before)
    requires a.stage !in s.used && Staging(a.stage) !in s.entries
    ensures var t := Downloaded(or, s, p, a);
            && p in t.processes && t.processes[p].call == s.processes[p].call && t.pointer == s.pointer && t.lock == s.lock
            && if SameBundle(a.before, a.etags, a.after)
               then t.processes[p].pc == Pc.ValidateStage(s.processes[p].pc.expected, a.stage, a.etags)
                    && t.entries == s.entries[Staging(a.stage) := Dir(Some(a.model), Some(a.thresholds), None)]
               else t.processes[p].pc == Discard(a.stage, None)
                    && t.entries == s.entries[Staging(a.stage) := Dir(None, None, None)]
  {
  }

  lemma ValidatesOnce(or: Oracle, s: Store, p: ProcessId, a: Replies)
    requires p in s.processes && s.processes[p].pc.ValidateStage? && s.processes[p].pc.remote == a.etags
    requires s.processes[p].pc.stage == a.stage && Staging(a.stage) in s.entries
    requires s.entries[Staging(a.stage)] == Dir(Some(a.model), Some(a.thresholds), None)
    ensures var t := Step(or, s, p, Advance);
            if or.loads(a.model, a.thresholds)
            then t == To(s, p, Promote(s.processes[p].pc.expected, a.stage, a.Next(or))).(
                      entries := s.entries[Staging(a.stage) := a.Finished(or)])
            else t == Failed(s, p)
  {
  }

  /** Promoting the validated stage makes the generation loadable, unless a directory of its name is not. */
  lemma PromotionPublishes(or: Oracle, s: Store, p: ProcessId, expected: Option<Pointer>, a: Replies)
    requires p in s.processes && or.loads(a.model, a.thresholds)
    requires Staging(a.stage) in s.entries && s.entries[Staging(a.stage)] == a.Finished(or)
    ensures var entries := Promoted(s, p, expected, a.stage, a.Next(or)).entries;
            (Loadable(or, entries, a.Id(or)) <==> Publishable(or, s.entries, a)) && KeepsGenerations(s.entries, entries)
  {
  }

  /** What a completed download leads to. */
  lemma InstallsAlone(or: Oracle, s: Store, p: ProcessId, a: Replies, n: nat)
    requires p in s.processes && s.processes[p].pc == Pc.ValidateStage(s.pointer, a.stage, a.etags)
    requires s.lock.None? && n >= 8
    requires Staging(a.stage) in s.entries && s.entries[Staging(a.stage)] == Dir(Some(a.model), Some(a.thresholds), None)
    ensures var t := Advances(or, s, p, n);
            && p in t.processes && t.lock.None? && Staging(a.stage) !in t.entries
            && KeepsGenerations(s.entries, t.entries)
            && if Publishable(or, s.entries, a)
               then t.pointer == Some(a.Next(or)) && Loadable(or, t.entries, a.Id(or))
                    && t.processes[p].pc == Returned(OutcomeOf(s.processes[p].call, s.pointer, a.Next(or)))
               else Abandons(s, t, p)
  {
    var validated := Step(or, s, p, Advance);
    Unfold(or, s, p, n);
    ValidatesOnce(or, s, p, a);
    if or.loads(a.model, a.thresholds) {
      PromotionPublishes(or, validated, p, s.pointer, a);
      PromotesAlone(or, validated, p, n - 1);
    } else {
      FailsAlone(or, s, p, n - 1);
    }
  }

  /** A download that nobody disturbs is published exactly when it is one bundle that can be published. */
  lemma DownloadEnds(or: Oracle, s: Store, p: ProcessId, a: Replies)
    requires p in s.processes && s.processes[p].pc == MakeStage(s.pointer) && s.processes[p].remote == Some(a.before)
    requires s.lock.None? && a.stage !in s.used && Staging(a.stage) !in s.entries
    ensures var t := Advances(or, Downloaded(or, s, p, a), p, 8);
            && p in t.processes && t.lock.None? && Staging(a.stage) !in t.entries && KeepsGenerations(s.entries, t.entries)
            && if SameBundle(a.before, a.etags, a.after) && Publishable(or, s.entries, a)
               then t.pointer == Some(a.Next(or)) && Loadable(or, t.entries, a.Id(or))
                    && t.processes[p].pc == Returned(OutcomeOf(s.processes[p].call, s.pointer, a.Next(or)))
               else Abandons(s, t, p)
  {
    DownloadsAlone(or, s, p, a);
    if SameBundle(a.before, a.etags, a.after) {
      InstallsAlone(or, Downloaded(or, s, p, a), p, a, 8);
    } else {
      DiscardsAlone(or, Downloaded(or, s, p, a), p, 8);
    }
  }

  /**
   A call that nobody disturbs ends, and how is decided by what it finds: a pointer to another generation is loaded,
   the published generation is current exactly with the same complete ETags, and everything else is a download, which
   becomes the generation of its content and the pointer's target exactly when it is one bundle that can be published.
   */
  lemma UndisturbedCallEnds(or: Oracle, s: Store, p: ProcessId, call: Call, a: Replies)
    requires Undisturbed(s, p, a)
    ensures var t := Alone(or, s, p, call, a);
            && p in t.processes && t.lock.None? && Staging(a.stage) !in t.entries && KeepsGenerations(s.entries, t.entries)
    ensures var t := Alone(or, s, p, call, a);
            if !MustDownload(or, s, call, a)
            then t.pointer == s.pointer && t.entries == s.entries && t.processes[p].pc == Decision(or, s, call)
            else if SameBundle(a.before, a.etags, a.after) && Publishable(or, s.entries, a)
            then t.pointer == Some(a.Next(or)) && Loadable(or, t.entries, a.Id(or))
                 && t.processes[p].pc == Returned(OutcomeOf(call, s.pointer, a.Next(or)))
            else Abandons(s, t, p)
  {
    var decided := Looking(or, s, p, call, a);
    DecidesAlone(or, s, p, call, a);
    if MustDownload(or, s, call, a) {
      DownloadEnds(or, decided, p, a);
    } else {
      assert Downloaded(or, decided, p, a) == decided;
      EndedStays(or, decided, p, 8);
    }
  }
}
