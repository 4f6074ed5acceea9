/** When a step of the runner ends in which result: every one of them exactly on the answers that say so. */
module RunnerResults {
  import opened Bytes
  import opened RunnerScript

  // ---------- what the answers decide, result by result ----------

  /** The two calls that precede every action, from this one on, let the runner go on. */
  predicate FreeToAct(sc: Script, call: nat) {
    At(sc.responses, call).ponychart == Gives(NotPresent) && !At(sc.responses, call + 1).paused
  }

  /** The calls that precede the probe: a pause check and the clock open the window, a transition looks at it again. */
  function CallsBeforeProbe(s: Situation): nat {
    (if s.expires.None? then 3 else 0) + (if s.transition then 1 else 0)
  }

  /** An open window keeps its expiry; a new one lasts the whole timeout. */
  function Expiry(sc: Script, s: Situation): int {
    if s.expires.Some? then s.expires.value else At(sc.responses, s.asked + 2).clock + sc.timeout
  }

  /** A probe that starts at this call is answered before the expiry. */
  predicate ProbedInTime(sc: Script, call: nat, expires: int) {
    Before(sc, call, expires) && At(sc.responses, call + 1).phase.Gives? && Before(sc, call + 2, expires)
  }

  /** The page is looked at, and answers, inside the window. */
  predicate PageReadInTime(sc: Script, s: Situation) {
    var probe := s.asked + CallsBeforeProbe(s);
    && (s.expires.None? ==> FreeToAct(sc, s.asked))
    && (s.transition ==> Before(sc, probe - 1, Expiry(sc, s)))
    && ProbedInTime(sc, probe, Expiry(sc, s))
  }

  /** What the page read in time shows. */
  function PageRead(sc: Script, s: Situation): Phase
    requires PageReadInTime(sc, s)
  {
    At(sc.responses, s.asked + CallsBeforeProbe(s) + 1).phase.value
  }

  /** The first call behind the probe. */
  function Behind(s: Situation): nat { s.asked + CallsBeforeProbe(s) + 3 }

  /** The situation in which a page that was read in time is acted on. */
  function OnPage(sc: Script, s: Situation): Situation {
    s.(asked := Behind(s), expires := Some(Expiry(sc, s)))
  }

  lemma OpensExactlyWhen(sc: Script, s: Situation)
    ensures Windowed(sc, s).flow.Continues? <==> (s.expires.None? ==> FreeToAct(sc, s.asked))
    ensures Windowed(sc, s).flow.Continues? ==>
              Windowed(sc, s).after ==
              s.(asked := s.asked + if s.expires.None? then 3 else 0, expires := Some(Expiry(sc, s)))
  {
  }

  lemma ReadExactlyWhen(sc: Script, s: Situation)
    requires s.expires.Some?
    ensures Prepared(sc, s).0.flow.Continues? <==> PageReadInTime(sc, s)
    ensures PageReadInTime(sc, s) ==> Prepared(sc, s) == (Outcome(Continues, OnPage(sc, s)), PageRead(sc, s))
  {
  }

  lemma PreparedExactlyWhen(sc: Script, s: Situation)
    ensures Preparing(sc, s).0.flow.Continues? <==> PageReadInTime(sc, s)
    ensures PageReadInTime(sc, s) ==> Preparing(sc, s) == (Outcome(Continues, OnPage(sc, s)), PageRead(sc, s))
  {
    hide Windowed, Prepared;
    OpensExactlyWhen(sc, s);
    if Windowed(sc, s).flow.Continues? { ReadExactlyWhen(sc, Windowed(sc, s).after); }
  }

  /** The page shows this phase in time, and no challenge is in the way. */
  predicate Ready(sc: Script, s: Situation, phase: Phase) {
    PageReadInTime(sc, s) && PageRead(sc, s) == phase && At(sc.responses, Behind(s)).ponychart == Gives(NotPresent)
  }

  /** Neither the page nor the strategy is needed for a pause or for the PonyChart service. */
  predicate NeedsNoPage(r: Result) {
    r == Idle(Paused) || r == Progress(PonychartResolved) || r == Progress(PonychartExpired)
  }

  lemma PreparingReturns(sc: Script, s: Situation)
    ensures Preparing(sc, s).0.flow.Returns? ==> NeedsNoPage(Preparing(sc, s).0.flow.result)
  {
  }

  /** The situation in which the phase is acted on. */
  function OnReady(sc: Script, s: Situation): Situation
    requires PageReadInTime(sc, s)
  {
    (if PageRead(sc, s).Absent? then OnPage(sc, s) else OnPage(sc, s).Shut().(transition := false)).Later(1)
  }

  /** What one pass does, once its page was read in time. */
  lemma PassingOnPage(sc: Script, s: Situation)
    requires s.isIsekai.Some?
    ensures PageReadInTime(sc, s) && PageRead(sc, s).NotReady? ==> Passing(sc, s) == Deferring(sc, OnPage(sc, s))
    ensures PageReadInTime(sc, s) && !PageRead(sc, s).NotReady? && Ready(sc, s, PageRead(sc, s)) ==>
              Passing(sc, s) == OnPhase(sc, OnReady(sc, s), PageRead(sc, s))
  {
    PreparedExactlyWhen(sc, s);
  }

  /** Without a page in time the preparation ends the pass; with a challenge in the way, its service does. */
  lemma PassingOffPage(sc: Script, s: Situation)
    requires s.isIsekai.Some?
    ensures !PageReadInTime(sc, s) ==> Passing(sc, s) == Preparing(sc, s).0 && !Passing(sc, s).flow.Continues?
    ensures PageReadInTime(sc, s) && !PageRead(sc, s).NotReady? && !Ready(sc, s, PageRead(sc, s)) ==>
              Passing(sc, s).flow == Service(sc, OnPage(sc, s)).flow && !Passing(sc, s).flow.Continues?
  {
    PreparedExactlyWhen(sc, s);
  }

  lemma ServiceReturns(sc: Script, s: Situation)
    ensures Service(sc, s).flow.Returns? ==> NeedsNoPage(Service(sc, s).flow.result)
  {
  }

  /** The results that a page in this phase can lead to, apart from a pause. */
  predicate Fitting(phase: Phase, r: Result) {
    match r
    case Progress(TurnActionConfirmed) => phase.Active?
    case Progress(NextFloorConfirmed) => phase.NextFloor?
    case Idle(Policy) => phase.Active?
    case Idle(StateNotReady) => phase.NotReady?
    case Idle(TransitionConfirmation) => phase.Absent?
    case Finished(_) => phase.Complete? || phase.Absent?
    case Stopped => phase.Active?
    case Idle(Paused) => !phase.Challenge? && !phase.NotReady?
    case _ => false
  }

  lemma PhaseFits(sc: Script, s: Situation, phase: Phase)
    requires s.isIsekai.Some? && !phase.NotReady? && (phase.Absent? ==> s.expires.Some?)
    ensures var flow := OnPhase(sc, s, phase).flow;
            (flow.Returns? ==> Fitting(phase, flow.result)) && (flow.Continues? <==> phase.Challenge?)
  {
  }

  /** A result that needs the page comes from a page read in time, in a phase that fits it, with no challenge in the way. */
  lemma ResultsFitThePage(sc: Script, s: Situation, r: Result)
    requires s.isIsekai.Some? && !NeedsNoPage(r)
    ensures Passing(sc, s).flow == Returns(r) <==>
              && PageReadInTime(sc, s) && Fitting(PageRead(sc, s), r)
              && if PageRead(sc, s).NotReady? then Deferring(sc, OnPage(sc, s)).flow == Returns(r)
                 else Ready(sc, s, PageRead(sc, s)) && OnPhase(sc, OnReady(sc, s), PageRead(sc, s)).flow == Returns(r)
  {
    PassingOnPage(sc, s);
    PassingOffPage(sc, s);
    PreparingReturns(sc, s);
    ServiceReturns(sc, OnPage(sc, s));
    if PageReadInTime(sc, s) && !PageRead(sc, s).NotReady? { PhaseFits(sc, OnReady(sc, s), PageRead(sc, s)); }
  }

  /** What the strategy's decision becomes. */
  function ResultOf(decision: Decision): Result {
    match decision
    case Acted => Progress(TurnActionConfirmed)
    case Idles => Idle(Policy)
    case Stops => Stopped
  }

  /** The strategy has started, or starts at this call. */
  predicate Starts(sc: Script, s: Situation, call: nat) {
    s.started || (s.startError.None? && At(sc.responses, call).initialized.Gives?)
  }

  /** The strategy has started and decides, on an active page read in time, with nothing paused. */
  predicate Decides(sc: Script, s: Situation, decision: Decision) {
    && Ready(sc, s, Active) && !At(sc.responses, Behind(s) + 1).paused && Starts(sc, s, Behind(s) + 2)
    && At(sc.responses, Behind(s) + if s.started then 2 else 3).decision == Gives(decision)
  }

  /** A battle is complete, and its acknowledgement is confirmed with nothing paused. */
  predicate Completes(sc: Script, s: Situation) {
    && Acknowledgement(sc.acknowledgements, s.acknowledged).Gives?
    && ((Ready(sc, s, Complete) && !At(sc.responses, Behind(s) + 1).paused)
        || (Ready(sc, s, Absent) && At(sc.responses, Behind(s) + 1).completionObserved
            && !At(sc.responses, Behind(s) + 2).paused))
  }

  lemma TurningExactlyWhen(sc: Script, s: Situation, decision: Decision)
    ensures Turning(sc, s).flow == Returns(ResultOf(decision)) <==>
            && !At(sc.responses, s.asked).paused && Starts(sc, s, s.asked + 1)
            && At(sc.responses, s.asked + if s.started then 1 else 2).decision == Gives(decision)
  {
  }

  lemma PhaseTurns(sc: Script, s: Situation, decision: Decision)
    requires s.isIsekai.Some?
    ensures OnPhase(sc, s, Active).flow == Returns(ResultOf(decision)) <==>
            && !At(sc.responses, s.asked).paused && Starts(sc, s, s.asked + 1)
            && At(sc.responses, s.asked + if s.started then 1 else 2).decision == Gives(decision)
  {
    TurningExactlyWhen(sc, s, decision);
  }

  lemma DecidesExactlyWhen(sc: Script, s: Situation, decision: Decision)
    requires s.isIsekai.Some?
    ensures Passing(sc, s).flow == Returns(ResultOf(decision)) <==> Decides(sc, s, decision)
  {
    hide Passing, OnPhase, Deferring, PageReadInTime;
    ResultsFitThePage(sc, s, ResultOf(decision));
    if PageReadInTime(sc, s) && PageRead(sc, s).Active? { PhaseTurns(sc, OnReady(sc, s), decision); }
  }

  /** The next floor is confirmed behind a page that shows its control, with nothing paused. */
  predicate Descends(sc: Script, s: Situation) {
    && Ready(sc, s, NextFloor) && !At(sc.responses, Behind(s) + 1).paused
    && At(sc.responses, Behind(s) + 2).nextFloor == Gives(true)
  }

  lemma FloorExactlyWhen(sc: Script, s: Situation)
    requires s.isIsekai.Some?
    ensures Passing(sc, s).flow == Returns(Progress(NextFloorConfirmed)) <==> Descends(sc, s)
  {
    hide Passing, Deferring, PageReadInTime;
    ResultsFitThePage(sc, s, Progress(NextFloorConfirmed));
  }

  /** The page is not ready, and the window lasts. */
  predicate Waits(sc: Script, s: Situation) {
    PageReadInTime(sc, s) && PageRead(sc, s).NotReady? && Before(sc, Behind(s), Expiry(sc, s))
  }

  lemma WaitsExactlyWhen(sc: Script, s: Situation)
    requires s.isIsekai.Some?
    ensures Passing(sc, s).flow == Returns(Idle(StateNotReady)) <==> Waits(sc, s)
  {
    ResultsFitThePage(sc, s, Idle(StateNotReady));
  }

  /** The page is gone, its completion was not seen, and the window lasts. */
  predicate AwaitsEvidence(sc: Script, s: Situation) {
    && Ready(sc, s, Absent) && !At(sc.responses, Behind(s) + 1).completionObserved
    && Before(sc, Behind(s) + 2, Expiry(sc, s))
  }

  lemma ConfirmingExactlyWhen(sc: Script, s: Situation)
    requires s.isIsekai.Some?
    ensures Passing(sc, s).flow == Returns(Idle(TransitionConfirmation)) <==> AwaitsEvidence(sc, s)
  {
    hide Passing, Deferring, PageReadInTime;
    ResultsFitThePage(sc, s, Idle(TransitionConfirmation));
  }

  lemma CompletesExactlyWhen(sc: Script, s: Situation, done: Completed)
    requires s.isIsekai.Some?
    ensures Passing(sc, s).flow == Returns(Finished(done)) <==> Completes(sc, s) && done == Completed(s.isIsekai.value)
  {
    hide Passing, OnPhase, Deferring, PageReadInTime;
    ResultsFitThePage(sc, s, Finished(done));
    if PageReadInTime(sc, s) && !PageRead(sc, s).NotReady? {
      PhaseCompletes(sc, OnReady(sc, s), PageRead(sc, s), done);
    }
  }

  lemma PhaseCompletes(sc: Script, s: Situation, phase: Phase, done: Completed)
    requires s.isIsekai.Some? && !phase.NotReady? && (phase.Absent? ==> s.expires.Some?)
    ensures OnPhase(sc, s, phase).flow == Returns(Finished(done)) <==>
            && Acknowledgement(sc.acknowledgements, s.acknowledged).Gives? && done == Completed(s.isIsekai.value)
            && if phase.Absent? then At(sc.responses, s.asked).completionObserved && !At(sc.responses, s.asked + 1).paused
               else phase.Complete? && !At(sc.responses, s.asked).paused
  {
  }

  /** The situation behind a challenge that was over when the runner looked at the page again. */
  function Again(s: Situation): Situation { s.Shut().(asked := Behind(s) + 1, transition := false) }

  lemma LooksAgainExactlyWhen(sc: Script, s: Situation)
    requires s.isIsekai.Some?
    ensures Passing(sc, s).flow.Continues? <==> Ready(sc, s, Challenge)
    ensures Ready(sc, s, Challenge) ==> Passing(sc, s).after == Again(s)
  {
    PassingOnPage(sc, s);
    PassingOffPage(sc, s);
    if PageReadInTime(sc, s) && !PageRead(sc, s).NotReady? { PhaseFits(sc, OnReady(sc, s), PageRead(sc, s)); }
  }

  /** The pause is seen before the window opens, or where the ready page would be acted on. */
  predicate Pauses(sc: Script, s: Situation) {
    || (s.expires.None? && At(sc.responses, s.asked).ponychart == Gives(NotPresent) && At(sc.responses, s.asked + 1).paused)
    || ((Ready(sc, s, Complete) || Ready(sc, s, NextFloor) || Ready(sc, s, Active))
        && At(sc.responses, Behind(s) + 1).paused)
    || (Ready(sc, s, Absent) && At(sc.responses, Behind(s) + 1).completionObserved && At(sc.responses, Behind(s) + 2).paused)
  }

  lemma PreparingPauses(sc: Script, s: Situation)
    ensures Preparing(sc, s).0.flow == Returns(Idle(Paused)) <==>
            && s.expires.None? && At(sc.responses, s.asked).ponychart == Gives(NotPresent)
            && At(sc.responses, s.asked + 1).paused
  {
  }

  lemma PhasePauses(sc: Script, s: Situation, phase: Phase)
    requires s.isIsekai.Some? && !phase.NotReady? && (phase.Absent? ==> s.expires.Some?)
    ensures OnPhase(sc, s, phase).flow == Returns(Idle(Paused)) <==>
            if phase.Absent? then At(sc.responses, s.asked).completionObserved && At(sc.responses, s.asked + 1).paused
            else !phase.Challenge? && At(sc.responses, s.asked).paused
  {
  }

  lemma PausesExactlyWhen(sc: Script, s: Situation)
    requires s.isIsekai.Some?
    ensures Passing(sc, s).flow == Returns(Idle(Paused)) <==> Pauses(sc, s)
  {
    hide Passing, OnPhase, Preparing;
    PreparingPauses(sc, s);
    PassingOnPage(sc, s);
    PassingOffPage(sc, s);
    if PageReadInTime(sc, s) && !PageRead(sc, s).NotReady? { PhasePauses(sc, OnReady(sc, s), PageRead(sc, s)); }
  }

  /** The PonyChart service has this outcome, before the window opens or behind a page that was read in time. */
  predicate Serves(sc: Script, s: Situation, outcome: Resolution) {
    || (s.expires.None? && At(sc.responses, s.asked).ponychart == Gives(outcome))
    || (PageReadInTime(sc, s) && !PageRead(sc, s).NotReady? && At(sc.responses, Behind(s)).ponychart == Gives(outcome))
  }

  lemma PreparingServes(sc: Script, s: Situation, outcome: Resolution)
    requires !outcome.NotPresent?
    ensures Preparing(sc, s).0.flow == Returns(Progress(Served(outcome))) <==>
            s.expires.None? && At(sc.responses, s.asked).ponychart == Gives(outcome)
  {
  }

  function Served(outcome: Resolution): ProgressKind
    requires !outcome.NotPresent?
  {
    if outcome.SubmissionConfirmed? then PonychartResolved else PonychartExpired
  }

  lemma ServesExactlyWhen(sc: Script, s: Situation, outcome: Resolution)
    requires s.isIsekai.Some? && !outcome.NotPresent?
    ensures Passing(sc, s).flow == Returns(Progress(Served(outcome))) <==> Serves(sc, s, outcome)
  {
    hide Passing, OnPhase, Preparing;
    PreparingServes(sc, s, outcome);
    PassingOnPage(sc, s);
    PassingOffPage(sc, s);
    if PageReadInTime(sc, s) && !PageRead(sc, s).NotReady? { PhaseFits(sc, OnReady(sc, s), PageRead(sc, s)); }
  }

  // ---------- which failing answer leads to which failure ----------

  /** A probe of the page that does not show it: too late to start, a failure, too late to count, or a timeout. */
  function ProbeFailure(sc: Script, s: Situation, call: nat, expires: int): Option<Failure> {
    var found := At(sc.responses, call + 1).phase;
    if !Before(sc, call, expires) then Some(Unready(s.observations))
    else if found.Fails? && !found.failure.TimedOut? then Some(found.failure)
    else if !Before(sc, call + 2, expires) then Some(ReadinessExhausted)
    else if found.Fails? then Some(TimedOut)
    else None
  }

  /** The window is open, and the page is not read in it; a transition then misses its evidence. */
  predicate Unread(sc: Script, s: Situation, f: Failure) {
    var probe, expires := s.asked + CallsBeforeProbe(s), Expiry(sc, s);
    && (s.expires.None? ==> FreeToAct(sc, s.asked))
    && if s.transition && !Before(sc, probe - 1, expires) then f == MISSING
       else
         var failure := ProbeFailure(sc, s, probe, expires);
         failure.Some? && f == if failure.value.ReadinessExhausted? && s.transition then MISSING else failure.value
  }

  /** The acknowledgement of a complete battle fails. */
  predicate Unacknowledged(sc: Script, s: Situation, f: Failure) {
    var answer := Acknowledgement(sc.acknowledgements, s.acknowledged);
    answer.Fails? && f == AcknowledgementFailure(answer.failure)
  }

  /** The strategy does not start, now or before. */
  predicate Unstarted(sc: Script, s: Situation, call: nat, f: Failure) {
    && !s.started
    && if s.startError.Some? then f == Interruption(s.startError.value)
       else
         var answer := At(sc.responses, call).initialized;
         answer.Fails? && f == if answer.failure.GenerationLost? then GenerationLost else Interruption(Code(answer.failure))
  }

  /** What the phase fails with when it is acted on from this call on. */
  predicate PhaseBlames(sc: Script, s: Situation, phase: Phase, f: Failure, call: nat, expires: int) {
    match phase
    case Complete => !At(sc.responses, call).paused && Unacknowledged(sc, s, f)
    case Absent =>
      if At(sc.responses, call).completionObserved then !At(sc.responses, call + 1).paused && Unacknowledged(sc, s, f)
      else !Before(sc, call + 1, expires) && f == MISSING
    case NextFloor =>
      && !At(sc.responses, call).paused
      && (At(sc.responses, call + 1).nextFloor == Fails(f)
          || (At(sc.responses, call + 1).nextFloor == Gives(false) && f == TimedOut))
    case Active =>
      && !At(sc.responses, call).paused
      && (Unstarted(sc, s, call + 1, f)
          || (Starts(sc, s, call + 1) && At(sc.responses, call + if s.started then 1 else 2).decision == Fails(f)))
    case _ => false
  }

  /** The answers that a failure of a pass comes from. */
  predicate Blames(sc: Script, s: Situation, f: Failure) {
    || (s.expires.None? && At(sc.responses, s.asked).ponychart == Fails(f))
    || Unread(sc, s, f)
    || (PageReadInTime(sc, s) && PageRead(sc, s).NotReady? && !Before(sc, Behind(s), Expiry(sc, s))
        && f == ReadinessExhausted)
    || (PageReadInTime(sc, s) && !PageRead(sc, s).NotReady? && At(sc.responses, Behind(s)).ponychart == Fails(f))
    || (PageReadInTime(sc, s) && !PageRead(sc, s).NotReady? && Ready(sc, s, PageRead(sc, s))
        && PhaseBlames(sc, s, PageRead(sc, s), f, Behind(s) + 1, Expiry(sc, s)))
  }

  lemma WindowThrows(sc: Script, s: Situation, f: Failure)
    ensures Windowed(sc, s).flow == Throws(f) <==> s.expires.None? && At(sc.responses, s.asked).ponychart == Fails(f)
  {
  }

  lemma PreparedThrows(sc: Script, s: Situation, f: Failure)
    requires s.expires.Some?
    ensures Prepared(sc, s).0.flow == Throws(f) <==> Unread(sc, s, f)
  {
  }

  lemma PreparingThrows(sc: Script, s: Situation, f: Failure)
    ensures Preparing(sc, s).0.flow == Throws(f) <==>
            (s.expires.None? && At(sc.responses, s.asked).ponychart == Fails(f)) || Unread(sc, s, f)
  {
    hide Windowed, Prepared;
    OpensExactlyWhen(sc, s);
    WindowThrows(sc, s, f);
    if Windowed(sc, s).flow.Continues? { PreparedThrows(sc, Windowed(sc, s).after, f); }
  }

  lemma TurningThrows(sc: Script, s: Situation, f: Failure)
    requires s.isIsekai.Some?
    ensures OnPhase(sc, s, Active).flow == Throws(f) <==> PhaseBlames(sc, s, Active, f, s.asked, 0)
  {
  }

  lemma PhaseThrows(sc: Script, s: Situation, phase: Phase, f: Failure)
    requires s.isIsekai.Some? && !phase.NotReady? && (phase.Absent? ==> s.expires.Some?)
    ensures OnPhase(sc, s, phase).flow == Throws(f) <==>
            PhaseBlames(sc, s, phase, f, s.asked, if s.expires.Some? then s.expires.value else 0)
  {
    if phase.Active? { TurningThrows(sc, s, f); }
  }

  lemma BlamesTheSame(sc: Script, s: Situation, on: Situation, phase: Phase, f: Failure, call: nat, expires: int, other: int)
    requires on.acknowledged == s.acknowledged && on.started == s.started && on.startError == s.startError
    requires phase.Absent? ==> expires == other
    ensures PhaseBlames(sc, on, phase, f, call, expires) <==> PhaseBlames(sc, s, phase, f, call, other)
  {
  }

  /** A pass fails exactly with the failure of the answers it comes from. */
  lemma ThrowsExactlyWhen(sc: Script, s: Situation, f: Failure)
    requires s.isIsekai.Some?
    ensures Passing(sc, s).flow == Throws(f) <==> Blames(sc, s, f)
  {
    hide Passing, OnPhase, Preparing, PhaseBlames, Unread, Deferring, Service;
    if PageReadInTime(sc, s) {
      DeferringThrows(sc, OnPage(sc, s), f);
      ServiceThrows(sc, OnPage(sc, s), f);
    }
    PreparingThrows(sc, s, f);
    PassingOnPage(sc, s);
    PassingOffPage(sc, s);
    NotUnread(sc, s, f);
    if PageReadInTime(sc, s) && !PageRead(sc, s).NotReady? {
      var on, phase := OnReady(sc, s), PageRead(sc, s);
      PhaseThrows(sc, on, phase, f);
      BlamesTheSame(sc, s, on, phase, f, on.asked, if on.expires.Some? then on.expires.value else 0, Expiry(sc, s));
    }
  }

  lemma DeferringThrows(sc: Script, s: Situation, f: Failure)
    requires s.expires.Some?
    ensures Deferring(sc, s).flow == Throws(f) <==> !Before(sc, s.asked, s.expires.value) && f == ReadinessExhausted
  {
  }

  lemma ServiceThrows(sc: Script, s: Situation, f: Failure)
    ensures Service(sc, s).flow == Throws(f) <==> At(sc.responses, s.asked).ponychart == Fails(f)
  {
  }

  lemma NotUnread(sc: Script, s: Situation, f: Failure)
    ensures PageReadInTime(sc, s) ==> !Unread(sc, s, f)
  {
  }

  // ---------- the whole step ----------

  /** The situation behind that many challenges that were over when the runner looked again. */
  function Nth(s: Situation, n: nat): Situation {
    if n == 0 then s else Again(Nth(s, n - 1))
  }

  /** The runner looks again exactly that many times. */
  predicate LooksAgain(sc: Script, s: Situation, n: nat) {
    (forall i: nat | i < n :: Ready(sc, Nth(s, i), Challenge)) && !Ready(sc, Nth(s, n), Challenge)
  }

  lemma {:induction false} NthOfNext(s: Situation, n: nat)
    ensures Nth(Again(s), n) == Nth(s, n + 1)
  {
    if 0 < n { NthOfNext(s, n - 1); }
  }

  /** The loop is its last pass, behind the challenges that were over. */
  lemma {:induction false} LookingIsItsLastPass(sc: Script, s: Situation) returns (n: nat)
    requires s.isIsekai.Some?
    ensures LooksAgain(sc, s, n) && Nth(s, n).isIsekai == s.isIsekai
    ensures Looking(sc, s) == Passing(sc, Nth(s, n)) && !Looking(sc, s).flow.Continues?
    decreases |sc.responses| - s.asked
  {
    hide Passing, PageReadInTime;
    LooksAgainExactlyWhen(sc, s);
    if Ready(sc, s, Challenge) {
      var m := LookingIsItsLastPass(sc, Again(s));
      n := m + 1;
      NthOfNext(s, m);
      forall i: nat | i < n ensures Ready(sc, Nth(s, i), Challenge) {
        if 0 < i { NthOfNext(s, i - 1); }
      }
    } else {
      n := 0;
    }
  }

  /** The answers that entitle the last pass of a step to this result, and oblige it to. */
  ghost predicate Says(sc: Script, s: Situation, r: Result)
    requires s.isIsekai.Some?
  {
    match r
    case Progress(TurnActionConfirmed) => Decides(sc, s, Acted)
    case Progress(NextFloorConfirmed) => Descends(sc, s)
    case Progress(RecoveryReconciled) => Recovers(sc, s)
    case Progress(PonychartResolved) => Serves(sc, s, SubmissionConfirmed)
    case Progress(PonychartExpired) => Serves(sc, s, ExpiredWithoutSubmission)
    case Idle(Policy) => Decides(sc, s, Idles)
    case Idle(Paused) => Pauses(sc, s)
    case Idle(StateNotReady) => Waits(sc, s)
    case Idle(TransitionConfirmation) => AwaitsEvidence(sc, s)
    case Stopped => Decides(sc, s, Stops)
    case Finished(done) => Completes(sc, s) && done == Completed(s.isIsekai.value)
    case NoBattleHere => false
    case _ => exists f :: Blames(sc, s, f) && RaisedFor(sc, s, f) == r
  }

  /** An unknown outcome with eligible evidence, an unspent budget, and a recovery that succeeds. */
  predicate Recovers(sc: Script, s: Situation)
    requires s.isIsekai.Some?
  {
    Blames(sc, s, UnknownAction(true)) && !s.spent
    && At(sc.responses, Passing(sc, s).after.asked).recovered == Gives(true)
  }

  /** What a failure of the last pass becomes: an unknown outcome is reported behind the attempt to recover it. */
  function RaisedFor(sc: Script, s: Situation, f: Failure): Result
    requires s.isIsekai.Some?
  {
    match f
    case BrowserTimeout => Raised("battle.browser-operation-timeout")
    case TimedOut => Raised("battle.turn-timeout")
    case UnknownAction(eligible) =>
      var answer := At(sc.responses, Passing(sc, s).after.asked).recovered;
      if eligible && !s.spent && answer == Gives(true) then Progress(RecoveryReconciled)
      else if eligible && !s.spent && answer == Fails(GenerationLost) then RaisedLost
      else if eligible || s.spent then RaisedExhausted
      else Raised("battle.action-outcome-unknown")
    case _ => Reported(f)
  }

  lemma PhaseSpends(sc: Script, s: Situation, phase: Phase)
    requires s.isIsekai.Some? && !phase.NotReady? && (phase.Absent? ==> s.expires.Some?)
    ensures OnPhase(sc, s, phase).flow.Throws? ==> OnPhase(sc, s, phase).after.spent == s.spent
  {
  }

  /** A failing pass leaves the budget as it was. */
  lemma FailingSpendsNothing(sc: Script, s: Situation)
    requires s.isIsekai.Some? && Passing(sc, s).flow.Throws?
    ensures Passing(sc, s).after.spent == s.spent
  {
    hide OnPhase, Preparing, Deferring;
    assert Deferring(sc, OnPage(sc, s)).after.spent == s.spent by { DeferringSpends(sc, OnPage(sc, s)); }
    var (page, phase) := Preparing(sc, s);
    if page.flow.Continues? && !phase.NotReady? {
      var on := Service(sc, if phase.Absent? then page.after else page.after.Shut().(transition := false)).after;
      PhaseSpends(sc, on, phase);
    } else if page.flow.Continues? {
      DeferringSpends(sc, page.after);
    }
  }

  lemma DeferringSpends(sc: Script, s: Situation)
    requires s.expires.Some?
    ensures Deferring(sc, s).after.spent == s.spent
  {
  }

  /** How the last pass of a step ends it. */
  lemma EndsExactlyWhen(sc: Script, s: Situation, r: Result)
    requires s.isIsekai.Some? && !Passing(sc, s).flow.Continues?
    ensures Ending(sc, Passing(sc, s)).result == r <==> Says(sc, s, r)
  {
    hide Passing;
    match Passing(sc, s).flow {
      case Returns(_) => ReturnsSaid(sc, s, r);
      case Throws(f) => ThrowsSaid(sc, s, f, r);
    }
  }

  lemma ThrowsSaid(sc: Script, s: Situation, f: Failure, r: Result)
    requires s.isIsekai.Some? && Passing(sc, s).flow == Throws(f)
    ensures Handling(sc, Passing(sc, s).after, f).result == r <==> Says(sc, s, r)
  {
    hide Passing, Blames;
    FailingSpendsNothing(sc, s);
    ThrowsExactlyWhen(sc, s, f);
    forall g | Blames(sc, s, g) ensures g == f {
      ThrowsExactlyWhen(sc, s, g);
    }
    assert Handling(sc, Passing(sc, s).after, f).result == RaisedFor(sc, s, f);
    if !Erroneous(r) { ReturnsSaid(sc, s, r); }
  }

  /** A result that only a failure leads to. */
  predicate Erroneous(r: Result) {
    r.Raised? || r.RaisedLost? || r.RaisedExhausted? || r == Progress(RecoveryReconciled)
  }

  lemma ReturnsSaid(sc: Script, s: Situation, r: Result)
    requires s.isIsekai.Some?
    ensures Passing(sc, s).flow.Returns? || !Erroneous(r) ==>
              (Passing(sc, s).flow == Returns(r) <==> Says(sc, s, r))
  {
    hide Passing, Blames, Decides, Descends, Serves, Pauses, Waits, AwaitsEvidence, Completes;
    forall f ensures Passing(sc, s).flow == Throws(f) <==> Blames(sc, s, f) {
      ThrowsExactlyWhen(sc, s, f);
    }
    match r {
      case Progress(TurnActionConfirmed) => DecidesExactlyWhen(sc, s, Acted);
      case Progress(NextFloorConfirmed) => FloorExactlyWhen(sc, s);
      case Progress(PonychartResolved) => ServesExactlyWhen(sc, s, SubmissionConfirmed);
      case Progress(PonychartExpired) => ServesExactlyWhen(sc, s, ExpiredWithoutSubmission);
      case Idle(Policy) => DecidesExactlyWhen(sc, s, Idles);
      case Idle(Paused) => PausesExactlyWhen(sc, s);
      case Idle(StateNotReady) => WaitsExactlyWhen(sc, s);
      case Idle(TransitionConfirmation) => ConfirmingExactlyWhen(sc, s);
      case Stopped => DecidesExactlyWhen(sc, s, Stops);
      case Finished(done) => CompletesExactlyWhen(sc, s, done);
      case _ => OtherResults(sc, s, r);
    }
  }

  /** No pass returns an error, a recovery, or the absence of a battle. */
  lemma OtherResults(sc: Script, s: Situation, r: Result)
    requires s.isIsekai.Some?
    requires Erroneous(r) || r.NoBattleHere?
    ensures Passing(sc, s).flow != Returns(r)
  {
    hide Passing, OnPhase, Deferring, PageReadInTime;
    ResultsFitThePage(sc, s, r);
  }

  // ---------- a step that looks for a battle first ----------

  /** Nothing hinders the runner, and it finds a battle in a known realm whose service lets it go on. */
  predicate Opens(sc: Script, s: Situation) {
    && Finds(sc, s, Present) && At(sc.responses, s.asked + 4).ponychart == Gives(NotPresent)
  }

  predicate Finds(sc: Script, s: Situation, presence: Presence) {
    && FreeToAct(sc, s.asked) && At(sc.responses, s.asked + 2).presence == Gives(presence)
    && (!presence.NoBattle? ==> At(sc.responses, s.asked + 3).isekai.Gives?)
  }

  /** The situation in which an opened battle's page is looked at. */
  function Opened(sc: Script, s: Situation): Situation
    requires Opens(sc, s)
  {
    s.(asked := s.asked + 5, isIsekai := Some(At(sc.responses, s.asked + 3).isekai.value), presence := true,
       transition := false)
  }

  /** The failure of a look for a battle that the answers lead to. */
  predicate PresenceBlames(sc: Script, s: Situation, f: Failure) {
    || At(sc.responses, s.asked).ponychart == Fails(f)
    || (FreeToAct(sc, s.asked) && At(sc.responses, s.asked + 2).presence == Fails(f))
    || (FreeToAct(sc, s.asked) && At(sc.responses, s.asked + 2).presence.Gives?
        && !At(sc.responses, s.asked + 2).presence.value.NoBattle? && At(sc.responses, s.asked + 3).isekai == Fails(f))
    || ((Finds(sc, s, Present) || Finds(sc, s, Completion)) && At(sc.responses, s.asked + 4).ponychart == Fails(f))
    || (Finds(sc, s, Completion) && FreeToAct(sc, s.asked + 4) && Unacknowledged(sc, s, f))
  }

  /** The answers that entitle a look for a battle to this result, and oblige it to. */
  ghost predicate PresenceSays(sc: Script, s: Situation, r: Result) {
    match r
    case NoBattleHere => Finds(sc, s, NoBattle)
    case Finished(done) =>
      && Finds(sc, s, Completion) && FreeToAct(sc, s.asked + 4)
      && Acknowledgement(sc.acknowledgements, s.acknowledged).Gives?
      && done == Completed(At(sc.responses, s.asked + 3).isekai.value)
    case Idle(Paused) =>
      || (At(sc.responses, s.asked).ponychart == Gives(NotPresent) && At(sc.responses, s.asked + 1).paused)
      || (Finds(sc, s, Completion) && At(sc.responses, s.asked + 4).ponychart == Gives(NotPresent)
          && At(sc.responses, s.asked + 5).paused)
    case Progress(PonychartResolved) => PresenceServes(sc, s, SubmissionConfirmed)
    case Progress(PonychartExpired) => PresenceServes(sc, s, ExpiredWithoutSubmission)
    case _ => exists f :: PresenceBlames(sc, s, f) && Reported(f) == r
  }

  predicate PresenceServes(sc: Script, s: Situation, outcome: Resolution) {
    || At(sc.responses, s.asked).ponychart == Gives(outcome)
    || ((Finds(sc, s, Present) || Finds(sc, s, Completion)) && At(sc.responses, s.asked + 4).ponychart == Gives(outcome))
  }

  lemma OpensABattleExactlyWhen(sc: Script, s: Situation)
    requires !s.presence
    ensures Presenting(sc, s).flow.Continues? <==> Opens(sc, s)
    ensures Opens(sc, s) ==> Presenting(sc, s).after == Opened(sc, s)
  {
  }

  lemma CompletingThrows(sc: Script, s: Situation, f: Failure)
    requires s.isIsekai.Some?
    ensures CompletingAfterService(sc, s).flow == Throws(f) <==>
            At(sc.responses, s.asked).ponychart == Fails(f) || (FreeToAct(sc, s.asked) && Unacknowledged(sc, s, f))
  {
  }

  lemma PresenceThrows(sc: Script, s: Situation, f: Failure)
    requires !s.presence
    ensures Presenting(sc, s).flow == Throws(f) <==> PresenceBlames(sc, s, f)
  {
    hide CompletingAfterService, Unacknowledged;
    if Finds(sc, s, Completion) {
      var known := s.Later(4).(isIsekai := Some(At(sc.responses, s.asked + 3).isekai.value));
      CompletingThrows(sc, known, f);
      assert Unacknowledged(sc, known, f) <==> Unacknowledged(sc, s, f) by { SameAcknowledgement(sc, s, known, f); }
    }
  }

  lemma SameAcknowledgement(sc: Script, s: Situation, other: Situation, f: Failure)
    requires s.acknowledged == other.acknowledged
    ensures Unacknowledged(sc, other, f) <==> Unacknowledged(sc, s, f)
  {
  }

  lemma CompletingReturns(sc: Script, s: Situation, r: Result)
    requires s.isIsekai.Some? && (r.NoBattleHere? || r.Finished? || NeedsNoPage(r))
    ensures CompletingAfterService(sc, s).flow == Returns(r) <==>
            match r
            case NoBattleHere => false
            case Finished(done) =>
              && FreeToAct(sc, s.asked) && Acknowledgement(sc.acknowledgements, s.acknowledged).Gives?
              && done == Completed(s.isIsekai.value)
            case Idle(_) => At(sc.responses, s.asked).ponychart == Gives(NotPresent) && At(sc.responses, s.asked + 1).paused
            case Progress(PonychartResolved) => At(sc.responses, s.asked).ponychart == Gives(SubmissionConfirmed)
            case Progress(_) => At(sc.responses, s.asked).ponychart == Gives(ExpiredWithoutSubmission)
  {
  }

  lemma PresenceReturns(sc: Script, s: Situation, r: Result)
    requires !s.presence && (r.NoBattleHere? || r.Finished? || NeedsNoPage(r))
    ensures Presenting(sc, s).flow == Returns(r) <==> PresenceSays(sc, s, r)
  {
    hide CompletingAfterService;
    if Finds(sc, s, Completion) {
      CompletingReturns(sc, s.Later(4).(isIsekai := Some(At(sc.responses, s.asked + 3).isekai.value)), r);
    }
  }

  lemma PresenceReturnsNothingElse(sc: Script, s: Situation, r: Result)
    requires !s.presence && Presenting(sc, s).flow == Returns(r)
    ensures r.NoBattleHere? || r.Finished? || NeedsNoPage(r)
  {
  }

  /** How a step that finds no battle to go on with ends. */
  lemma PresenceExactlyWhen(sc: Script, s: Situation, r: Result)
    requires !s.presence && !Opens(sc, s)
    ensures Stepping(sc, s).result == r <==> PresenceSays(sc, s, r)
  {
    hide Presenting, PresenceBlames, PresenceServes, Finds, Opens;
    OpensABattleExactlyWhen(sc, s);
    forall f ensures Presenting(sc, s).flow == Throws(f) <==> PresenceBlames(sc, s, f) {
      PresenceThrows(sc, s, f);
    }
    if Presenting(sc, s).flow.Returns? { PresenceReturnsNothingElse(sc, s, Presenting(sc, s).flow.result); }
    if r.NoBattleHere? || r.Finished? || NeedsNoPage(r) { PresenceReturns(sc, s, r); }
  }

  /** The step went through that many challenges before the pass that entitles it to this result, and obliges it to. */
  ghost predicate SaysAtLast(sc: Script, s: Situation, n: nat, r: Result) {
    LooksAgain(sc, s, n) && Nth(s, n).isIsekai.Some? && Says(sc, Nth(s, n), r)
  }

  /**
   A step ends in a result exactly when the answers say so: those to the look for a battle, if no battle is under way
   and none opens, and otherwise those of its last look at the page, behind the challenges that were over by then.
   */
  lemma {:induction false} StepEndsExactlyAs(sc: Script, s: Situation, r: Result)
    requires Knowing(s)
    ensures Stepping(sc, s).result == r <==>
            if !s.presence && !Opens(sc, s) then PresenceSays(sc, s, r)
            else var open := if s.presence then s else Opened(sc, s); exists n :: SaysAtLast(sc, open, n, r)
  {
    if !s.presence && !Opens(sc, s) {
      PresenceExactlyWhen(sc, s, r);
    } else {
      var open := if s.presence then s else Opened(sc, s);
      if !s.presence { OpensABattleExactlyWhen(sc, s); }
      LoopEndsExactlyAs(sc, open, r);
    }
  }

  lemma {:induction false} LoopEndsExactlyAs(sc: Script, s: Situation, r: Result)
    requires s.isIsekai.Some?
    ensures Ending(sc, Looking(sc, s)).result == r <==> exists n :: SaysAtLast(sc, s, n, r)
  {
    hide Passing, Says, Ready;
    var last := LookingIsItsLastPass(sc, s);
    EndsExactlyWhen(sc, Nth(s, last), r);
    assert Says(sc, Nth(s, last), r) ==> SaysAtLast(sc, s, last, r);
    forall n | SaysAtLast(sc, s, n, r) ensures n == last {
      assert !(n < last) && !(last < n);
    }
  }

  /** A step that waits keeps its window; the next one opens no new window while it lasts. */
  lemma WaitingKeepsTheWindow(sc: Script, s: Situation)
    requires s.isIsekai.Some?
    ensures Waits(sc, s) ==>
              Passing(sc, s).after == OnPage(sc, s).(asked := Behind(s) + 1, observations := s.observations + 1)
    ensures AwaitsEvidence(sc, s) ==> Passing(sc, s).after == OnPage(sc, s).(asked := Behind(s) + 3, transition := true)
  {
    hide Passing, PageReadInTime;
    PassingOnPage(sc, s);
  }
}
