/**
 One battle's runner as functions of a script of answers: what each of its calls ends in, and what the fields are
 behind it. Class BattleRunner in module Runner is proved to do exactly these steps.
 */
module RunnerScript {
  import opened Bytes

  datatype Phase = Absent | Challenge | NotReady | Active | NextFloor | Complete

  datatype Presence = NoBattle | Completion | Present

  datatype Resolution = NotPresent | SubmissionConfirmed | ExpiredWithoutSubmission

  datatype Decision = Acted | Idles | Stops

  datatype ProgressKind =
    | PonychartResolved | PonychartExpired | TurnActionConfirmed | NextFloorConfirmed | RecoveryReconciled

  datatype IdleReason = Paused | Policy | StateNotReady | TransitionConfirmation

  /** Exceptions: an unknown outcome carries whether its evidence permits a recovery. */
  datatype Failure =
    | UnknownAction(eligible: bool)
    | BrowserTimeout
    | TimedOut
    | GenerationLost
    | Interruption(code: string)
    | ReadinessExhausted
    | Other

  datatype Answer<T> = Gives(value: T) | Fails(failure: Failure)

  datatype Completed = Completed(isIsekai: bool)

  /** What a step returns or raises. */
  datatype Result =
    | Progress(kind: ProgressKind)
    | Idle(reason: IdleReason)
    | Finished(completed: Completed)
    | Stopped
    | NoBattleHere
    | Raised(code: string)
    | RaisedExhausted
    | RaisedLost

  /** The environment's answers to one call; each call takes the next response and uses the part it asks for. */
  datatype Response = Response(
    ponychart: Answer<Resolution>, paused: bool, clock: int, presence: Answer<Presence>, isekai: Answer<bool>,
    phase: Answer<Phase>, completionObserved: bool, nextFloor: Answer<bool>, initialized: Answer<bool>,
    decision: Answer<Decision>, recovered: Answer<bool>)

  /** Once the environment has no answer left, the browser generation is lost. */
  const LOST := Response(Fails(GenerationLost), false, 0, Fails(GenerationLost), Fails(GenerationLost),
                         Fails(GenerationLost), false, Fails(GenerationLost), Fails(GenerationLost),
                         Fails(GenerationLost), Fails(GenerationLost))

  /** The answer to the call with this number. */
  function At(responses: seq<Response>, call: nat): Response {
    if call < |responses| then responses[call] else LOST
  }

  /** Whether the acknowledgement with this number is confirmed; acknowledgements have answers of their own. */
  function Acknowledgement(answers: seq<Answer<bool>>, n: nat): Answer<bool> {
    if n < |answers| then answers[n] else Fails(GenerationLost)
  }

  /** How an inner call ends: nothing to report, a result of the step, or an exception. */
  datatype Flow = Continues | Returns(result: Result) | Throws(failure: Failure)

  datatype Script = Script(timeout: int, responses: seq<Response>, acknowledgements: seq<Answer<bool>>)

  /** The runner's fields, and how many answers it has used. */
  datatype Situation = Situation(
    asked: nat, acknowledged: nat, presence: bool, started: bool, startError: Option<string>, isIsekai: Option<bool>,
    expires: Option<int>, observations: nat, spent: bool, completed: Option<Completed>, transition: bool)
  {
    /** After that many more calls. */
    function Later(calls: nat): Situation { this.(asked := asked + calls) }

    /** No readiness window is open. */
    function Shut(): Situation { this.(expires := None, observations := 0) }
  }

  datatype Outcome = Outcome(flow: Flow, after: Situation)

  const MISSING := Interruption("battle.completion-evidence-missing")

  /** Calls only use up answers, and the realm stays known. */
  predicate Uses(s: Situation, after: Situation) {
    s.asked <= after.asked && after.isIsekai == s.isIsekai && after.presence == s.presence
  }

  /** The realm of a battle that is open is known. */
  predicate Knowing(s: Situation) { s.presence ==> s.isIsekai.Some? }

  // ---------- the calls that precede every action ----------

  function Service(sc: Script, s: Situation): Outcome {
    match At(sc.responses, s.asked).ponychart
    case Fails(failure) => Outcome(Throws(failure), s.Later(1))
    case Gives(NotPresent) => Outcome(Continues, s.Later(1))
    case Gives(SubmissionConfirmed) => Outcome(Returns(Progress(PonychartResolved)), s.Later(1).Shut())
    case Gives(ExpiredWithoutSubmission) => Outcome(Returns(Progress(PonychartExpired)), s.Later(1).Shut())
  }

  function Pause(sc: Script, s: Situation): Outcome {
    Outcome(if At(sc.responses, s.asked).paused then Returns(Idle(Paused)) else Continues, s.Later(1))
  }

  function ServiceOrPause(sc: Script, s: Situation): Outcome {
    var service := Service(sc, s);
    if service.flow.Continues? then Pause(sc, service.after) else service
  }

  // ---------- completion ----------

  /** An unknown outcome of the acknowledgement is an interruption, which no recovery follows. */
  function AcknowledgementFailure(failure: Failure): Failure {
    if failure.UnknownAction? then Interruption("battle.completion-acknowledgement-unknown") else failure
  }

  function Acknowledging(sc: Script, s: Situation): Outcome
    requires s.isIsekai.Some?
  {
    var after, done := s.(acknowledged := s.acknowledged + 1), Completed(s.isIsekai.value);
    match Acknowledgement(sc.acknowledgements, s.acknowledged)
    case Gives(_) => Outcome(Returns(Finished(done)), after.(completed := Some(done)))
    case Fails(failure) => Outcome(Throws(AcknowledgementFailure(failure)), after)
  }

  function Completing(sc: Script, s: Situation): (o: Outcome)
    requires s.isIsekai.Some?
    ensures Uses(s, o.after) && !o.flow.Continues?
  {
    var pause := Pause(sc, s);
    if pause.flow.Continues? then Acknowledging(sc, pause.after) else pause
  }

  function CompletingAfterService(sc: Script, s: Situation): Outcome
    requires s.isIsekai.Some?
  {
    var service := ServiceOrPause(sc, s);
    if service.flow.Continues? then Acknowledging(sc, service.after) else service
  }

  // ---------- looking for a battle ----------

  /** A battle is present in a known realm; its service comes first. */
  function Opening(sc: Script, s: Situation): Outcome {
    var service := Service(sc, s);
    if service.flow.Continues?
    then Outcome(Continues, service.after.(presence := true, transition := false)) else service
  }

  function Inspecting(sc: Script, s: Situation): Outcome {
    match At(sc.responses, s.asked).presence
    case Fails(failure) => Outcome(Throws(failure), s.Later(1))
    case Gives(NoBattle) => Outcome(Returns(NoBattleHere), s.Later(1))
    case Gives(found) =>
      match At(sc.responses, s.asked + 1).isekai
      case Fails(failure) => Outcome(Throws(failure), s.Later(2))
      case Gives(isIsekai) =>
        var known := s.Later(2).(isIsekai := Some(isIsekai));
        if found.Completion? then CompletingAfterService(sc, known) else Opening(sc, known)
  }

  function Presenting(sc: Script, s: Situation): (o: Outcome)
    ensures Knowing(s) ==> Knowing(o.after) && (o.flow.Continues? ==> o.after.presence)
  {
    if s.presence then Outcome(Continues, s)
    else
      var service := ServiceOrPause(sc, s);
      if service.flow.Continues? then Inspecting(sc, service.after) else service
  }

  // ---------- the readiness window ----------

  /** The readiness error needs an observation to report; without one, building it is itself an error. */
  function Unready(observations: nat): Failure {
    if observations >= 1 then ReadinessExhausted else Other
  }

  /** The clock reads before the expiry at this call. */
  predicate Before(sc: Script, call: nat, expires: int) {
    At(sc.responses, call).clock < expires
  }

  /** The page as a bounded probe shows it, or why it does not. */
  function Probing(sc: Script, s: Situation): (r: (Answer<Phase>, Situation))
    requires s.expires.Some?
    ensures Uses(s, r.1) && s.asked < r.1.asked && r.1.expires == s.expires && r.1.spent == s.spent
  {
    var found := At(sc.responses, s.asked + 1).phase;
    if !Before(sc, s.asked, s.expires.value) then (Fails(Unready(s.observations)), s.Later(1))
    else if found.Fails? && !found.failure.TimedOut? then (found, s.Later(2))
    else if !Before(sc, s.asked + 2, s.expires.value) then
      (Fails(Unready(s.observations + 1)), s.Later(3).(observations := s.observations + 1))
    else (found, s.Later(3))
  }

  function Windowed(sc: Script, s: Situation): (o: Outcome)
    ensures Uses(s, o.after) && (o.flow.Continues? ==> o.after.expires.Some?) && o.after.spent == s.spent
  {
    if s.expires.Some? then Outcome(Continues, s)
    else
      var service := ServiceOrPause(sc, s);
      if !service.flow.Continues? then service
      else
        var expires := At(sc.responses, service.after.asked).clock + sc.timeout;
        Outcome(Continues, service.after.Later(1).(expires := Some(expires)))
  }

  /** A transition waits only for as long as the window lasts, and then misses its evidence. */
  function Prepared(sc: Script, s: Situation): (r: (Outcome, Phase))
    requires s.expires.Some?
    ensures Uses(s, r.0.after) && s.asked < r.0.after.asked && r.0.after.expires == s.expires && r.0.after.spent == s.spent
  {
    if s.transition && !Before(sc, s.asked, s.expires.value) then (Outcome(Throws(MISSING), s.Later(1)), Absent)
    else
      var (page, after) := Probing(sc, if s.transition then s.Later(1) else s);
      match page
      case Gives(phase) => (Outcome(Continues, after), phase)
      case Fails(failure) =>
        (Outcome(Throws(if failure.ReadinessExhausted? && s.transition then MISSING else failure), after), Absent)
  }

  function Preparing(sc: Script, s: Situation): (r: (Outcome, Phase))
    ensures Uses(s, r.0.after) && s.asked < r.0.after.asked && r.0.after.spent == s.spent
    ensures r.0.flow.Continues? ==> r.0.after.expires.Some?
  {
    var window := Windowed(sc, s);
    if window.flow.Continues? then Prepared(sc, window.after) else (window, Absent)
  }

  function Deferring(sc: Script, s: Situation): Outcome
    requires s.expires.Some?
  {
    Outcome(if Before(sc, s.asked, s.expires.value) then Returns(Idle(StateNotReady)) else Throws(ReadinessExhausted),
            s.Later(1).(observations := s.observations + 1))
  }

  // ---------- acting on the page ----------

  function Confirming(sc: Script, s: Situation): (o: Outcome)
    requires s.isIsekai.Some? && s.expires.Some?
    ensures Uses(s, o.after) && !o.flow.Continues?
  {
    if At(sc.responses, s.asked).completionObserved then Completing(sc, s.Later(1).Shut().(transition := false))
    else
      Outcome(if Before(sc, s.asked + 1, s.expires.value) then Returns(Idle(TransitionConfirmation)) else Throws(MISSING),
              s.Later(2).(transition := true))
  }

  function Descending(sc: Script, s: Situation): (o: Outcome)
    ensures Uses(s, o.after) && !o.flow.Continues?
  {
    var pause := Pause(sc, s);
    if !pause.flow.Continues? then pause
    else
      match At(sc.responses, s.asked + 1).nextFloor
      case Fails(failure) => Outcome(Throws(failure), s.Later(2))
      case Gives(false) => Outcome(Throws(TimedOut), s.Later(2))
      case Gives(true) => Outcome(Returns(Progress(NextFloorConfirmed)), s.Later(2).Shut().(spent := false))
  }

  /** An interruption keeps its code; any other failure of the start gets one. */
  function Code(failure: Failure): string {
    if failure.Interruption? then failure.code else "battle.strategy-lifecycle-failed"
  }

  /** A failed start is remembered, unless the browser was lost. */
  function Starting(sc: Script, s: Situation): Outcome {
    if s.started then Outcome(Continues, s)
    else if s.startError.Some? then Outcome(Throws(Interruption(s.startError.value)), s)
    else
      match At(sc.responses, s.asked).initialized
      case Gives(_) => Outcome(Continues, s.Later(1).(started := true))
      case Fails(GenerationLost) => Outcome(Throws(GenerationLost), s.Later(1))
      case Fails(failure) => Outcome(Throws(Interruption(Code(failure))), s.Later(1).(startError := Some(Code(failure))))
  }

  function Deciding(sc: Script, s: Situation): Outcome {
    match At(sc.responses, s.asked).decision
    case Fails(failure) => Outcome(Throws(failure), s.Later(1))
    case Gives(Stops) => Outcome(Returns(Stopped), s.Later(1))
    case Gives(Idles) => Outcome(Returns(Idle(Policy)), s.Later(1))
    case Gives(Acted) => Outcome(Returns(Progress(TurnActionConfirmed)), s.Later(1).Shut().(spent := false))
  }

  function Turning(sc: Script, s: Situation): (o: Outcome)
    ensures Uses(s, o.after) && !o.flow.Continues?
  {
    var pause := Pause(sc, s);
    if !pause.flow.Continues? then pause
    else
      var start := Starting(sc, pause.after);
      if start.flow.Continues? then Deciding(sc, start.after) else start
  }

  function OnPhase(sc: Script, s: Situation, phase: Phase): (o: Outcome)
    requires s.isIsekai.Some? && !phase.NotReady? && (phase.Absent? ==> s.expires.Some?)
    ensures Uses(s, o.after)
  {
    match phase
    case Challenge => Outcome(Continues, s)
    case Complete => Completing(sc, s)
    case Absent => Confirming(sc, s)
    case NextFloor => Descending(sc, s)
    case Active => Turning(sc, s)
  }

  function Acting(sc: Script, s: Situation, phase: Phase): (o: Outcome)
    requires s.isIsekai.Some? && !phase.NotReady? && (phase.Absent? ==> s.expires.Some?)
    ensures Uses(s, o.after) && (o.flow.Continues? ==> s.asked < |sc.responses|)
  {
    var service := Service(sc, s);
    if service.flow.Continues? then OnPhase(sc, service.after, phase) else service
  }

  /** One pass through the step's loop; a challenge that is over makes the runner look again. */
  function Passing(sc: Script, s: Situation): (o: Outcome)
    requires s.isIsekai.Some?
    ensures Uses(s, o.after) && s.asked < o.after.asked && (o.flow.Continues? ==> s.asked < |sc.responses|)
  {
    var (page, phase) := Preparing(sc, s);
    if !page.flow.Continues? then page
    else if phase.NotReady? then Deferring(sc, page.after)
    else Acting(sc, if phase.Absent? then page.after else page.after.Shut().(transition := false), phase)
  }

  /** The step's loop. */
  function Looking(sc: Script, s: Situation): (o: Outcome)
    requires s.isIsekai.Some?
    ensures Uses(s, o.after) && !o.flow.Continues?
    decreases |sc.responses| - s.asked
  {
    var pass := Passing(sc, s);
    if pass.flow.Continues? then Looking(sc, pass.after) else pass
  }

  // ---------- the step ----------

  /** How `step` reports an exception that reached it. */
  function Reported(failure: Failure): Result {
    match failure
    case GenerationLost => RaisedLost
    case Interruption(code) => Raised(code)
    case ReadinessExhausted => Raised("battle.state-readiness-exhausted")
    case _ => Raised("battle.active-session-error")
  }

  datatype End = End(result: Result, after: Situation)

  /** The recovery of an unknown outcome: asked for on eligible evidence while the budget is unspent. */
  function Reconciling(sc: Script, s: Situation, eligible: bool): (e: End)
    requires s.isIsekai.Some?
    ensures Uses(s, e.after)
  {
    var asks := eligible && !s.spent;
    var answer, after := At(sc.responses, s.asked).recovered, if asks then s.Later(1) else s;
    if asks && answer == Gives(true) then End(Progress(RecoveryReconciled), after.Shut().(spent := true))
    else if asks && answer == Fails(GenerationLost) then End(RaisedLost, after)
    else End(if eligible || s.spent then RaisedExhausted else Raised("battle.action-outcome-unknown"), after)
  }

  /** The handlers around the loop's body. */
  function Handling(sc: Script, s: Situation, failure: Failure): (e: End)
    requires s.isIsekai.Some?
    ensures Uses(s, e.after)
  {
    match failure
    case UnknownAction(eligible) => Reconciling(sc, s, eligible)
    case BrowserTimeout => End(Raised("battle.browser-operation-timeout"), s)
    case TimedOut => End(Raised("battle.turn-timeout"), s)
    case _ => End(Reported(failure), s)
  }

  /** How a step ends, once its loop or the look for a battle has. */
  function Ending(sc: Script, o: Outcome): (e: End)
    requires !o.flow.Continues? && o.after.isIsekai.Some?
    ensures Uses(o.after, e.after)
  {
    match o.flow
    case Returns(result) => End(result, o.after)
    case Throws(failure) => Handling(sc, o.after, failure)
  }

  function Stepping(sc: Script, s: Situation): (e: End)
    requires Knowing(s)
    ensures Knowing(e.after)
  {
    var presence := Presenting(sc, s);
    match presence.flow
    case Returns(result) => End(result, presence.after)
    case Throws(failure) => End(Reported(failure), presence.after)
    case Continues => Ending(sc, Looking(sc, presence.after))
  }

  /** The fields behind a reset. */
  function Resetting(s: Situation): Situation {
    Situation(s.asked, s.acknowledged, false, false, None, None, None, 0, false, None, false)
  }

  const NEW := Situation(0, 0, false, false, None, None, None, 0, false, None, false)
}
