/**
 The cooperative runner of one battle. The environment answers every call on the session, the strategy, the
 clock and the pause gate; the runner's fields survive from step to step, and every result is recorded.
 */
module Runner {
  import opened Bytes
  import opened RunnerScript
  import R = RunnerResults

  /** The answer that entitles the runner to this result of a step; a raised error needs none. */
  predicate Supports(answer: Response, r: Result) {
    match r
    case Progress(PonychartResolved) => answer.ponychart == Gives(SubmissionConfirmed)
    case Progress(PonychartExpired) => answer.ponychart == Gives(ExpiredWithoutSubmission)
    case Progress(TurnActionConfirmed) => answer.decision == Gives(Acted)
    case Progress(NextFloorConfirmed) => answer.nextFloor == Gives(true)
    case Progress(RecoveryReconciled) => answer.recovered == Gives(true)
    case Idle(Paused) => answer.paused
    case Idle(Policy) => answer.decision == Gives(Idles)
    case Idle(StateNotReady) => answer.phase == Gives(NotReady)
    case Idle(TransitionConfirmation) => !answer.completionObserved
    case Finished(_) => false
    case Stopped => answer.decision == Gives(Stops)
    case NoBattleHere => answer.presence == Gives(NoBattle)
    case _ => true
  }

  /** One of the calls with these numbers was answered so. */
  predicate Supported(responses: seq<Response>, start: nat, end: nat, r: Result) {
    exists call | start <= call < end :: Supports(At(responses, call), r)
  }

  // ---------- the history ----------

  datatype Happening = Stepped(result: Result) | Acknowledged(confirmed: bool) | WasReset | ResetRefused

  predicate Reconciles(h: Happening) { h == Stepped(Progress(RecoveryReconciled)) }

  /** A receipt or a reset refills the recovery budget; PonyChart and idle steps do not. */
  predicate Refills(h: Happening) {
    h == Stepped(Progress(TurnActionConfirmed)) || h == Stepped(Progress(NextFloorConfirmed)) || h.WasReset?
  }

  /**
   What a history amounts to: whether a recovery is spent and not refilled, whether every recovery found the
   budget unspent, whether a completion is cached, and whether a cached one was followed by nothing but the same
   result until a reset.
   */
  datatype Ledger = Ledger(spent: bool, withinBudget: bool, done: bool, isFinal: bool) {
    function Then(h: Happening): Ledger {
      Ledger(Reconciles(h) || (!Refills(h) && spent),
             withinBudget && (Reconciles(h) ==> !spent),
             h == Acknowledged(true) || (!h.WasReset? && done),
             isFinal && (done ==> h.WasReset? || (h.Stepped? && h.result.Finished?)))
    }
  }

  /** The ledger after that many happenings. */
  function Balance(history: seq<Happening>, n: nat): Ledger
    requires n <= |history|
  {
    if n == 0 then Ledger(false, true, false, true) else Balance(history, n - 1).Then(history[n - 1])
  }

  predicate WithinBudget(history: seq<Happening>) { Balance(history, |history|).withinBudget }

  predicate Final(history: seq<Happening>) { Balance(history, |history|).isFinal }

  lemma {:induction false} Prefix(history: seq<Happening>, longer: seq<Happening>, n: nat)
    requires n <= |history| <= |longer| && forall k | 0 <= k < n :: history[k] == longer[k]
    ensures Balance(history, n) == Balance(longer, n)
  {
    if 0 < n { Prefix(history, longer, n - 1); }
  }

  lemma Appended(history: seq<Happening>, h: Happening)
    ensures Balance(history + [h], |history| + 1) == Balance(history, |history|).Then(h)
  {
    Prefix(history, history + [h], |history|);
  }

  lemma {:induction false} BalanceOfEarlier(history: seq<Happening>, n: nat, m: nat)
    requires n <= m <= |history|
    ensures Balance(history, m).withinBudget ==> Balance(history, n).withinBudget
    ensures Balance(history, m).isFinal ==> Balance(history, n).isFinal
  {
    if n < m { BalanceOfEarlier(history, n, m - 1); }
  }

  lemma {:induction false} SpentMeans(history: seq<Happening>, i: nat, n: nat)
    requires i < n <= |history| && Reconciles(history[i]) && !Balance(history, n).spent
    ensures exists k | i < k < n :: Refills(history[k])
  {
    if i < n - 1 && !Refills(history[n - 1]) {
      SpentMeans(history, i, n - 1);
    }
  }

  /** The budget over whole runs: between two recoveries lies a confirmed turn, a confirmed floor or a reset. */
  lemma RecoveriesAreSeparated(history: seq<Happening>, i: nat, j: nat)
    requires WithinBudget(history) && i < j < |history| && Reconciles(history[i]) && Reconciles(history[j])
    ensures exists k | i < k < j :: Refills(history[k])
  {
    BalanceOfEarlier(history, j + 1, |history|);
    SpentMeans(history, i, j);
  }

  /** No acknowledgement follows a confirmed one before a reset, and every step between returns the completion. */
  lemma CompletionIsFinal(history: seq<Happening>, i: nat, j: nat)
    requires Final(history) && i < j < |history| && history[i] == Acknowledged(true)
    requires forall k | i < k <= j :: !history[k].WasReset?
    ensures history[j].Stepped? && history[j].result.Finished?
  {
    BalanceOfEarlier(history, j + 1, |history|);
    DoneStays(history, i, j);
  }

  lemma {:induction false} DoneStays(history: seq<Happening>, i: nat, n: nat)
    requires i < n <= |history| && history[i] == Acknowledged(true)
    requires forall k | i < k < n :: !history[k].WasReset?
    ensures Balance(history, n).done
  {
    if i < n - 1 { DoneStays(history, i, n - 1); }
  }

  // ---------- the runner ----------

  class BattleRunner {
    const readinessTimeout: int
    const responses: seq<Response>
    const acknowledgements: seq<Answer<bool>>
    var asked: nat          // responses used so far
    var acknowledged: nat   // acknowledgements asked for so far
    var presenceInitialized: bool
    var strategyInitialized: bool
    var initializationError: Option<string>
    var isIsekai: Option<bool>
    var readinessExpires: Option<int>
    var observations: nat
    var recoveryPending: bool
    var completed: Option<Completed>
    var transitionPending: bool
    ghost var history: seq<Happening>

    constructor (readinessTimeout: int, responses: seq<Response>, acknowledgements: seq<Answer<bool>>)
      requires 0 < readinessTimeout
      ensures Valid() && history == [] && Here() == NEW
      ensures this.readinessTimeout == readinessTimeout
      ensures this.responses == responses && this.acknowledgements == acknowledgements
    {
      this.readinessTimeout, this.responses, this.acknowledgements := readinessTimeout, responses, acknowledgements;
      asked, acknowledged := 0, 0;
      presenceInitialized, strategyInitialized, recoveryPending, transitionPending := false, false, false, false;
      initializationError, isIsekai, readinessExpires, observations, completed := None, None, None, 0, None;
      history := [];
    }

    function Sc(): Script { Script(readinessTimeout, responses, acknowledgements) }

    /** The fields. */
    ghost function Here(): Situation
      reads this
    {
      Situation(asked, acknowledged, presenceInitialized, strategyInitialized, initializationError, isIsekai,
                readinessExpires, observations, recoveryPending, completed, transitionPending)
    }

    /** The call ended so, and left the fields so. */
    twostate predicate Does(o: Outcome, f: Flow)
      reads this
    {
      f == o.flow && Here() == o.after
    }

    /** What the history so far amounts to. */
    ghost function Account(): Ledger
      reads this
    {
      Balance(history, |history|)
    }

    /** The fields agree with the history of results, and the history keeps its two promises. */
    ghost predicate Valid()
      reads this
    {
      Account() == Ledger(recoveryPending, true, completed.Some?, true) && Sane()
    }

    ghost predicate Sane()
      reads this
    {
      && (presenceInitialized ==> isIsekai.Some?)
      && (readinessExpires.None? ==> observations == 0)
      && (!presenceInitialized ==> readinessExpires.None? && !transitionPending)
    }

    /** The fields already agree with the history that ends in this result of the step. */
    ghost predicate Fits(r: Result)
      reads this
    {
      && Account().Then(Stepped(r)) == Ledger(recoveryPending, true, completed.Some?, true) && Sane()
      && (r.Finished? <==> completed.Some?) && (r.Finished? ==> completed == Some(r.completed))
    }

    /** An open battle between two calls of the environment. */
    ghost predicate Underway()
      reads this
    {
      Valid() && completed.None? && presenceInitialized
    }

    ghost predicate FlowFits(f: Flow)
      reads this
    {
      match f
      case Continues => Valid() && completed.None?
      case Returns(r) => Fits(r)
      case Throws(_) => Valid() && completed.None?
    }

    /** One acknowledgement, recorded as confirmed exactly when it was answered without an error. */
    twostate predicate Acknowledges()
      reads this
    {
      && acknowledged == old(acknowledged) + 1
      && history == old(history) + [Acknowledged(Acknowledgement(acknowledgements, old(acknowledged)).Gives?)]
    }

    twostate predicate GrowsByAtMostOneAcknowledgement()
      reads this
    {
      (history == old(history) && acknowledged == old(acknowledged)) || Acknowledges()
    }

    /** The next acknowledgement would be confirmed. */
    predicate WouldConfirm()
      reads this
    {
      Acknowledgement(acknowledgements, acknowledged).Gives?
    }

    /** An answer since then entitles the runner to this result: a completion to the acknowledgement just made. */
    twostate predicate Earns(r: Result)
      reads this
    {
      if r.Finished? then Acknowledges() && old(WouldConfirm()) else Supported(responses, old(asked), asked, r)
    }

    /** The acknowledgements on record: whether each was confirmed. */
    ghost function Recorded(): seq<bool>
      reads this
    {
      Records(history, |history|)
    }

    /** The answer to the call that many calls after the next one. */
    function Answered(later: nat): Response
      reads this
    {
      At(responses, asked + later)
    }

    method Next() returns (r: Response)
      modifies this`asked
      ensures r == old(Answered(0)) && asked == old(asked) + 1
    {
      r := if asked < |responses| then responses[asked] else LOST;
      asked := asked + 1;
    }

    method ClearStateReadiness()
      modifies this`readinessExpires, this`observations
      ensures readinessExpires.None? && observations == 0
    {
      readinessExpires, observations := None, 0;
    }

    method ConfirmedProgress(kind: ProgressKind) returns (r: Result)
      modifies this`readinessExpires, this`observations
      ensures r == Progress(kind) && readinessExpires.None? && observations == 0
    {
      ClearStateReadiness();
      return Progress(kind);
    }

    /** Whether the two calls that precede every action, from this one on, let the runner go on. */
    predicate FreeToAct(later: nat)
      reads this
    {
      R.FreeToAct(Sc(), asked + later)
    }

    /** `_resolve_ponychart_progress`: the page may be used exactly when no challenge is present. */
    method ResolvePonychart() returns (f: Flow)
      modifies this`asked, this`readinessExpires, this`observations
      ensures asked == old(asked) + 1
      ensures f.Continues? <==> old(Answered(0)).ponychart == Gives(NotPresent)
      ensures f.Throws? ==> old(Answered(0)).ponychart == Fails(f.failure)
      ensures f.Returns? ==> f.result == Progress(PonychartResolved) || f.result == Progress(PonychartExpired)
      ensures f.Returns? ==> Supports(old(Answered(0)), f.result)
      ensures if f.Returns? then readinessExpires.None? && observations == 0
              else readinessExpires == old(readinessExpires) && observations == old(observations)
      ensures Does(Service(Sc(), old(Here())), f)
    {
      var r := Next();
      match r.ponychart {
        case Fails(failure) => return Throws(failure);
        case Gives(NotPresent) => return Continues;
        case Gives(outcome) =>
          var progress := ConfirmedProgress(if outcome.SubmissionConfirmed? then PonychartResolved else PonychartExpired);
          return Returns(progress);
      }
    }

    method DeferIfPaused() returns (f: Flow)
      modifies this`asked
      ensures asked == old(asked) + 1
      ensures f == if old(Answered(0)).paused then Returns(Idle(Paused)) else Continues
      ensures Does(Pause(Sc(), old(Here())), f)
    {
      var r := Next();
      return if r.paused then Returns(Idle(Paused)) else Continues;
    }

    /** `_service_ponychart_or_pause` */
    method ServicePonychartOrPause() returns (f: Flow)
      modifies this`asked, this`readinessExpires, this`observations
      ensures old(asked) < asked
      ensures f.Continues? <==> old(FreeToAct(0))
      ensures f.Continues? ==> asked == old(asked) + 2
      ensures f.Returns? ==> R.NeedsNoPage(f.result) && Supported(responses, old(asked), asked, f.result)
      ensures (readinessExpires.None? && observations == 0)
              || (readinessExpires == old(readinessExpires) && observations == old(observations))
      ensures Does(ServiceOrPause(Sc(), old(Here())), f)
    {
      f := ResolvePonychart();
      if f.Continues? {
        f := DeferIfPaused();
      }
    }

    /** `_state_readiness_remaining`: nothing is left from the expiry on. */
    method ReadinessRemaining() returns (remaining: nat)
      requires readinessExpires.Some?
      modifies this`asked
      ensures asked == old(asked) + 1
      ensures 0 < remaining <==> old(Answered(0)).clock < readinessExpires.value
      ensures 0 < remaining ==> old(Answered(0)).clock + remaining == readinessExpires.value
    {
      var r := Next();
      return if readinessExpires.value > r.clock then readinessExpires.value - r.clock else 0;
    }

    /** `_acknowledge_completion`: the only step that completes the battle, exactly on a confirmed acknowledgement. */
    method AcknowledgeCompletion() returns (f: Flow)
      requires Valid() && completed.None? && isIsekai.Some?
      modifies this`acknowledged, this`completed, this`history
      ensures FlowFits(f) && !f.Continues? && Acknowledges()
      ensures f.Returns? <==> old(WouldConfirm())
      ensures f.Returns? ==> completed == Some(Completed(isIsekai.value)) && f.result == Finished(completed.value)
      ensures f.Throws? ==>
                f.failure == AcknowledgementFailure(Acknowledgement(acknowledgements, old(acknowledged)).failure)
      ensures Does(Acknowledging(Sc(), old(Here())), f)
    {
      var answer := if acknowledged < |acknowledgements| then acknowledgements[acknowledged] else Fails(GenerationLost);
      acknowledged := acknowledged + 1;
      Appended(history, Acknowledged(answer.Gives?));
      history := history + [Acknowledged(answer.Gives?)];
      match answer {
        case Gives(_) =>
          completed := Some(Completed(isIsekai.value));
          return Returns(Finished(completed.value));
        case Fails(failure) => return Throws(AcknowledgementFailure(failure));
      }
    }

    /** The completion is acknowledged, unless the runner is paused. */
    method CompleteUnlessPaused() returns (f: Flow)
      requires Valid() && completed.None? && isIsekai.Some?
      modifies this`asked, this`acknowledged, this`completed, this`history
      ensures FlowFits(f) && !f.Continues? && old(asked) < asked
      ensures if old(Answered(0)).paused then history == old(history) && acknowledged == old(acknowledged)
              else Acknowledges()
      ensures f == Returns(Idle(Paused)) <==> old(Answered(0)).paused
      ensures f.Returns? && f.result.Finished? <==> !old(Answered(0)).paused && old(WouldConfirm())
      ensures f.Returns? ==> f.result == Idle(Paused) || f.result == Finished(Completed(isIsekai.value))
      ensures f.Returns? ==> Earns(f.result)
      ensures f.Throws? ==> !f.failure.UnknownAction?
      ensures Does(Completing(Sc(), old(Here())), f)
    {
      f := DeferIfPaused();
      if f.Continues? {
        f := AcknowledgeCompletion();
      }
    }

    /** A completion found at the start: the PonyChart service and the pause come first. */
    method CompleteAfterService() returns (f: Flow)
      requires Valid() && completed.None? && isIsekai.Some?
      modifies this`asked, this`acknowledged, this`readinessExpires, this`observations, this`completed, this`history
      ensures FlowFits(f) && !f.Continues? && GrowsByAtMostOneAcknowledgement() && old(asked) < asked
      ensures f.Returns? && f.result.Finished? <==> old(FreeToAct(0)) && old(WouldConfirm())
      ensures f.Returns? && f.result.Finished? ==> f.result.completed == Completed(isIsekai.value)
      ensures f.Returns? ==> f.result.Finished? || R.NeedsNoPage(f.result)
      ensures f.Returns? ==> Earns(f.result)
      ensures Does(CompletingAfterService(Sc(), old(Here())), f)
    {
      f := ServicePonychartOrPause();
      if f.Continues? {
        f := AcknowledgeCompletion();
      }
    }

    /** What `_ensure_presence_initialized` has to hear before it opens a battle, or completes one. */
    predicate OpensBattle()
      reads this
    {
      && FreeToAct(0) && Answered(2).presence == Gives(Present) && Answered(3).isekai.Gives?
      && Answered(4).ponychart == Gives(NotPresent)
    }

    predicate FindsCompletion()
      reads this
    {
      && FreeToAct(0) && Answered(2).presence == Gives(Completion) && Answered(3).isekai.Gives?
      && FreeToAct(4) && WouldConfirm()
    }

    /** `_ensure_presence_initialized` */
    method EnsurePresenceInitialized() returns (f: Flow)
      requires Valid() && completed.None?
      modifies this
      ensures GrowsByAtMostOneAcknowledgement() && old(asked) <= asked
      ensures FlowFits(f)
      ensures f.Continues? ==> presenceInitialized && history == old(history) && acknowledged == old(acknowledged)
      ensures f.Continues? <==> old(presenceInitialized) || old(OpensBattle())
      ensures f.Returns? && f.result.NoBattleHere? <==>
                !old(presenceInitialized) && old(FreeToAct(0)) && old(Answered(2)).presence == Gives(NoBattle)
      ensures f.Returns? && f.result.Finished? <==> !old(presenceInitialized) && old(FindsCompletion())
      ensures f.Returns? && f.result.Finished? ==> f.result.completed.isIsekai == old(Answered(3)).isekai.value
      ensures f.Returns? ==> R.NeedsNoPage(f.result) || f.result.NoBattleHere? || f.result.Finished?
      ensures f.Returns? ==> Earns(f.result)
      ensures Does(Presenting(Sc(), old(Here())), f)
    {
      if presenceInitialized {
        return Continues;
      }
      f := ServicePonychartOrPause();
      if f.Continues? {
        f := InspectPresence();
      }
    }

    /** Nothing hinders the runner: it looks for a battle, and opens or completes the one it finds. */
    method InspectPresence() returns (f: Flow)
      requires Valid() && completed.None? && !presenceInitialized
      modifies this
      ensures GrowsByAtMostOneAcknowledgement() && old(asked) < asked
      ensures FlowFits(f)
      ensures f.Continues? ==> presenceInitialized && history == old(history) && acknowledged == old(acknowledged)
      ensures f.Continues? <==>
              && old(Answered(0)).presence == Gives(Present) && old(Answered(1)).isekai.Gives?
              && old(Answered(2)).ponychart == Gives(NotPresent)
      ensures f.Returns? && f.result.NoBattleHere? <==> old(Answered(0)).presence == Gives(NoBattle)
      ensures f.Returns? && f.result.Finished? <==>
              && old(Answered(0)).presence == Gives(Completion) && old(Answered(1)).isekai.Gives?
              && old(FreeToAct(2)) && old(WouldConfirm())
      ensures f.Returns? && f.result.Finished? ==> f.result.completed.isIsekai == old(Answered(1)).isekai.value
      ensures f.Returns? ==> R.NeedsNoPage(f.result) || f.result.NoBattleHere? || f.result.Finished?
      ensures f.Returns? ==> Earns(f.result)
      ensures Does(Inspecting(Sc(), old(Here())), f)
    {
      hide CompletingAfterService, Opening;
      var r := Next();
      if r.presence.Fails? {
        return Throws(r.presence.failure);
      }
      if r.presence.value.NoBattle? {
        return Returns(NoBattleHere);
      }
      var realm := Next();
      if realm.isekai.Fails? {
        return Throws(realm.isekai.failure);
      }
      isIsekai := Some(realm.isekai.value);
      if r.presence.value.Completion? {
        f := CompleteAfterService();
        return;
      }
      f := OpenBattle();
    }

    /** A battle is present: it is open once its service lets the runner go on. */
    method OpenBattle() returns (f: Flow)
      requires Valid() && completed.None? && !presenceInitialized && isIsekai.Some?
      modifies this`asked, this`readinessExpires, this`observations, this`presenceInitialized, this`transitionPending
      ensures FlowFits(f) && asked == old(asked) + 1 && (f.Continues? ==> presenceInitialized)
      ensures f.Continues? <==> old(Answered(0)).ponychart == Gives(NotPresent)
      ensures f.Returns? ==> R.NeedsNoPage(f.result) && Supports(old(Answered(0)), f.result)
      ensures Does(Opening(Sc(), old(Here())), f)
    {
      f := ResolvePonychart();
      if f.Continues? {
        presenceInitialized := true;
        transitionPending := false;
      }
    }

    /** A recovery is asked for only on eligible evidence, in a known realm, with an unspent budget. */
    predicate MayRecover(eligible: bool)
      reads this
    {
      eligible && !recoveryPending && isIsekai.Some?
    }

    /** `_reconcile_unknown_action`: the recovery runs only while its budget is unspent. */
    method ReconcileUnknownAction(eligible: bool) returns (r: Result)
      requires Valid() && completed.None?
      modifies this
      ensures Fits(r) && history == old(history) && acknowledged == old(acknowledged)
      ensures asked == old(asked) + if old(MayRecover(eligible)) then 1 else 0
      ensures r == Progress(RecoveryReconciled) <==>
              old(MayRecover(eligible)) && old(Answered(0)).recovered == Gives(true)
      ensures r.RaisedLost? <==> old(MayRecover(eligible)) && old(Answered(0)).recovered == Fails(GenerationLost)
      ensures r == Progress(RecoveryReconciled) || r.RaisedLost? || r.RaisedExhausted?
              || r == Raised("battle.action-outcome-unknown")
      ensures r.Raised? <==> !eligible && !old(recoveryPending)
      ensures old(isIsekai).Some? ==> End(r, Here()) == Reconciling(Sc(), old(Here()), eligible)
    {
      var recovered := false;
      if eligible && !recoveryPending && isIsekai.Some? {
        var answer := Next();
        match answer.recovered {
          case Fails(GenerationLost) => return RaisedLost;
          case Fails(_) =>
          case Gives(value) => recovered := value;
        }
      }
      if recovered {
        recoveryPending := true;
        r := ConfirmedProgress(RecoveryReconciled);
        return;
      }
      return if eligible || recoveryPending then RaisedExhausted else Raised("battle.action-outcome-unknown");
    }

    /** The readiness error needs an observation to report; without one, building it is itself an error. */
    function ReadinessError(): Failure
      reads this
    {
      Unready(observations)
    }

    /** Whether the clock reads before the expiry at the call that many calls after the next one. */
    predicate InTime(later: nat, expires: int)
      reads this
    {
      Before(Sc(), asked + later, expires)
    }

    /** A probe that starts that many calls after the next one is answered before the expiry. */
    predicate ProbedInTime(later: nat, expires: int)
      reads this
    {
      R.ProbedInTime(Sc(), asked + later, expires)
    }

    /** `_probe_pending_state_readiness`: no probe starts, and no late result is accepted, at or after the expiry. */
    method ProbePendingReadiness() returns (answer: Answer<Phase>)
      requires Underway() && readinessExpires.Some?
      modifies this`asked, this`observations
      ensures Underway() && old(asked) < asked
      ensures answer.Gives? <==> old(ProbedInTime(0, readinessExpires.value))
      ensures answer.Gives? ==>
                answer == old(Answered(1)).phase && asked == old(asked) + 3 && observations == old(observations)
      ensures !old(InTime(0, readinessExpires.value)) ==>
                asked == old(asked) + 1 && observations == old(observations) && answer == Fails(ReadinessError())
      ensures old(InTime(0, readinessExpires.value)) && old(Answered(1)).phase.Gives? && answer.Fails? ==>
                answer == Fails(ReadinessExhausted) && observations == old(observations) + 1
      ensures (answer, Here()) == Probing(Sc(), old(Here()))
    {
      var remaining := ReadinessRemaining();
      if remaining <= 0 {
        return Fails(ReadinessError());
      }
      var r := Next();
      if r.phase.Fails? && !r.phase.failure.TimedOut? {
        return r.phase;
      }
      remaining := ReadinessRemaining();
      if remaining <= 0 {
        observations := observations + 1;
        return Fails(ReadinessError());
      }
      return r.phase;
    }

    /** The calls that precede the probe: a pause check and the clock open the window, a transition looks at it again. */
    ghost function CallsBeforeProbe(): nat
      reads this
    {
      R.CallsBeforeProbe(Here())
    }

    /** An open window keeps its expiry; a new one lasts the whole timeout. */
    ghost function Expiry(): int
      reads this
    {
      R.Expiry(Sc(), Here())
    }

    /** The page is looked at, and answers, inside the window. */
    ghost predicate PageReadInTime()
      reads this
    {
      R.PageReadInTime(Sc(), Here())
    }

    /** What the page read in time shows. */
    ghost function PageRead(): Phase
      requires PageReadInTime()
      reads this
    {
      R.PageRead(Sc(), Here())
    }

    /** Opens the readiness window, unless one is open. */
    method OpenWindow() returns (f: Flow)
      requires Underway()
      modifies this`asked, this`readinessExpires, this`observations
      ensures FlowFits(f) && Underway()
      ensures old(asked) <= asked && (f.Continues? ==> readinessExpires.Some?) && (!f.Continues? ==> old(asked) < asked)
      ensures f.Returns? ==> R.NeedsNoPage(f.result) && Supported(responses, old(asked), asked, f.result)
      ensures Does(Windowed(Sc(), old(Here())), f)
    {
      if readinessExpires.Some? {
        return Continues;
      }
      f := ServicePonychartOrPause();
      if f.Continues? {
        var now := Next();
        readinessExpires := Some(now.clock + readinessTimeout);
      }
    }

    /** Probes the page inside the open window; a transition misses its evidence when the window is over. */
    method ReadPage() returns (f: Flow, phase: Phase)
      requires Underway() && readinessExpires.Some?
      modifies this`asked, this`observations
      ensures Underway() && old(asked) < asked && !f.Returns?
      ensures (Outcome(f, Here()), phase) == Prepared(Sc(), old(Here()))
    {
      phase := Absent;
      if transitionPending {
        var remaining := ReadinessRemaining();
        if remaining <= 0 {
          return Throws(Interruption("battle.completion-evidence-missing")), phase;
        }
      }
      var prepared := ProbePendingReadiness();
      match prepared {
        case Gives(value) => return Continues, value;
        case Fails(ReadinessExhausted) =>
          f := Throws(if transitionPending then Interruption("battle.completion-evidence-missing") else ReadinessExhausted);
        case Fails(failure) => f := Throws(failure);
      }
    }

    /** Opens the readiness window, unless one is open, and probes the page inside it. */
    method PrepareTurn() returns (f: Flow, phase: Phase)
      requires Underway()
      modifies this`asked, this`readinessExpires, this`observations
      ensures FlowFits(f) && Underway() && old(asked) < asked
      ensures f.Continues? <==> old(PageReadInTime())
      ensures f.Continues? ==> phase == old(PageRead()) && readinessExpires == Some(old(Expiry()))
      ensures f.Continues? ==> asked == old(asked) + old(CallsBeforeProbe()) + 3
      ensures f.Returns? ==> !Reconciles(Stepped(f.result)) && !Refills(Stepped(f.result))
      ensures f.Returns? ==> f.result.Progress? || f.result == Idle(Paused)
      ensures f.Returns? ==> Supported(responses, old(asked), asked, f.result)
      ensures f.Continues? && phase.NotReady? ==> Supported(responses, old(asked), asked, Idle(StateNotReady))
      ensures (Outcome(f, Here()), phase) == Preparing(Sc(), old(Here()))
    {
      hide Windowed, Prepared;
      R.PreparedExactlyWhen(Sc(), Here());
      phase := Absent;
      f := OpenWindow();
      if f.Continues? {
        f, phase := ReadPage();
        assert f.Continues? && phase.NotReady? ==>
            Supports(At(responses, old(asked + CallsBeforeProbe() + 1)), Idle(StateNotReady));
      }
    }

    /** `_defer_state_not_ready`: waits inside the window that is open, never in a new one. */
    method DeferStateNotReady() returns (f: Flow)
      requires Underway() && readinessExpires.Some?
      modifies this`asked, this`observations
      ensures asked == old(asked) + 1 && Underway()
      ensures f == if old(InTime(0, readinessExpires.value)) then Returns(Idle(StateNotReady))
                   else Throws(ReadinessExhausted)
      ensures Does(Deferring(Sc(), old(Here())), f)
    {
      observations := observations + 1;
      var remaining := ReadinessRemaining();
      return if remaining > 0 then Returns(Idle(StateNotReady)) else Throws(ReadinessError());
    }

    /** An absent page: completion was seen, or the runner waits for evidence inside the open window. */
    method ConfirmTransition() returns (f: Flow)
      requires Underway() && readinessExpires.Some?
      modifies this
      ensures GrowsByAtMostOneAcknowledgement() && old(asked) < asked
      ensures FlowFits(f) && !f.Continues?
      ensures f.Returns? ==> f.result.Finished? || f.result == Idle(Paused) || f.result == Idle(TransitionConfirmation)
      ensures f.Returns? && f.result.Finished? <==>
                old(Answered(0)).completionObserved && !old(Answered(1)).paused && old(WouldConfirm())
      ensures f == Returns(Idle(TransitionConfirmation)) <==>
                !old(Answered(0)).completionObserved && old(InTime(1, readinessExpires.value))
      ensures f == Returns(Idle(Paused)) <==> old(Answered(0)).completionObserved && old(Answered(1)).paused
      ensures !old(Answered(0)).completionObserved ==>
                && history == old(history) && transitionPending && readinessExpires == old(readinessExpires)
                && (f.Throws? ==> f.failure == Interruption("battle.completion-evidence-missing"))
      ensures f.Returns? ==> Earns(f.result)
      ensures f.Throws? ==> !f.failure.UnknownAction?
      ensures Does(Confirming(Sc(), old(Here())), f)
    {
      hide Completing;
      var r := Next();
      if r.completionObserved {
        ClearStateReadiness();
        transitionPending := false;
        f := CompleteUnlessPaused();
        return;
      }
      f := AwaitEvidence();
    }

    /** The page is gone without its completion: the runner waits for evidence while the window lasts. */
    method AwaitEvidence() returns (f: Flow)
      requires readinessExpires.Some?
      modifies this`asked, this`transitionPending
      ensures asked == old(asked) + 1 && transitionPending
      ensures f == if old(InTime(0, readinessExpires.value)) then Returns(Idle(TransitionConfirmation)) else Throws(MISSING)
    {
      transitionPending := true;
      var remaining := ReadinessRemaining();
      return if remaining <= 0 then Throws(Interruption("battle.completion-evidence-missing"))
             else Returns(Idle(TransitionConfirmation));
    }

    /** The next floor is entered at most once per step, and its confirmation refills the budget. */
    method GoNextFloor() returns (f: Flow)
      requires Underway()
      modifies this
      ensures old(asked) < asked && history == old(history) && acknowledged == old(acknowledged)
      ensures FlowFits(f) && !f.Continues?
      ensures f == Returns(Progress(NextFloorConfirmed)) <==>
              !old(Answered(0)).paused && old(Answered(1)).nextFloor == Gives(true)
      ensures f.Returns? ==> f.result == Progress(NextFloorConfirmed) || f.result == Idle(Paused)
      ensures f == Returns(Idle(Paused)) <==> old(Answered(0)).paused
      ensures old(Answered(1)).nextFloor == Gives(false) && f.Throws? ==> f.failure == TimedOut
      ensures f.Returns? ==> Supported(responses, old(asked), asked, f.result)
      ensures Does(Descending(Sc(), old(Here())), f)
    {
      hide Pause;
      f := DeferIfPaused();
      if f.Continues? {
        f := EnterFloor();
      }
    }

    /** The control of the next floor. */
    method EnterFloor() returns (f: Flow)
      requires Underway()
      modifies this
      ensures asked == old(asked) + 1 && history == old(history) && acknowledged == old(acknowledged)
      ensures FlowFits(f) && !f.Continues?
      ensures f.Returns? <==> old(Answered(0)).nextFloor == Gives(true)
      ensures f.Returns? ==> f.result == Progress(NextFloorConfirmed)
      ensures old(Answered(0)).nextFloor == Gives(false) ==> f == Throws(TimedOut)
      ensures old(Answered(0)).nextFloor.Fails? ==> f == Throws(old(Answered(0)).nextFloor.failure)
      ensures f.Returns? ==> Here() == old(Here()).Later(1).Shut().(spent := false)
      ensures f.Throws? ==> Here() == old(Here()).Later(1)
    {
      var r := Next();
      match r.nextFloor {
        case Fails(failure) => return Throws(failure);
        case Gives(false) => return Throws(TimedOut);
        case Gives(true) =>
          recoveryPending := false;
          var progress := ConfirmedProgress(NextFloorConfirmed);
          return Returns(progress);
      }
    }

    /** The strategy has started, or starts at the call that many calls after the next one. */
    ghost predicate Starts(later: nat)
      reads this
    {
      R.Starts(Sc(), Here(), asked + later)
    }

    /** `_ensure_strategy_initialized`: a failed start is remembered and raised again. */
    method EnsureStrategyInitialized() returns (f: Flow)
      requires Underway()
      modifies this`asked, this`strategyInitialized, this`initializationError
      ensures Underway() && !f.Returns?
      ensures f.Continues? <==> old(Starts(0))
      ensures strategyInitialized == f.Continues?
      ensures asked == old(asked) + if old(strategyInitialized) || old(initializationError).Some? then 0 else 1
      ensures old(initializationError).Some? && !old(strategyInitialized) ==>
                f == Throws(Interruption(old(initializationError).value))
      ensures f.Throws? ==> f.failure.GenerationLost? || initializationError == Some(Code(f.failure))
      ensures Does(Starting(Sc(), old(Here())), f)
    {
      if strategyInitialized {
        return Continues;
      }
      if initializationError.Some? {
        return Throws(Interruption(initializationError.value));
      }
      var r := Next();
      match r.initialized {
        case Gives(_) =>
          strategyInitialized := true;
          return Continues;
        case Fails(failure) =>
          if failure.GenerationLost? {
            return Throws(failure);
          }
          initializationError := Some(Code(failure));
          return Throws(Interruption(Code(failure)));
      }
    }

    /** The call that asks the strategy for its turn, counted from the pause check. */
    function DecisionCall(): nat
      reads this
    {
      if strategyInitialized then 1 else 2
    }

    /** The strategy is asked only when nothing is paused and it has started. */
    ghost predicate AsksStrategy()
      reads this
    {
      !Answered(0).paused && Starts(1)
    }

    /** One decision of the strategy; an acted turn has its receipt and refills the budget. */
    method TakeTurn() returns (f: Flow)
      requires Underway()
      modifies this
      ensures old(asked) < asked && history == old(history) && acknowledged == old(acknowledged)
      ensures FlowFits(f) && !f.Continues?
      ensures f.Returns? <==>
              old(Answered(0)).paused || (old(AsksStrategy()) && old(Answered(DecisionCall())).decision.Gives?)
      ensures f == Returns(Idle(Paused)) <==> old(Answered(0)).paused
      ensures f.Returns? && !old(Answered(0)).paused ==>
                && f.result in {Progress(TurnActionConfirmed), Idle(Policy), Stopped}
                && Supports(old(Answered(DecisionCall())), f.result)
      ensures f.Returns? ==> Supported(responses, old(asked), asked, f.result)
      ensures Does(Turning(Sc(), old(Here())), f)
    {
      hide Starting, Deciding;
      f := DeferIfPaused();
      if f.Continues? {
        f := EnsureStrategyInitialized();
        if f.Continues? {
          f := AskStrategy();
        }
      }
    }

    /** The strategy's own turn. */
    method AskStrategy() returns (f: Flow)
      requires Underway()
      modifies this
      ensures asked == old(asked) + 1 && history == old(history) && acknowledged == old(acknowledged)
      ensures FlowFits(f) && !f.Continues? && f != Returns(Idle(Paused))
      ensures f.Returns? <==> old(Answered(0)).decision.Gives?
      ensures f.Returns? ==>
                f.result in {Progress(TurnActionConfirmed), Idle(Policy), Stopped} && Supports(old(Answered(0)), f.result)
      ensures Does(Deciding(Sc(), old(Here())), f)
    {
      var r := Next();
      match r.decision {
        case Fails(failure) => return Throws(failure);
        case Gives(Stops) => return Returns(Stopped);
        case Gives(Idles) => return Returns(Idle(Policy));
        case Gives(Acted) =>
          recoveryPending := false;
          var progress := ConfirmedProgress(TurnActionConfirmed);
          return Returns(progress);
      }
    }

    /** One pass through the body of the step's loop; Continues looks at the page again. */
    method OnePass() returns (f: Flow)
      requires Underway()
      modifies this
      ensures FlowFits(f) && GrowsByAtMostOneAcknowledgement() && old(asked) < asked
      ensures f.Continues? ==> old(PageReadInTime()) && old(PageRead()).Challenge?
      ensures f.Continues? ==>
                && Underway() && history == old(history) && acknowledged == old(acknowledged)
                && old(asked) < |responses|
      ensures f.Returns? ==> Earns(f.result)
      ensures f.Throws? && f.failure.UnknownAction? ==> history == old(history) && acknowledged == old(acknowledged)
      ensures f.Returns? && !R.NeedsNoPage(f.result) ==> old(PageReadInTime()) && R.Fitting(old(PageRead()), f.result)
      ensures Does(Passing(Sc(), old(Here())), f)
    {
      hide Preparing, Acting, Deferring, R.PageReadInTime;
      var phase;
      f, phase := PrepareTurn();
      if !f.Continues? {
        return;
      }
      if phase.NotReady? {
        f := DeferStateNotReady();
        return;
      }
      if !phase.Absent? {
        ClearStateReadiness();
        transitionPending := false;
      }
      f := ActOnPage(phase);
    }

    /** What the page leads to, once it is known to be ready; a challenge makes the runner look again. */
    method ActOnPage(phase: Phase) returns (f: Flow)
      requires Underway() && !phase.NotReady? && (phase.Absent? ==> readinessExpires.Some?)
      modifies this
      ensures FlowFits(f) && GrowsByAtMostOneAcknowledgement() && old(asked) < asked
      ensures f.Continues? <==> phase.Challenge? && old(Answered(0)).ponychart == Gives(NotPresent)
      ensures f.Continues? ==> Underway() && history == old(history) && acknowledged == old(acknowledged)
      ensures f.Returns? ==> Earns(f.result)
      ensures f.Returns? && !R.NeedsNoPage(f.result) ==> R.Fitting(phase, f.result)
      ensures f.Throws? && f.failure.UnknownAction? ==> history == old(history) && acknowledged == old(acknowledged)
      ensures Does(Acting(Sc(), old(Here()), phase), f)
    {
      f := ResolvePonychart();
      if !f.Continues? {
        return;
      }
      match phase {
        case Challenge =>
        case Complete => f := CompleteUnlessPaused();
        case Absent => f := ConfirmTransition();
        case NextFloor => f := GoNextFloor();
        case Active => f := TakeTurn();
      }
    }

    /** The handlers around the loop's body. */
    method Handle(failure: Failure) returns (r: Result)
      requires Valid() && completed.None?
      modifies this
      ensures Fits(r) && history == old(history) && acknowledged == old(acknowledged) && old(asked) <= asked && !r.Finished?
      ensures Reconciles(Stepped(r)) ==> failure == UnknownAction(true) && !old(recoveryPending)
      ensures !failure.UnknownAction? ==> asked == old(asked) && (r.Raised? || r.RaisedLost?)
      ensures Supported(responses, old(asked), asked, r) || r.Raised? || r.RaisedLost? || r.RaisedExhausted?
      ensures old(isIsekai).Some? ==> End(r, Here()) == Handling(Sc(), old(Here()), failure)
    {
      match failure {
        case UnknownAction(eligible) => r := ReconcileUnknownAction(eligible);
        case BrowserTimeout => return Raised("battle.browser-operation-timeout");
        case TimedOut => return Raised("battle.turn-timeout");
        case _ => return Reported(failure);
      }
    }

    method StepUnlocked() returns (r: Result)
      requires Valid() && completed.None?
      modifies this
      ensures Fits(r) && GrowsByAtMostOneAcknowledgement() && old(asked) <= asked
      ensures Earns(r) || r.Raised? || r.RaisedLost? || r.RaisedExhausted?
      ensures End(r, Here()) == Stepping(Sc(), old(Here()))
    {
      hide Passing, Presenting, Handling;
      var f := EnsurePresenceInitialized();
      match f {
        case Returns(result) => return result;
        case Throws(failure) => return Reported(failure);
        case Continues =>
      }
      ghost var open := Here();
      while true
        invariant Underway() && history == old(history) && old(asked) <= asked && acknowledged == old(acknowledged)
        invariant Looking(Sc(), Here()) == Looking(Sc(), open)
        decreases |responses| - asked
      {
        f := OnePass();
        match f {
          case Returns(result) => return result;
          case Throws(failure) => r := Handle(failure); return;
          case Continues =>
        }
      }
    }

    ghost method Record(h: Happening)
      requires h.Stepped? && Fits(h.result)
      modifies this`history
      ensures Valid() && history == old(history) + [h]
    {
      Appended(history, h);
      history := history + [h];
    }

    /** `step`: the cached completion, or one result, which the history then ends in. */
    method Step() returns (r: Result)
      requires Valid()
      modifies this
      ensures Valid() && old(asked) <= asked
      ensures old(completed).Some? ==>
                r == Finished(old(completed).value) && history == old(history) + [Stepped(r)]
                && completed == old(completed) && asked == old(asked) && acknowledged == old(acknowledged)
      ensures || (acknowledged == old(acknowledged) && history == old(history) + [Stepped(r)])
              || (acknowledged == old(acknowledged) + 1
                  && history == old(history) + [Acknowledged(old(WouldConfirm()))] + [Stepped(r)])
      ensures r.Finished? <==> completed.Some?
      ensures r.Finished? ==> completed == Some(r.completed)
      ensures old(completed).None? ==>
                || (if r.Finished? then old(WouldConfirm()) && acknowledged == old(acknowledged) + 1
                    else Supported(responses, old(asked), asked, r))
                || r.Raised? || r.RaisedLost? || r.RaisedExhausted?
      ensures (Stepped(r), Here()) == Obeying(Sc(), old(Here()), DoStep)
    {
      hide Stepping;
      if completed.Some? {
        r := Finished(completed.value);
      } else {
        r := StepUnlocked();
      }
      Record(Stepped(r));
    }

    /** Every field is as in a new runner. */
    method ClearBattle()
      modifies this
      ensures Here() == Resetting(old(Here())) && history == old(history)
    {
      presenceInitialized, strategyInitialized, initializationError := false, false, None;
      isIsekai := None;
      ClearStateReadiness();
      recoveryPending := false;
      completed := None;
      transitionPending := false;
    }

    /** `reset_for_next_battle`: refused unless the completion was confirmed. */
    method ResetForNextBattle() returns (ok: bool)
      requires Valid()
      modifies this
      ensures Valid() && ok == old(completed).Some? && asked == old(asked) && acknowledged == old(acknowledged)
      ensures history == old(history) + [if ok then WasReset else ResetRefused]
      ensures completed.None? && (if ok then !recoveryPending else recoveryPending == old(recoveryPending))
      ensures (if ok then WasReset else ResetRefused, Here()) == Obeying(Sc(), old(Here()), DoReset)
    {
      hide Stepping;
      if completed.None? {
        Appended(history, ResetRefused);
        history := history + [ResetRefused];
        return false;
      }
      ClearBattle();
      Appended(history, WasReset);
      history := history + [WasReset];
      return true;
    }

    /** One command, and what its caller sees of it. */
    method Obey(command: Command) returns (h: Happening)
      requires Valid()
      modifies this
      ensures Valid() && old(asked) <= asked && (h.Stepped? <==> command.DoStep?) && !h.Acknowledged?
      ensures Seen(history, |history|) == old(Seen(history, |history|)) + [h]
      ensures old(completed).Some? ==> h.WasReset? || h == Stepped(Finished(old(completed).value))
      ensures completed == match h {
          case WasReset => None
          case Stepped(Finished(result)) => Some(result)
          case _ => old(completed)
        }
      ensures old(completed).None? || h.WasReset? ==> Earned(responses, asked, acknowledgements, acknowledged, h)
      ensures old(acknowledged) <= acknowledged
      ensures old(Recorded()) == Confirmations(acknowledgements, old(acknowledged)) ==>
                Recorded() == Confirmations(acknowledgements, acknowledged)
      ensures (h, Here()) == Obeying(Sc(), old(Here()), command)
    {
      hide Stepping, Obeying;
      match command {
        case DoStep =>
          var r := Step();
          h := Stepped(r);
        case DoReset =>
          var ok := ResetForNextBattle();
          h := if ok then WasReset else ResetRefused;
      }
      SeenPrefix(old(history), history, |old(history)|);
      RecordsPrefix(old(history), history, |old(history)|);
      if acknowledged != old(acknowledged) {
        assert Records(history, |old(history)| + 1) == old(Recorded()) + [old(WouldConfirm())];
      }
    }
  }

  // ---------- whole runs ----------

  datatype Command = DoStep | DoReset

  /** What a command is answered, and the fields behind it; a cached completion asks the environment nothing. */
  function Obeying(sc: Script, s: Situation, command: Command): (r: (Happening, Situation))
    requires Knowing(s)
    ensures Knowing(r.1)
  {
    match command
    case DoStep =>
      if s.completed.Some? then (Stepped(Finished(s.completed.value)), s)
      else var end := Stepping(sc, s); (Stepped(end.result), end.after)
    case DoReset => if s.completed.Some? then (WasReset, Resetting(s)) else (ResetRefused, s)
  }

  /** What the first n commands to a new runner are answered, one after another. */
  function Performing(sc: Script, commands: seq<Command>, n: nat): (r: (seq<Happening>, Situation))
    requires n <= |commands|
    ensures Knowing(r.1) && |r.0| == n
  {
    if n == 0 then ([], NEW)
    else
      var (results, s) := Performing(sc, commands, n - 1);
      var (h, after) := Obeying(sc, s, commands[n - 1]);
      (results + [h], after)
  }

  /** What a caller gets to see of the first n happenings: one entry for each command. */
  function Seen(history: seq<Happening>, n: nat): seq<Happening>
    requires n <= |history|
  {
    if n == 0 then []
    else if history[n - 1].Acknowledged? then Seen(history, n - 1)
    else Seen(history, n - 1) + [history[n - 1]]
  }

  lemma {:induction false} SeenPrefix(history: seq<Happening>, longer: seq<Happening>, n: nat)
    requires n <= |history| <= |longer| && forall k | 0 <= k < n :: history[k] == longer[k]
    ensures Seen(history, n) == Seen(longer, n)
  {
    if 0 < n { SeenPrefix(history, longer, n - 1); }
  }

  /** The acknowledgements among the first n happenings. */
  function Records(history: seq<Happening>, n: nat): seq<bool>
    requires n <= |history|
  {
    if n == 0 then []
    else if history[n - 1].Acknowledged? then Records(history, n - 1) + [history[n - 1].confirmed]
    else Records(history, n - 1)
  }

  lemma {:induction false} RecordsPrefix(history: seq<Happening>, longer: seq<Happening>, n: nat)
    requires n <= |history| <= |longer| && forall k | 0 <= k < n :: history[k] == longer[k]
    ensures Records(history, n) == Records(longer, n)
  {
    if 0 < n { RecordsPrefix(history, longer, n - 1); }
  }

  /** What the first n acknowledgements were answered. */
  function Confirmations(answers: seq<Answer<bool>>, n: nat): seq<bool> {
    if n == 0 then [] else Confirmations(answers, n - 1) + [Acknowledgement(answers, n - 1).Gives?]
  }

  function Trues(flags: seq<bool>): nat {
    if flags == [] then 0 else Trues(flags[..|flags| - 1]) + if flags[|flags| - 1] then 1 else 0
  }

  function Resets(history: seq<Happening>, n: nat): nat
    requires n <= |history|
  {
    if n == 0 then 0 else Resets(history, n - 1) + if history[n - 1].WasReset? then 1 else 0
  }

  lemma TruesAppended(flags: seq<bool>, flag: bool)
    ensures Trues(flags + [flag]) == Trues(flags) + if flag then 1 else 0
  {
    assert (flags + [flag])[..|flags|] == flags;
  }

  /** Finality counted: at most one confirmed acknowledgement for each reset, and one more. */
  lemma {:induction false} OneConfirmationPerReset(history: seq<Happening>, n: nat)
    requires n <= |history| && Balance(history, n).isFinal
    ensures Trues(Records(history, n)) <= Resets(history, n) + if Balance(history, n).done then 1 else 0
  {
    if 0 < n {
      OneConfirmationPerReset(history, n - 1);
      if history[n - 1].Acknowledged? {
        TruesAppended(Records(history, n - 1), history[n - 1].confirmed);
      }
    }
  }

  lemma {:induction false} ResetsAreSeen(history: seq<Happening>, n: nat)
    requires n <= |history|
    ensures Resets(Seen(history, n), |Seen(history, n)|) == Resets(history, n)
  {
    if 0 < n {
      ResetsAreSeen(history, n - 1);
      if !history[n - 1].Acknowledged? {
        ResetsPrefix(Seen(history, n - 1), Seen(history, n), |Seen(history, n - 1)|);
      }
    }
  }

  lemma {:induction false} ResetsPrefix(history: seq<Happening>, longer: seq<Happening>, n: nat)
    requires n <= |history| <= |longer| && forall k | 0 <= k < n :: history[k] == longer[k]
    ensures Resets(history, n) == Resets(longer, n)
  {
    if 0 < n { ResetsPrefix(history, longer, n - 1); }
  }

  /** The caller can audit the budget from the results alone. */
  lemma {:induction false} SeenKeepsTheBudget(history: seq<Happening>, n: nat)
    requires n <= |history|
    ensures var seen := Seen(history, n);
            && Balance(seen, |seen|).spent == Balance(history, n).spent
            && Balance(seen, |seen|).withinBudget == Balance(history, n).withinBudget
  {
    if 0 < n {
      SeenKeepsTheBudget(history, n - 1);
      Appended(Seen(history, n - 1), history[n - 1]);
    }
  }

  /** The completion that the first n results announce and no later reset has cleared. */
  function Standing(results: seq<Happening>, n: nat): Option<Completed>
    requires n <= |results|
  {
    if n == 0 then None
    else
      match results[n - 1]
      case WasReset => None
      case Stepped(Finished(completed)) => Some(completed)
      case _ => Standing(results, n - 1)
  }

  lemma {:induction false} StandingPrefix(results: seq<Happening>, longer: seq<Happening>, n: nat)
    requires n <= |results| <= |longer| && forall k | 0 <= k < n :: results[k] == longer[k]
    ensures Standing(results, n) == Standing(longer, n)
  {
    if 0 < n { StandingPrefix(results, longer, n - 1); }
  }

  /** Every result after an announced completion repeats it, until a reset. */
  ghost predicate Repeating(results: seq<Happening>) {
    forall i: nat | i < |results| && Standing(results, i).Some? ::
      results[i].WasReset? || results[i] == Stepped(Finished(Standing(results, i).value))
  }

  lemma RepeatingAppended(results: seq<Happening>, h: Happening)
    requires Repeating(results)
    requires Standing(results, |results|).Some? ==>
               h.WasReset? || h == Stepped(Finished(Standing(results, |results|).value))
    ensures Repeating(results + [h])
  {
    forall i: nat | i < |results + [h]| && Standing(results + [h], i).Some?
      ensures (results + [h])[i].WasReset?
              || (results + [h])[i] == Stepped(Finished(Standing(results + [h], i).value))
    {
      StandingPrefix(results, results + [h], i);
    }
  }

  /** So an announced completion is what every later command returns, until a reset. */
  lemma {:induction false} CompletionRepeats(results: seq<Happening>, i: nat, j: nat)
    requires Repeating(results) && i < j < |results| && results[i].Stepped? && results[i].result.Finished?
    requires forall k | i < k <= j :: !results[k].WasReset?
    ensures results[j] == results[i] && Standing(results, j) == Some(results[i].result.completed)
  {
    if i < j - 1 { CompletionRepeats(results, i, j - 1); }
  }

  /** A result that is no error was supported by an answer, a completion by a confirmed acknowledgement. */
  predicate Earned(responses: seq<Response>, calls: nat, acknowledgements: seq<Answer<bool>>, made: nat, h: Happening) {
    h.Stepped? ==>
      || (if h.result.Finished? then exists n | 0 <= n < made :: Acknowledgement(acknowledgements, n).Gives?
          else Supported(responses, 0, calls, h.result))
      || h.result.Raised? || h.result.RaisedLost? || h.result.RaisedExhausted?
  }

  /** A recovery of the run is followed by a receipt or a reset before the next one. */
  ghost predicate Separated(results: seq<Happening>) {
    forall i: nat, j: nat | i < j < |results| && Reconciles(results[i]) && Reconciles(results[j]) ::
      exists k | i < k < j :: Refills(results[k])
  }

  /**
   Any list of steps and resets on a new runner: one result for each command, every one earned from an answer of
   the environment; recoveries are separated by receipts or resets, and an announced completion repeats until a
   reset. The history records every acknowledgement made, as it was answered: no more of them are confirmed than
   there are battles between the resets.
   */
  method RunCommands(readinessTimeout: int, responses: seq<Response>, acknowledgements: seq<Answer<bool>>,
      commands: seq<Command>)
    returns (results: seq<Happening>, calls: nat, made: nat, ghost history: seq<Happening>)
    requires 0 < readinessTimeout
    ensures |results| == |commands|
    ensures forall i | 0 <= i < |results| :: results[i].Stepped? <==> commands[i].DoStep?
    ensures forall i | 0 <= i < |results| :: Earned(responses, calls, acknowledgements, made, results[i])
    ensures Separated(results) && Repeating(results)
    ensures Trues(Confirmations(acknowledgements, made)) <= Resets(results, |results|) + 1
    ensures results == Seen(history, |history|) && Records(history, |history|) == Confirmations(acknowledgements, made)
    ensures Final(history) && WithinBudget(history)
    ensures results == Performing(Script(readinessTimeout, responses, acknowledgements), commands, |commands|).0
  {
    hide Obeying;
    ghost var sc := Script(readinessTimeout, responses, acknowledgements);
    var runner := new BattleRunner(readinessTimeout, responses, acknowledgements);
    results := [];
    for n := 0 to |commands|
      invariant runner.Valid() && fresh(runner)
      invariant runner.responses == responses && runner.acknowledgements == acknowledgements
      invariant |results| == n && runner.Sc() == sc && (results, runner.Here()) == Performing(sc, commands, n)
      invariant forall i | 0 <= i < n :: results[i].Stepped? <==> commands[i].DoStep?
      invariant forall i | 0 <= i < n ::
                  Earned(responses, runner.asked, acknowledgements, runner.acknowledged, results[i])
      invariant results == Seen(runner.history, |runner.history|)
      invariant runner.Recorded() == Confirmations(acknowledgements, runner.acknowledged)
      invariant Repeating(results) && runner.completed == Standing(results, n)
    {
      var h := runner.Obey(commands[n]);
      RepeatingAppended(results, h);
      StandingPrefix(results, results + [h], n);
      results := results + [h];
    }
    calls, made, history := runner.asked, runner.acknowledged, runner.history;
    SeenKeepsTheBudget(history, |history|);
    OneConfirmationPerReset(history, |history|);
    ResetsAreSeen(history, |history|);
    forall i: nat, j: nat | i < j < |results| && Reconciles(results[i]) && Reconciles(results[j])
      ensures exists k | i < k < j :: Refills(results[k])
    {
      RecoveriesAreSeparated(results, i, j);
    }
  }
}
