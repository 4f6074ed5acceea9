/** What one page observation proves about a submitted action, and the monitor a recovery is given. */
module ReceiptEvidence {
  import opened Bytes
  import opened Audit

  /** The page's record of the action's requests; response flags are false until a response was parsed. */
  datatype Monitor = Monitor(
    sent: bool, sentCount: nat, requestAge: Option<real>, completed: bool, status: Option<int>,
    outcome: Option<string>, logMutations: nat, parseOk: Option<bool>, hasTextlog: bool,
    hasPaneCompletion: bool, hasError: bool, hasReload: bool, hasLogin: bool)

  datatype State = State(
    document: string, battleNode: Option<string>, ready: string, battlePresent: bool,
    logRevision: Option<string>, round: Option<nat>, completionPresent: bool, battleCompletePresent: bool,
    completionRevision: Option<string>, nextFloorPresent: bool, ponychartPresent: bool,
    actionControls: nat, monitor: Option<Monitor>)

  const STALLED_XHR_MINIMUM_AGE_MS: real := 5000.0

  predicate NormalResponse(m: Option<Monitor>) {
    && m.Some? && m.value.sent && m.value.sentCount == 1 && m.value.completed
    && m.value.status == Some(200) && m.value.outcome == Some("load") && m.value.parseOk == Some(true)
    && !m.value.hasError && !m.value.hasReload && !m.value.hasLogin
  }

  predicate AtMostOneDispatch(m: Option<Monitor>) {
    m.None? || m.value.sentCount == if m.value.sent then 1 else 0
  }

  predicate StalledSingleXhr(m: Option<Monitor>) {
    && m.Some? && m.value.sent && m.value.sentCount == 1 && !m.value.completed
    && m.value.status.None? && m.value.outcome.None?
    && m.value.requestAge.Some? && m.value.requestAge.value >= STALLED_XHR_MINIMUM_AGE_MS
  }

  function ConfirmedAction(before: State, current: State): Option<Evidence> {
    if current.document != before.document || !NormalResponse(current.monitor) then None
    else
      var m := current.monitor.value;
      if m.hasTextlog && m.logMutations > 0 then Some(XhrLogMutation)
      else if m.hasTextlog && current.logRevision.Some? && current.logRevision != before.logRevision
      then Some(XhrLogRevision)
      else if m.hasPaneCompletion
              && (current.completionRevision != before.completionRevision
                  || (current.completionPresent && !before.completionPresent))
      then Some(if current.battleCompletePresent then XhrBattleCompletion
                else if current.nextFloorPresent then XhrRoundCompletion
                else XhrCompletionPane)
      else None
  }

  function ConfirmedTransition(before: State, current: State): Option<Evidence> {
    if current.ponychartPresent && !before.ponychartPresent then Some(PonychartPresent)
    else if current.battleCompletePresent && !before.battleCompletePresent then Some(BattleCompletionPresent)
    else
      var changed := current.document != before.document || current.battleNode != before.battleNode;
      var advanced := before.round.Some? && current.round.Some? && current.round.value > before.round.value;
      var initialized := before.nextFloorPresent && before.round.None? && current.round.Some?;
      var actionable := current.battlePresent && current.logRevision.Some? && !current.nextFloorPresent
                        && current.actionControls > 0;
      var ready := current.ready == "interactive" || current.ready == "complete";
      if advanced && actionable && changed && ready then Some(GenerationRoundAdvanced)
      else if advanced && actionable && !changed then Some(RoundAdvanced)
      else if initialized && actionable && changed && ready then Some(GenerationRoundInitialized)
      else if initialized && actionable && !changed && current.logRevision != before.logRevision
      then Some(RoundInitialized)
      else None
  }

  /** A page that was already showing a normal response with log mutations when the monitor was armed. */
  predicate SelfConfirming(before: State) {
    NormalResponse(before.monitor) && before.monitor.value.hasTextlog && before.monitor.value.logMutations > 0
  }

  /** The monitor that the arming read itself creates: it has seen no request yet. */
  predicate FreshlyArmed(before: State) {
    before.monitor.Some? && !before.monitor.value.sent && before.monitor.value.sentCount == 0
  }

  /** A turn's baseline confirms itself exactly then, which a freshly armed one never does. */
  lemma TurnConfirmsItselfExactlyWhen(before: State)
    ensures ConfirmedAction(before, before).Some? <==> SelfConfirming(before)
    ensures FreshlyArmed(before) ==> !SelfConfirming(before)
  {
  }

  lemma TransitionNeverConfirmsItself(before: State)
    ensures ConfirmedTransition(before, before).None?
  {
  }

  /** Every turn evidence is a single dispatch with a normal response from the same document. */
  lemma TurnEvidenceIsOneDispatch(before: State, current: State)
    requires ConfirmedAction(before, current).Some?
    ensures current.document == before.document && current.monitor.Some?
    ensures current.monitor.value.sentCount == 1 && AtMostOneDispatch(current.monitor)
  {
  }

  /** The response wrote to the log, or the log's revision is another one. */
  predicate LogShows(before: State, current: State)
    requires current.monitor.Some?
  {
    current.monitor.value.hasTextlog
    && (current.monitor.value.logMutations > 0
        || (current.logRevision.Some? && current.logRevision != before.logRevision))
  }

  /** The response carried a completion pane that was not on the page before. */
  predicate PaneShows(before: State, current: State)
    requires current.monitor.Some?
  {
    current.monitor.value.hasPaneCompletion
    && (current.completionRevision != before.completionRevision || (current.completionPresent && !before.completionPresent))
  }

  /** A turn is confirmed exactly by a normal response in the same document that shows in the log or as a completion. */
  lemma TurnConfirmsExactlyWhen(before: State, current: State)
    ensures ConfirmedAction(before, current).Some? <==>
            && current.document == before.document && NormalResponse(current.monitor)
            && (LogShows(before, current) || PaneShows(before, current))
    ensures ConfirmedAction(before, current).Some? ==>
              match ConfirmedAction(before, current).value
              case XhrLogMutation => current.monitor.value.logMutations > 0
              case XhrLogRevision => LogShows(before, current) && current.monitor.value.logMutations == 0
              case XhrBattleCompletion => !LogShows(before, current) && current.battleCompletePresent
              case XhrRoundCompletion =>
                !LogShows(before, current) && !current.battleCompletePresent && current.nextFloorPresent
              case XhrCompletionPane =>
                !LogShows(before, current) && !current.battleCompletePresent && !current.nextFloorPresent
              case _ => false
  {
  }

  /** The page went on to a new round: a later one, or the first one after the next-floor control. */
  predicate RoundMoved(before: State, current: State) {
    current.round.Some?
    && (if before.round.Some? then current.round.value > before.round.value else before.nextFloorPresent)
  }

  predicate NewPage(before: State, current: State) {
    current.document != before.document || current.battleNode != before.battleNode
  }

  /**
   A transition is confirmed exactly by a challenge or a completion that appears, or by a round that moved on an
   actionable page: a new page must be ready, and a first round on the old page must show another log.
   */
  lemma TransitionConfirmsExactlyWhen(before: State, current: State)
    ensures ConfirmedTransition(before, current).Some? <==>
            || (current.ponychartPresent && !before.ponychartPresent)
            || (current.battleCompletePresent && !before.battleCompletePresent)
            || (RoundMoved(before, current)
                && current.battlePresent && current.logRevision.Some? && !current.nextFloorPresent
                && current.actionControls > 0
                && if NewPage(before, current) then current.ready in {"interactive", "complete"}
                   else before.round.Some? || current.logRevision != before.logRevision)
  {
  }

  // ---------- the retained monitor ----------

  /** The monitor of the latest probe that saw one: a navigation hides the page's monitor but not this. */
  function LastVisible(initial: Option<Monitor>, probes: seq<State>): Option<Monitor> {
    if probes == [] then initial
    else if probes[|probes| - 1].monitor.Some? then probes[|probes| - 1].monitor
    else LastVisible(initial, probes[..|probes| - 1])
  }

  /** The page's send count only grows while its monitor is visible. */
  predicate CountsGrow(probes: seq<State>) {
    forall i, j | 0 <= i < j < |probes| && probes[i].monitor.Some? && probes[j].monitor.Some? ::
      probes[i].monitor.value.sentCount <= probes[j].monitor.value.sentCount
  }

  /** Once a probe saw a second dispatch, the retained monitor keeps showing at least that many. */
  lemma {:induction false} DuplicateIsRetained(initial: Option<Monitor>, probes: seq<State>, i: nat)
    requires CountsGrow(probes) && i < |probes| && probes[i].monitor.Some?
    ensures LastVisible(initial, probes).Some?
    ensures probes[i].monitor.value.sentCount <= LastVisible(initial, probes).value.sentCount
  {
    if probes[|probes| - 1].monitor.None? {
      DuplicateIsRetained(initial, probes[..|probes| - 1], i);
    }
  }

  // ---------- the evidence a recovery decides on ----------

  datatype Kind = Turn | NextFloor

  /** The dialog is the category bound to this action, if any; documents are "unknown" when never read. */
  datatype RecoveryEvidence = RecoveryEvidence(
    id: ActionId, kind: Kind, clickStarted: bool, pendingFiveSeconds: bool,
    preClickDocument: string, postClickDocument: string, dialog: Option<string>,
    sent: bool, sentCount: nat, completed: bool, status: Option<int>, outcome: Option<string>)

  const UNKNOWN_DOCUMENT := "unknown"

  /** Freezes the retained monitor when the outcome is unknown. */
  function Freeze(id: ActionId, kind: Kind, pre: string, post: string, dialog: Option<string>, m: Option<Monitor>)
    : RecoveryEvidence
  {
    if m.None? then RecoveryEvidence(id, kind, true, false, pre, post, dialog, false, 0, false, None, None)
    else
      RecoveryEvidence(id, kind, true, StalledSingleXhr(m), pre, post, dialog,
                       m.value.sent, m.value.sentCount, m.value.completed, m.value.status, m.value.outcome)
  }

  predicate KnownDocument(d: string) { d != "" && d != UNKNOWN_DOCUMENT }

  predicate ValidEnvelope(e: RecoveryEvidence) {
    e.clickStarted && KnownDocument(e.preClickDocument) && KnownDocument(e.postClickDocument)
  }

  predicate MatchesCommunicationFailure(e: RecoveryEvidence) {
    && ValidEnvelope(e) && e.dialog == Some("server-communication-failed")
    && ((e.completed && e.sent && e.sentCount == 1 && e.status == Some(0) && e.outcome == Some("error"))
        || (!e.completed && e.status.None? && e.outcome.None? && e.sentCount == if e.sent then 1 else 0))
  }

  predicate MatchesStalledXhr(e: RecoveryEvidence) {
    && ValidEnvelope(e) && e.pendingFiveSeconds && e.preClickDocument == e.postClickDocument && e.dialog.None?
    && e.sent && e.sentCount == 1 && !e.completed && e.status.None? && e.outcome.None?
  }

  predicate AllowsRecovery(e: RecoveryEvidence) {
    MatchesCommunicationFailure(e) || MatchesStalledXhr(e)
  }

  /** Evidence frozen from a monitor that saw a second dispatch never permits a reload. */
  lemma DuplicateForbidsRecovery(id: ActionId, kind: Kind, pre: string, post: string, dialog: Option<string>,
      m: Option<Monitor>)
    requires m.Some? && m.value.sentCount > 1
    ensures !AllowsRecovery(Freeze(id, kind, pre, post, dialog, m))
  {
  }

  /** The two incidents that permit one never coincide: a stalled request has no dialog, a failure has one. */
  lemma IncidentsAreDisjoint(e: RecoveryEvidence)
    ensures !(MatchesCommunicationFailure(e) && MatchesStalledXhr(e))
  {
  }

  lemma StalledExactlyWhen(id: ActionId, kind: Kind, pre: string, post: string, dialog: Option<string>, m: Option<Monitor>)
    ensures MatchesStalledXhr(Freeze(id, kind, pre, post, dialog, m)) <==>
            StalledSingleXhr(m) && dialog.None? && pre == post && KnownDocument(pre)
  {
  }

  /** It reads as a communication failure exactly behind that dialog: no dispatch, one unanswered, or one that failed. */
  lemma FailureExactlyWhen(id: ActionId, kind: Kind, pre: string, post: string, dialog: Option<string>, m: Option<Monitor>)
    ensures MatchesCommunicationFailure(Freeze(id, kind, pre, post, dialog, m)) <==>
            && KnownDocument(pre) && KnownDocument(post) && dialog == Some("server-communication-failed")
            && (m.None?
                || (AtMostOneDispatch(m) && !m.value.completed && m.value.status.None? && m.value.outcome.None?)
                || (m.value.sent && m.value.sentCount == 1 && m.value.completed
                    && m.value.status == Some(0) && m.value.outcome == Some("error")))
  {
  }
}
