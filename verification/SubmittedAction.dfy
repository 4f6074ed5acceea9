/**
 The submission of one turn and of one round transition: intent, one click, a polling loop for the receipt,
 and a final probe. The environment decides every probe, error, deadline check and cancellation.
 */
module SubmittedAction {
  import opened Bytes
  import opened Audit
  import opened ReceiptEvidence

  /** How a page read ends; Lost is a browser-generation error, Failed any other error but a timeout. */
  datatype Probe = Read(state: State) | TimedOut | Failed | Lost | Cancelled

  /** One turn of the polling loop: its deadline checks say whether time remains when they are made. */
  datatype Round = Round(live: bool, probe: Probe, readLive: bool, acceptLive: bool, sleepCancelled: bool)

  /** The final probe, and whether its evidence is accepted in time. */
  datatype Final = Final(live: bool, probe: Probe, readLive: bool, acceptLive: bool)

  datatype Click = Clicked | ClickFailed | ClickLost | ClickCancelled

  /** How removing the page's monitor ends: an ordinary error is swallowed, a lost browser or a cancellation is not. */
  datatype Cleanup = CleanedUp | CleanupLost | CleanupCancelled

  /** The environment of one call; the deadline expires when the rounds run out. */
  datatype Environment = Environment(
    prepared: Probe,         // the selector lookup and the read that arms the monitor
    preparationLive: bool,
    observes: bool,          // the dialog observation begins without an exception
    click: Click,
    rounds: seq<Round>,
    final: Final,
    dialog: Option<string>,  // the category of a dialog that opened during the action
    cleanupLive: bool,       // time remains for the cleanup of the page's monitor
    cleanup: Cleanup)
  {
    /** The preparation succeeds, so that the click is issued and its outcome awaited. */
    predicate Clicks() {
      prepared.Read? && preparationLive && observes && (click.Clicked? || click.ClickFailed?)
    }
  }

  /** Raised is any exception but the outcome-unknown one. */
  datatype Result = Returned | Unknown(recovery: RecoveryEvidence) | Raised

  /** Local variables of a call after its click. */
  datatype Progress = Progress(
    last: State, monitor: Option<Monitor>, probed: bool, timedOut: bool, troubled: bool, cleanupSafe: bool)

  datatype PollExit = Confirmed | GaveUp | Aborted

  datatype Judgement = Continues | Ends(exit: PollExit)

  /** The intent is written, nothing resolved it yet, and every write so far succeeded. */
  ghost predicate Open(trail: ActionAuditTrail)
    reads trail, trail.bus
  {
    trail.Valid() && trail.intentRecorded && !trail.Resolved() && !trail.bus.failed
  }

  ghost predicate InUse(trail: ActionAuditTrail)
    reads trail, trail.bus
  {
    trail.Valid() && trail.intentRecorded
  }

  /** The intent is resolved exactly once, unless the bus failed. */
  ghost predicate Closed(trail: ActionAuditTrail)
    reads trail, trail.bus
  {
    InUse(trail) && (!trail.bus.failed ==> trail.Resolved() && !(trail.outcomeUnknown && trail.reconciliationConfirmed))
  }

  /** Other actions' traces are as they were. */
  twostate predicate OnlyThis(bus: AuditEventBus, id: ActionId)
    reads bus
  {
    && (old(bus.failed) ==> bus.failed) && (old(bus.Healthy()) ==> bus.Healthy())
    && forall other: ActionId | other != id :: TraceOf(bus.log, other) == TraceOf(old(bus.log), other)
  }

  /** What a call knows is what its in-deadline probes showed. */
  ghost predicate Knows(p: Progress, before: State, initial: Option<Monitor>, accepted: seq<State>) {
    && p.last == (if accepted == [] then before else accepted[|accepted| - 1])
    && p.monitor == LastVisible(initial, accepted)
    && p.probed == (accepted != [])
  }

  function Newest(current: State, monitor: Option<Monitor>): Option<Monitor> {
    if current.monitor.Some? then current.monitor else monitor
  }

  ghost predicate Last(trace: seq<Event>, event: Event) {
    trace != [] && trace[|trace| - 1] == event
  }

  predicate SingleSend(monitor: Option<Monitor>) {
    monitor.Some? && monitor.value.sent && monitor.value.sentCount == 1
  }

  /** Some in-deadline probe saw exactly one request on its way. */
  ghost predicate SawSingleSend(accepted: seq<State>) {
    exists i :: 0 <= i < |accepted| && SingleSend(accepted[i].monitor)
  }

  /** A submission is marked for a single send that was read, and at most for one that the baseline shows besides. */
  ghost predicate Marked(submitted: bool, before: State, accepted: seq<State>) {
    && (SawSingleSend(accepted) ==> submitted)
    && (submitted ==> SawSingleSend(accepted) || SingleSend(before.monitor))
  }

  lemma AcceptOne(accepted: seq<State>, current: State, initial: Option<Monitor>)
    ensures SawSingleSend(accepted + [current]) <==> SawSingleSend(accepted) || SingleSend(current.monitor)
    ensures LastVisible(initial, accepted + [current]) == Newest(current, LastVisible(initial, accepted))
  {
    var all := accepted + [current];
    assert all[..|accepted|] == accepted && all[|accepted|] == current;
    if SawSingleSend(accepted) {
      var i :| 0 <= i < |accepted| && SingleSend(accepted[i].monitor);
      assert SingleSend(all[i].monitor);
    }
  }

  /** `observe_monitor`: a single send is recorded once. */
  method ObserveMonitor(trail: ActionAuditTrail, monitor: Option<Monitor>) returns (r: Audit.Outcome)
    requires InUse(trail)
    modifies trail`submitted, trail.bus
    ensures InUse(trail) && OnlyThis(trail.bus, trail.id)
    ensures r.Done? ==> (old(Open(trail)) ==> Open(trail))
    ensures !r.Done? ==> trail.bus.failed
    ensures old(trail.Resolved()) ==> trail.WroteNothing()
    ensures r.Done? ==> (trail.submitted <==> old(trail.submitted) || (SingleSend(monitor) && !old(trail.Resolved())))
  {
    r := Audit.Outcome.Done;
    if !trail.submitted && SingleSend(monitor) {
      r := trail.MarkSubmitted();
    }
  }

  /** Publishes the accepted evidence: a receipt, or a reconciliation when something went wrong before. */
  method Accept(trail: ActionAuditTrail, evidence: Evidence, troubled: bool) returns (r: Audit.Outcome)
    requires Open(trail)
    modifies trail, trail.bus
    ensures InUse(trail) && OnlyThis(trail.bus, trail.id) && trail.submitted == old(trail.submitted)
    ensures r.Done? ==>
              && !trail.bus.failed && trail.Resolved() && !trail.outcomeUnknown
              && Last(trail.Trace(), if troubled then ReconciliationConfirmed(evidence) else ReceiptConfirmed(evidence))
    ensures !r.Done? ==> trail.bus.failed
  {
    if troubled {
      r := trail.ConfirmReconciliation(evidence);
    } else {
      r := trail.ConfirmReceipt(evidence);
    }
  }

  predicate InTimeRead(r: Round) { r.live && r.probe.Read? && r.readLive }

  /** The page states that the first n rounds of the polling loop read before its deadline. */
  function Reads(rounds: seq<Round>, n: nat): seq<State>
    requires n <= |rounds|
  {
    if n == 0 then []
    else if InTimeRead(rounds[n - 1]) then Reads(rounds, n - 1) + [rounds[n - 1].probe.state]
    else Reads(rounds, n - 1)
  }

  ghost predicate ReadIn(rounds: seq<Round>, accepted: seq<State>) {
    exists n: nat | n <= |rounds| :: accepted == Reads(rounds, n)
  }

  /** The probes up to a round whose evidence was accepted before the deadline. */
  ghost predicate AcceptedInTime(rounds: seq<Round>, accepted: seq<State>) {
    exists n: nat | 0 < n <= |rounds| :: rounds[n - 1].acceptLive && accepted == Reads(rounds, n)
  }

  // ---------- what the environment leads to while every write succeeds ----------

  /** Evidence the call may accept: a transition must not have seen a second dispatch. */
  predicate Evident(kind: Kind, before: State, seen: State, monitor: Option<Monitor>) {
    match kind
    case Turn => ConfirmedAction(before, seen).Some?
    case NextFloor => ConfirmedTransition(before, seen).Some? && AtMostOneDispatch(monitor)
  }

  /** A turn whose request ended without a normal response has nothing to wait for. */
  predicate Hopeless(kind: Kind, seen: State) {
    kind.Turn? && seen.monitor.Some? && seen.monitor.value.completed && !NormalResponse(seen.monitor)
  }

  function Initial(kind: Kind, before: State): Option<Monitor> {
    if kind.Turn? then None else before.monitor
  }

  /** The probe of this round leaves the call waiting. */
  predicate LeavesOpen(kind: Kind, r: Round, evident: bool) {
    r.live && (r.probe.Failed? || (InTimeRead(r) && !evident && !Hopeless(kind, r.probe.state)))
  }

  /** An exception leaves the loop. */
  predicate Aborts(kind: Kind, r: Round, evident: bool) {
    r.live && (r.probe.Lost? || r.probe.Cancelled? || (r.sleepCancelled && LeavesOpen(kind, r, evident)))
  }

  /** A read or its evidence came after the deadline, so a command to the page may still be under way. */
  predicate Late(r: Round, evident: bool) {
    r.live && r.probe.Read? && (!r.readLive || (evident && !r.acceptLive))
  }

  /** What a round adds to the knowledge of the call. */
  predicate Learns(r: Round, p: Progress, q: Progress) {
    if InTimeRead(r) then q.last == r.probe.state && q.probed && q.monitor == Newest(r.probe.state, p.monitor)
    else q.last == p.last && q.probed == p.probed && q.monitor == p.monitor
  }

  lemma LearnsKnows(before: State, rounds: seq<Round>, n: nat, initial: Option<Monitor>, p: Progress, q: Progress)
    requires n < |rounds| && Knows(p, before, initial, Reads(rounds, n)) && Learns(rounds[n], p, q)
    ensures Knows(q, before, initial, Reads(rounds, n + 1))
    ensures SawSingleSend(Reads(rounds, n + 1)) <==>
            SawSingleSend(Reads(rounds, n)) || (InTimeRead(rounds[n]) && SingleSend(rounds[n].probe.state.monitor))
  {
    if InTimeRead(rounds[n]) { AcceptOne(Reads(rounds, n), rounds[n].probe.state, initial); }
  }

  /** What a round did, given that every write succeeded. */
  ghost predicate RoundEndsAs(kind: Kind, r: Round, evident: bool, next: Judgement, p: Progress, q: Progress) {
    && (next.Continues? <==> LeavesOpen(kind, r, evident) && !r.sleepCancelled)
    && (next == Ends(Confirmed) <==> evident && r.acceptLive)
    && (next == Ends(Aborted) <==> Aborts(kind, r, evident))
    && (q.timedOut <==> p.timedOut || Late(r, evident) || (r.live && r.probe.TimedOut?))
    && (q.cleanupSafe <==> p.cleanupSafe && !Late(r, evident))
    && (next.Continues? ==> (q.troubled <==> p.troubled || r.probe.Failed?))
    && (next == Ends(Confirmed) ==> (q.troubled <==> p.troubled))
  }

  /** The round shows evidence that the call may accept, given the latest monitor before it. */
  predicate Shows(kind: Kind, before: State, r: Round, monitor: Option<Monitor>) {
    InTimeRead(r) && Evident(kind, before, r.probe.state, Newest(r.probe.state, monitor))
  }

  predicate EvidentAt(kind: Kind, before: State, rounds: seq<Round>, n: nat)
    requires n < |rounds|
  {
    Shows(kind, before, rounds[n], LastVisible(Initial(kind, before), Reads(rounds, n)))
  }

  predicate Passes(kind: Kind, before: State, rounds: seq<Round>, n: nat)
    requires n < |rounds|
  {
    LeavesOpen(kind, rounds[n], EvidentAt(kind, before, rounds, n)) && !rounds[n].sleepCancelled
  }

  /** The polling loop ends in round n, or behind the last one. */
  predicate StopsAt(kind: Kind, before: State, rounds: seq<Round>, n: nat) {
    && n <= |rounds| && (forall i | 0 <= i < n :: Passes(kind, before, rounds, i))
    && (n < |rounds| ==> !Passes(kind, before, rounds, n))
  }

  predicate ConfirmsAt(kind: Kind, before: State, rounds: seq<Round>, n: nat) {
    n < |rounds| && EvidentAt(kind, before, rounds, n) && rounds[n].acceptLive
  }

  predicate AbortsAt(kind: Kind, before: State, rounds: seq<Round>, n: nat) {
    n < |rounds| && Aborts(kind, rounds[n], EvidentAt(kind, before, rounds, n))
  }

  predicate LateAt(kind: Kind, before: State, rounds: seq<Round>, n: nat) {
    n < |rounds| && Late(rounds[n], EvidentAt(kind, before, rounds, n))
  }

  predicate TimesOutAt(kind: Kind, before: State, rounds: seq<Round>, n: nat) {
    LateAt(kind, before, rounds, n) || (n < |rounds| && rounds[n].live && rounds[n].probe.TimedOut?)
  }

  /** The states read up to and with the round in which the loop ended. */
  function Polled(rounds: seq<Round>, n: nat): seq<State> {
    Reads(rounds, if n < |rounds| then n + 1 else |rounds|)
  }

  /** Some probe before round n failed. */
  predicate Disturbed(rounds: seq<Round>, n: nat) {
    exists i | 0 <= i < n && i < |rounds| :: rounds[i].probe.Failed?
  }

  /** What the loop that ended in round n did, given that every write succeeded. */
  ghost predicate PolledTo(kind: Kind, before: State, clickFailed: bool, rounds: seq<Round>, n: nat, exit: PollExit,
      p: Progress, accepted: seq<State>)
  {
    && (exit.Confirmed? ==> (p.troubled <==> clickFailed || Disturbed(rounds, n)))
    && StopsAt(kind, before, rounds, n) && accepted == Polled(rounds, n)
    && (exit.Confirmed? <==> ConfirmsAt(kind, before, rounds, n))
    && (exit.Aborted? <==> AbortsAt(kind, before, rounds, n))
    && (p.timedOut <==> TimesOutAt(kind, before, rounds, n))
    && (p.cleanupSafe <==> !LateAt(kind, before, rounds, n))
  }

  /** The states read in the whole call. */
  function ReadByEnd(polled: seq<State>, timedOut: bool, final: Final): seq<State> {
    if !timedOut && final.live && final.probe.Read? && final.readLive then polled + [final.probe.state] else polled
  }

  /** The states read in a call whose loop ends in round n. */
  function ReadWhen(kind: Kind, env: Environment, n: nat): seq<State>
    requires env.prepared.Read?
  {
    var before, polled := env.prepared.state, Polled(env.rounds, n);
    if ConfirmsAt(kind, before, env.rounds, n) then polled
    else ReadByEnd(polled, TimesOutAt(kind, before, env.rounds, n), env.final)
  }

  predicate FinalAborts(timedOut: bool, final: Final) {
    !timedOut && final.live && (final.probe.Lost? || final.probe.Cancelled?)
  }

  /** The final probe left a command under way; a transition thinks so only of a late answer. */
  predicate FinalLate(kind: Kind, timedOut: bool, final: Final) {
    !timedOut && final.live
    && ((final.probe.Read? && !final.readLive)
        || (kind.Turn? && (final.probe.TimedOut? || (final.probe.Failed? && !final.readLive))))
  }

  /** The evidence behind the final probe is there, and accepted in time. */
  predicate FinalConfirms(kind: Kind, before: State, all: seq<State>, final: Final) {
    var seen := if all == [] then before else all[|all| - 1];
    Evident(kind, before, seen, LastVisible(Initial(kind, before), all)) && final.acceptLive
  }

  /** The receipt is accepted in the loop, or after it. */
  predicate Accepts(kind: Kind, before: State, env: Environment, n: nat) {
    var timedOut := TimesOutAt(kind, before, env.rounds, n);
    || ConfirmsAt(kind, before, env.rounds, n)
    || (!AbortsAt(kind, before, env.rounds, n) && !FinalAborts(timedOut, env.final)
        && FinalConfirms(kind, before, ReadByEnd(Polled(env.rounds, n), timedOut, env.final), env.final))
  }

  /** No command to the page is under way when a receipt was accepted. */
  predicate SafeToCleanUp(kind: Kind, before: State, env: Environment, n: nat) {
    && !LateAt(kind, before, env.rounds, n)
    && (ConfirmsAt(kind, before, env.rounds, n)
        || !FinalLate(kind, TimesOutAt(kind, before, env.rounds, n), env.final))
  }

  /** The finally block removes the page's monitor, and that raises. */
  predicate CleanupRaises(safe: bool, env: Environment) {
    safe && env.cleanupLive && !env.cleanup.CleanedUp?
  }

  /** The call ends in the outcome-unknown error: it clicked, nothing was accepted, and no exception intervened. */
  predicate Misses(kind: Kind, before: State, env: Environment, n: nat) {
    && !Accepts(kind, before, env, n) && !AbortsAt(kind, before, env.rounds, n)
    && !FinalAborts(TimesOutAt(kind, before, env.rounds, n), env.final)
  }

  function EvidenceOf(kind: Kind, before: State, seen: State): Option<Evidence> {
    if kind.Turn? then ConfirmedAction(before, seen) else ConfirmedTransition(before, seen)
  }

  function LastRead(before: State, accepted: seq<State>): State {
    if accepted == [] then before else accepted[|accepted| - 1]
  }

  /** The event that accepting writes: a receipt only in the loop, and only if nothing went wrong before. */
  ghost predicate AcceptanceIsLast(kind: Kind, before: State, env: Environment, n: nat, accepted: seq<State>,
      trace: seq<Event>)
  {
    var evidence := EvidenceOf(kind, before, LastRead(before, accepted));
    && evidence.Some?
    && Last(trace, if ConfirmsAt(kind, before, env.rounds, n) && !env.click.ClickFailed? && !Disturbed(env.rounds, n)
                   then ReceiptConfirmed(evidence.value) else ReconciliationConfirmed(evidence.value))
  }

  /** What the call writes last, when every write succeeds. */
  ghost predicate WritesLast(kind: Kind, env: Environment, n: nat, accepted: seq<State>, trace: seq<Event>) {
    if !env.prepared.Read? || !env.preparationLive then trace == []
    else if !env.observes then Last(trace, NotSubmitted)
    else if env.Clicks() && Accepts(kind, env.prepared.state, env, n)
    then AcceptanceIsLast(kind, env.prepared.state, env, n, accepted, trace)
    else Last(trace, OutcomeUnknown)
  }

  /** How the attempt ends when every write succeeds, before the finally block. */
  ghost predicate AttemptEndsAs(kind: Kind, env: Environment, n: nat, r: Result, safe: bool, accepted: seq<State>) {
    && (r.Unknown? <==> env.Clicks() && Misses(kind, env.prepared.state, env, n))
    && (!r.Raised? ==> env.prepared.Read? && accepted == ReadWhen(kind, env, n))
    && (env.Clicks() ==> StopsAt(kind, env.prepared.state, env.rounds, n))
    && (r.Returned? <==> env.Clicks() && Accepts(kind, env.prepared.state, env, n))
    && (r.Returned? ==> (safe <==> SafeToCleanUp(kind, env.prepared.state, env, n)))
  }

  /**
   How the call ends when every write succeeds: a receipt returns, unless the cleanup behind it raises; without one
   the outcome is unknown, unless an exception came first.
   */
  ghost predicate EndsAs(kind: Kind, env: Environment, n: nat, r: Result) {
    && (r.Unknown? <==> env.Clicks() && Misses(kind, env.prepared.state, env, n))
    && (env.Clicks() ==> StopsAt(kind, env.prepared.state, env.rounds, n))
    && (r.Returned? <==>
          && env.Clicks() && Accepts(kind, env.prepared.state, env, n)
          && !CleanupRaises(SafeToCleanUp(kind, env.prepared.state, env, n), env))
  }

  /** The call returned on evidence that its latest in-deadline probe gave, and the evidence is written. */
  ghost predicate Backed(trail: ActionAuditTrail, evidence: Option<Evidence>, troubled: bool)
    reads trail, trail.bus
  {
    && !trail.bus.failed && trail.Resolved() && !trail.outcomeUnknown && evidence.Some?
    && Last(trail.Trace(), if troubled then ReconciliationConfirmed(evidence.value) else ReceiptConfirmed(evidence.value))
  }

  /** The verdict on one in-deadline read, given that every write succeeds. */
  ghost predicate JudgedAs(kind: Kind, before: State, current: State, acceptLive: bool, p: Progress, next: Judgement,
      q: Progress)
  {
    var evident := Evident(kind, before, current, q.monitor);
    && (next == Ends(Confirmed) <==> evident && acceptLive)
    && (next == Ends(GaveUp) <==> (evident && !acceptLive) || (!evident && Hopeless(kind, current)))
    && next != Ends(Aborted)
    && (q.timedOut <==> p.timedOut || (evident && !acceptLive))
    && (q.cleanupSafe <==> p.cleanupSafe && !(evident && !acceptLive))
    && (next != Ends(GaveUp) ==> (q.troubled <==> p.troubled))
  }

  /** What an in-deadline read of a turn makes of the call. */
  method JudgeTurn(trail: ActionAuditTrail, before: State, current: State, acceptLive: bool, p: Progress)
    returns (next: Judgement, q: Progress)
    requires Open(trail)
    modifies trail, trail.bus
    ensures InUse(trail) && OnlyThis(trail.bus, trail.id)
    ensures next != Ends(Aborted) ==> (trail.submitted <==> old(trail.submitted) || SingleSend(current.monitor))
    ensures q.last == current && q.probed && q.monitor == Newest(current, p.monitor)
    ensures match next
            case Ends(Confirmed) => acceptLive && Backed(trail, ConfirmedAction(before, current), q.troubled)
            case Ends(Aborted) => Closed(trail) && trail.bus.failed
            case _ => Open(trail)
    ensures old(trail.bus.Healthy()) ==> JudgedAs(Turn, before, current, acceptLive, p, next, q)
  {
    q := p.(last := current, probed := true, monitor := Newest(current, p.monitor));
    var observed := ObserveMonitor(trail, current.monitor);
    if !observed.Done? {
      return Ends(Aborted), q;
    }
    var evidence := ConfirmedAction(before, current);
    if evidence.Some? {
      if !acceptLive {
        return Ends(GaveUp), q.(troubled := true, timedOut := true, cleanupSafe := false);
      }
      var written := Accept(trail, evidence.value, q.troubled);
      return Ends(if written.Done? then Confirmed else Aborted), q;
    }
    if current.monitor.Some? && current.monitor.value.completed && !NormalResponse(current.monitor) {
      return Ends(GaveUp), q;
    }
    next := Continues;
  }

  /** A round without a state read in time: no time left, an error, or a late answer. */
  method MissedRound(r: Round, p: Progress) returns (next: Judgement, q: Progress)
    requires !InTimeRead(r)
    ensures Learns(r, p, q) && next != Ends(Confirmed)
    ensures forall kind :: RoundEndsAs(kind, r, false, next, p, q)
  {
    if !r.live {
      return Ends(GaveUp), p;
    }
    match r.probe {
      case Lost | Cancelled => return Ends(Aborted), p;
      case TimedOut => return Ends(GaveUp), p.(troubled := true, timedOut := true);
      case Read(_) => return Ends(GaveUp), p.(timedOut := true, cleanupSafe := false);
      case Failed => return if r.sleepCancelled then Ends(Aborted) else Continues, p.(troubled := true);
    }
  }

  /** One round of the polling loop of `click_and_wait_log_locator`. */
  method TurnRound(trail: ActionAuditTrail, before: State, r: Round, p: Progress)
    returns (next: Judgement, q: Progress)
    requires Open(trail)
    modifies trail, trail.bus
    ensures InUse(trail) && OnlyThis(trail.bus, trail.id)
    ensures next != Ends(Aborted) ==>
              && Learns(r, p, q)
              && (trail.submitted <==> old(trail.submitted) || (InTimeRead(r) && SingleSend(r.probe.state.monitor)))
    ensures match next
            case Ends(Confirmed) =>
              r.acceptLive && InTimeRead(r) && Backed(trail, ConfirmedAction(before, q.last), q.troubled)
            case Ends(Aborted) => Open(trail) || (Closed(trail) && trail.bus.failed)
            case _ => Open(trail)
    ensures old(trail.bus.Healthy()) ==> RoundEndsAs(Turn, r, Shows(Turn, before, r, p.monitor), next, p, q)
  {
    if !InTimeRead(r) {
      next, q := MissedRound(r, p);
      return;
    }
    next, q := JudgeTurn(trail, before, r.probe.state, r.acceptLive, p);
    if next.Continues? && r.sleepCancelled {
      next := Ends(Aborted);
    }
  }

  /** The polling loop of `click_and_wait_log_locator`. */
  method PollTurn(trail: ActionAuditTrail, before: State, clickFailed: bool, rounds: seq<Round>)
    returns (exit: PollExit, p: Progress, ghost accepted: seq<State>, ghost n: nat)
    requires Open(trail) && !trail.submitted
    modifies trail, trail.bus
    ensures InUse(trail) && OnlyThis(trail.bus, trail.id) && ReadIn(rounds, accepted)
    ensures !exit.Aborted? ==>
              Knows(p, before, Initial(Turn, before), accepted) && (trail.submitted <==> SawSingleSend(accepted))
    ensures if exit.GaveUp? then Open(trail) else exit.Aborted? ==> Open(trail) || (Closed(trail) && trail.bus.failed)
    ensures exit.Confirmed? ==>
              && accepted != [] && AcceptedInTime(rounds, accepted)
              && Backed(trail, ConfirmedAction(before, p.last), p.troubled)
    ensures old(trail.bus.Healthy()) ==> PolledTo(Turn, before, clickFailed, rounds, n, exit, p, accepted)
  {
    p := Progress(before, Initial(Turn, before), false, false, clickFailed, true);
    accepted, n, exit := [], 0, GaveUp;
    for i := 0 to |rounds|
      invariant Open(trail) && OnlyThis(trail.bus, trail.id)
      invariant Knows(p, before, Initial(Turn, before), accepted) && exit.GaveUp? && accepted == Reads(rounds, i)
      invariant trail.submitted <==> SawSingleSend(accepted)
      invariant old(trail.bus.Healthy()) ==>
                  && trail.bus.Healthy() && !p.timedOut && p.cleanupSafe
                  && (p.troubled <==> clickFailed || Disturbed(rounds, i))
                  && forall k | 0 <= k < i :: Passes(Turn, before, rounds, k)
    {
      var next;
      ghost var was := p;
      next, p := TurnRound(trail, before, rounds[i], p);
      if next != Ends(Aborted) {
        LearnsKnows(before, rounds, i, Initial(Turn, before), was, p);
      }
      accepted, n := Reads(rounds, i + 1), i;
      if next.Ends? {
        return next.exit, p, accepted, n;
      }
    }
    n := |rounds|;
  }

  /** What an in-deadline read of a transition makes of the call. */
  method JudgeTransition(trail: ActionAuditTrail, before: State, current: State, acceptLive: bool, p: Progress)
    returns (next: Judgement, q: Progress)
    requires Open(trail)
    modifies trail, trail.bus
    ensures InUse(trail) && OnlyThis(trail.bus, trail.id)
    ensures next != Ends(Aborted) ==> (trail.submitted <==> old(trail.submitted) || SingleSend(current.monitor))
    ensures q.last == current && q.probed && q.monitor == Newest(current, p.monitor)
    ensures match next
            case Ends(Confirmed) =>
              acceptLive && Backed(trail, ConfirmedTransition(before, current), q.troubled) && AtMostOneDispatch(q.monitor)
            case Ends(Aborted) => Closed(trail) && trail.bus.failed
            case _ => Open(trail)
    ensures old(trail.bus.Healthy()) ==> JudgedAs(NextFloor, before, current, acceptLive, p, next, q)
  {
    q := p.(last := current, probed := true, monitor := Newest(current, p.monitor));
    var observed := ObserveMonitor(trail, current.monitor);
    if !observed.Done? {
      return Ends(Aborted), q;
    }
    var evidence := ConfirmedTransition(before, current);
    if evidence.Some? && AtMostOneDispatch(q.monitor) {
      if !acceptLive {
        return Ends(GaveUp), q.(troubled := true, timedOut := true, cleanupSafe := false);
      }
      var written := Accept(trail, evidence.value, q.troubled);
      return Ends(if written.Done? then Confirmed else Aborted), q;
    }
    next := Continues;
  }

  /** One round of the polling loop of `click_and_wait_transition_locator`. */
  method TransitionRound(trail: ActionAuditTrail, before: State, r: Round, p: Progress)
    returns (next: Judgement, q: Progress)
    requires Open(trail)
    modifies trail, trail.bus
    ensures InUse(trail) && OnlyThis(trail.bus, trail.id)
    ensures next != Ends(Aborted) ==>
              && Learns(r, p, q)
              && (trail.submitted <==> old(trail.submitted) || (InTimeRead(r) && SingleSend(r.probe.state.monitor)))
    ensures match next
            case Ends(Confirmed) =>
              && r.acceptLive && InTimeRead(r) && AtMostOneDispatch(q.monitor)
              && Backed(trail, ConfirmedTransition(before, q.last), q.troubled)
            case Ends(Aborted) => Open(trail) || (Closed(trail) && trail.bus.failed)
            case _ => Open(trail)
    ensures old(trail.bus.Healthy()) ==> RoundEndsAs(NextFloor, r, Shows(NextFloor, before, r, p.monitor), next, p, q)
  {
    if !InTimeRead(r) {
      next, q := MissedRound(r, p);
      return;
    }
    next, q := JudgeTransition(trail, before, r.probe.state, r.acceptLive, p);
    if next.Continues? && r.sleepCancelled {
      next := Ends(Aborted);
    }
  }

  /** The polling loop of `click_and_wait_transition_locator`. */
  method PollTransition(trail: ActionAuditTrail, before: State, clickFailed: bool, rounds: seq<Round>)
    returns (exit: PollExit, p: Progress, ghost accepted: seq<State>, ghost n: nat)
    requires Open(trail) && !trail.submitted
    modifies trail, trail.bus
    ensures InUse(trail) && OnlyThis(trail.bus, trail.id) && ReadIn(rounds, accepted)
    ensures !exit.Aborted? ==>
              Knows(p, before, Initial(NextFloor, before), accepted) && (trail.submitted <==> SawSingleSend(accepted))
    ensures if exit.GaveUp? then Open(trail) else exit.Aborted? ==> Open(trail) || (Closed(trail) && trail.bus.failed)
    ensures exit.Confirmed? ==>
              && accepted != [] && AcceptedInTime(rounds, accepted)
              && Backed(trail, ConfirmedTransition(before, p.last), p.troubled) && AtMostOneDispatch(p.monitor)
    ensures old(trail.bus.Healthy()) ==> PolledTo(NextFloor, before, clickFailed, rounds, n, exit, p, accepted)
  {
    p := Progress(before, Initial(NextFloor, before), false, false, clickFailed, true);
    accepted, n, exit := [], 0, GaveUp;
    for i := 0 to |rounds|
      invariant Open(trail) && OnlyThis(trail.bus, trail.id)
      invariant Knows(p, before, Initial(NextFloor, before), accepted) && exit.GaveUp? && accepted == Reads(rounds, i)
      invariant trail.submitted <==> SawSingleSend(accepted)
      invariant old(trail.bus.Healthy()) ==>
                  && trail.bus.Healthy() && !p.timedOut && p.cleanupSafe
                  && (p.troubled <==> clickFailed || Disturbed(rounds, i))
                  && forall k | 0 <= k < i :: Passes(NextFloor, before, rounds, k)
    {
      var next;
      ghost var was := p;
      next, p := TransitionRound(trail, before, rounds[i], p);
      if next != Ends(Aborted) {
        LearnsKnows(before, rounds, i, Initial(NextFloor, before), was, p);
      }
      accepted, n := Reads(rounds, i + 1), i;
      if next.Ends? {
        return next.exit, p, accepted, n;
      }
    }
    n := |rounds|;
  }

  /** The states that were read in the whole call: the polling loop's, and the final probe's if it came in time. */
  ghost predicate ReadInCall(env: Environment, accepted: seq<State>) {
    || ReadIn(env.rounds, accepted)
    || (env.final.live && env.final.probe.Read? && env.final.readLive
        && accepted != [] && accepted[|accepted| - 1] == env.final.probe.state
        && ReadIn(env.rounds, accepted[..|accepted| - 1]))
  }

  /** The final probe: a late one is discarded, an error keeps the last state; Aborted is an exception. */
  method ProbeOnceMore(kind: Kind, before: State, p: Progress, final: Final, ghost polled: seq<State>)
    returns (exit: PollExit, q: Progress, ghost accepted: seq<State>)
    requires Knows(p, before, Initial(kind, before), polled)
    ensures !exit.Confirmed? && Knows(q, before, Initial(kind, before), accepted)
    ensures exit.Aborted? <==> FinalAborts(p.timedOut, final)
    ensures accepted == ReadByEnd(polled, p.timedOut, final)
    ensures q.cleanupSafe <==> p.cleanupSafe && !FinalLate(kind, p.timedOut, final)
    ensures p.timedOut || !final.live ==> q == p
    ensures SawSingleSend(accepted) <==> SawSingleSend(polled) || (accepted != [] && SingleSend(q.last.monitor))
  {
    q := p;
    accepted := polled;
    exit := GaveUp;
    if p.timedOut || !final.live {
      return;
    }
    match final.probe {
      case Lost | Cancelled => exit := Aborted;
      case TimedOut => q := p.(troubled := true, timedOut := true, cleanupSafe := p.cleanupSafe && kind.NextFloor?);
      case Failed =>
        q := p.(troubled := true, timedOut := !final.readLive,
                cleanupSafe := p.cleanupSafe && (kind.NextFloor? || final.readLive));
      case Read(candidate) =>
        if !final.readLive {
          q := p.(troubled := true, timedOut := true, cleanupSafe := false);
        } else {
          AcceptOne(polled, candidate, Initial(kind, before));
          accepted := polled + [candidate];
          q := p.(last := candidate, probed := true, monitor := Newest(candidate, p.monitor));
        }
    }
  }

  /** The handler for every exception: an intent that nothing resolved becomes an unknown outcome. */
  method OnException(trail: ActionAuditTrail)
    requires trail.Valid() && (trail.intentRecorded ==> Open(trail) || Closed(trail))
    modifies trail, trail.bus
    ensures OnlyThis(trail.bus, trail.id) && trail.Valid()
    ensures trail.intentRecorded == old(trail.intentRecorded)
    ensures if trail.intentRecorded then Closed(trail) else trail.WroteNothing()
    ensures old(Open(trail)) && !trail.bus.failed ==> Last(trail.Trace(), OutcomeUnknown)
    ensures old(trail.Resolved()) ==> trail.WroteNothing()
  {
    if trail.intentRecorded && !trail.Resolved() {
      var written := trail.MarkOutcomeUnknown();
    }
  }

  /** The evidence of a turn that returned: an in-deadline probe's, or a baseline that confirmed itself. */
  ghost predicate TurnBacked(before: State, accepted: seq<State>, trace: seq<Event>) {
    var seen := if accepted == [] then before else accepted[|accepted| - 1];
    && (accepted == [] ==> SelfConfirming(before))
    && ConfirmedAction(before, seen).Some?
    && (Last(trace, ReceiptConfirmed(ConfirmedAction(before, seen).value))
        || Last(trace, ReconciliationConfirmed(ConfirmedAction(before, seen).value)))
  }

  /** The evidence of a transition that returned: its latest in-deadline probe's, with at most one dispatch seen. */
  ghost predicate TransitionBacked(before: State, accepted: seq<State>, trace: seq<Event>) {
    && accepted != [] && AtMostOneDispatch(LastVisible(before.monitor, accepted))
    && var evidence := ConfirmedTransition(before, accepted[|accepted| - 1]);
       evidence.Some?
       && (Last(trace, ReceiptConfirmed(evidence.value)) || Last(trace, ReconciliationConfirmed(evidence.value)))
  }

  /** The monitor a turn gives up with: the latest that it saw, or the baseline's if it looked again and read nothing. */
  function Retained(before: State, accepted: seq<State>, timedOut: bool, final: Final): Option<Monitor> {
    if accepted == [] && !timedOut && final.live then before.monitor else LastVisible(None, accepted)
  }

  /** The latest evidence was accepted behind the loop, which writes it as a reconciliation. */
  ghost predicate ReconciledLast(kind: Kind, before: State, accepted: seq<State>, trace: seq<Event>) {
    var evidence := EvidenceOf(kind, before, LastRead(before, accepted));
    evidence.Some? && Last(trace, ReconciliationConfirmed(evidence.value))
  }

  /** The evidence a call freezes: its documents as its in-deadline probes saw them, and the monitor it retained. */
  ghost function Frozen(id: ActionId, kind: Kind, before: State, env: Environment, accepted: seq<State>,
      monitor: Option<Monitor>)
    : RecoveryEvidence
  {
    var post := if accepted == [] then UNKNOWN_DOCUMENT else accepted[|accepted| - 1].document;
    Freeze(id, kind, before.document, post, env.dialog, monitor)
  }

  /**
   A second dispatch is never accepted: a page whose send count only grows while its monitor is visible, and
   on which some in-deadline probe saw more than one, cannot be the page of a transition that returned.
   */
  lemma {:induction false} DuplicateIsNeverAccepted(before: State, accepted: seq<State>, trace: seq<Event>, i: nat)
    requires CountsGrow(accepted) && i < |accepted|
    requires accepted[i].monitor.Some? && accepted[i].monitor.value.sentCount > 1
    ensures !TransitionBacked(before, accepted, trace)
  {
    DuplicateIsRetained(before.monitor, accepted, i);
  }

  /** Nor is it recovered from: the evidence of such a transition keeps the count and forbids the reload. */
  lemma {:induction false} DuplicateIsNeverRecovered(id: ActionId, before: State, env: Environment, accepted: seq<State>,
      i: nat)
    requires CountsGrow(accepted) && i < |accepted|
    requires accepted[i].monitor.Some? && accepted[i].monitor.value.sentCount > 1
    ensures var e := Frozen(id, NextFloor, before, env, accepted, LastVisible(before.monitor, accepted));
            e.sentCount >= accepted[i].monitor.value.sentCount && !AllowsRecovery(e)
  {
    DuplicateIsRetained(before.monitor, accepted, i);
  }

  class ElementActionManager {
    const bus: AuditEventBus
    ghost var clicks: nat
    ghost var writtenAtClick: seq<Event>   // what the action's trace was when its click was issued

    constructor (bus: AuditEventBus)
      ensures this.bus == bus && clicks == 0
    {
      this.bus, clicks, writtenAtClick := bus, 0, [];
    }

    /** Every call: a lawful trace, nothing of other actions, at most one click and only after the intent. */
    twostate predicate Submits(id: ActionId)
      reads this, bus
    {
      && OnlyThis(bus, id) && Lawful(TraceOf(bus.log, id))
      && old(clicks) <= clicks <= old(clicks) + 1
      && (clicks > old(clicks) ==> writtenAtClick == [IntentRecorded])
      && (!bus.failed && TraceOf(bus.log, id) != [] ==> Resolutions(TraceOf(bus.log, id)) == 1)
    }

    /** Records the intent and clicks once; Confirmed stands for a click that went on to its receipt. */
    method Submit(trail: ActionAuditTrail, env: Environment) returns (submitted: bool)
      requires trail.Valid() && trail.bus == bus && trail.Trace() == [] && !trail.intentRecorded
      modifies this, trail, bus
      ensures OnlyThis(bus, trail.id) && trail.Valid()
      ensures submitted ==> Open(trail) && clicks == old(clicks) + 1 && !trail.submitted
      ensures !submitted && trail.intentRecorded ==> Open(trail) || Closed(trail)
      ensures !submitted && !trail.intentRecorded ==> bus.failed
      ensures old(clicks) <= clicks <= old(clicks) + 1
      ensures clicks > old(clicks) ==> writtenAtClick == [IntentRecorded]
      ensures old(bus.Healthy()) ==>
                && (submitted <==> env.observes && (env.click.Clicked? || env.click.ClickFailed?))
                && if env.observes then Open(trail) else trail.Resolved() && Last(trail.Trace(), NotSubmitted)
    {
      hide StageOf, Resolutions;
      var intent := trail.RecordIntent();
      if !intent.Done? {
        return false;
      }
      if !env.observes {
        var aborted := trail.MarkNotSubmitted();
        return false;
      }
      assert trail.Trace() == [IntentRecorded];
      clicks := clicks + 1;
      writtenAtClick := trail.Trace();
      return env.click.Clicked? || env.click.ClickFailed?;
    }

    /** The trail at the end of a call, whatever ended it. */
    method Leave(trail: ActionAuditTrail)
      requires trail.Valid() && trail.bus == bus
      requires if trail.intentRecorded then Open(trail) || Closed(trail) else bus.failed
      modifies trail, bus
      ensures OnlyThis(bus, trail.id) && Lawful(TraceOf(bus.log, trail.id))
      ensures !bus.failed ==> Resolutions(TraceOf(bus.log, trail.id)) == 1
      ensures old(Open(trail)) && !bus.failed ==> Last(TraceOf(bus.log, trail.id), OutcomeUnknown)
      ensures old(trail.Resolved()) ==> TraceOf(bus.log, trail.id) == old(TraceOf(bus.log, trail.id))
    {
      OnException(trail);
      if !bus.failed {
        trail.ResolvedOnce();
      }
    }

    /** Writes the late evidence as a reconciliation. */
    method ReconcileLate(trail: ActionAuditTrail, evidence: Evidence) returns (ok: bool)
      requires Open(trail) && trail.bus == bus
      modifies trail, bus
      ensures OnlyThis(bus, trail.id) && Lawful(TraceOf(bus.log, trail.id))
      ensures !bus.failed ==> Resolutions(TraceOf(bus.log, trail.id)) == 1
      ensures if ok then !bus.failed && Last(TraceOf(bus.log, trail.id), ReconciliationConfirmed(evidence)) else bus.failed
      ensures ok ==> (Submitted in TraceOf(bus.log, trail.id) <==> old(trail.submitted))
    {
      var written := Accept(trail, evidence, true);
      ok := written.Done?;
      if ok {
        trail.ResolvedOnce();
      } else {
        Leave(trail);
      }
    }

    /** Writes the outcome as unknown. */
    method GiveUp(trail: ActionAuditTrail) returns (ok: bool)
      requires Open(trail) && trail.bus == bus
      modifies trail, bus
      ensures OnlyThis(bus, trail.id) && Lawful(TraceOf(bus.log, trail.id))
      ensures !bus.failed ==> Resolutions(TraceOf(bus.log, trail.id)) == 1
      ensures if ok then !bus.failed && Last(TraceOf(bus.log, trail.id), OutcomeUnknown) else bus.failed
      ensures ok ==> (Submitted in TraceOf(bus.log, trail.id) <==> old(trail.submitted))
    {
      var written := trail.MarkOutcomeUnknown();
      ok := written.Done?;
      if ok {
        trail.ResolvedOnce();
      } else {
        Leave(trail);
      }
    }

    /** A turn behind its final probe: a late receipt, or an unknown outcome with the retained monitor. */
    method SettleTurn(trail: ActionAuditTrail, before: State, q: Progress, env: Environment, monitor: Option<Monitor>,
        ghost accepted: seq<State>)
      returns (r: Result, safe: bool)
      requires Open(trail) && trail.bus == bus && Knows(q, before, None, accepted)
      requires Marked(trail.submitted, before, accepted)
      modifies trail, bus
      ensures OnlyThis(bus, trail.id) && Lawful(TraceOf(bus.log, trail.id))
      ensures !bus.failed ==> Resolutions(TraceOf(bus.log, trail.id)) == 1
      ensures !r.Raised? ==> Marked(Submitted in TraceOf(bus.log, trail.id), before, accepted)
      ensures r.Returned? ==>
                !bus.failed && TurnBacked(before, accepted, TraceOf(bus.log, trail.id)) && safe == q.cleanupSafe
      ensures old(bus.Healthy()) ==> (r.Returned? <==> FinalConfirms(Turn, before, accepted, env.final)) && !r.Raised?
      ensures r.Returned? ==> ReconciledLast(Turn, before, accepted, TraceOf(bus.log, trail.id))
      ensures r.Returned? ==> env.final.acceptLive
      ensures r.Unknown? ==>
                && !safe && !bus.failed && Last(TraceOf(bus.log, trail.id), OutcomeUnknown)
                && r.recovery == Frozen(trail.id, Turn, before, env, accepted, monitor)
    {
      safe := false;
      var evidence := ConfirmedAction(before, q.last);
      if evidence.Some? && env.final.acceptLive {
        TurnConfirmsItselfExactlyWhen(before);
        var reconciled := ReconcileLate(trail, evidence.value);
        return if reconciled then Returned else Raised, q.cleanupSafe;
      }
      var unknown := GiveUp(trail);
      if !unknown {
        return Raised, safe;
      }
      r := Unknown(Freeze(trail.id, Turn, before.document, if q.probed then q.last.document else UNKNOWN_DOCUMENT,
                          env.dialog, monitor));
    }

    /** The final probe of a turn, its acceptance, or the outcome-unknown error with its evidence. */
    method ConcludeTurn(trail: ActionAuditTrail, before: State, p: Progress, env: Environment, ghost polled: seq<State>)
      returns (r: Result, safe: bool, ghost accepted: seq<State>)
      requires Open(trail) && trail.bus == bus && Knows(p, before, None, polled)
      requires trail.submitted <==> SawSingleSend(polled)
      modifies trail, bus
      ensures OnlyThis(bus, trail.id) && Lawful(TraceOf(bus.log, trail.id))
      ensures !bus.failed ==> Resolutions(TraceOf(bus.log, trail.id)) == 1
      ensures !r.Raised? ==> Marked(Submitted in TraceOf(bus.log, trail.id), before, accepted)
      ensures accepted == ReadByEnd(polled, p.timedOut, env.final)
      ensures r.Returned? ==> (safe <==> p.cleanupSafe && !FinalLate(Turn, p.timedOut, env.final))
      ensures r.Unknown? ==> !safe
      ensures old(bus.Healthy()) ==>
                && (r.Returned? <==>
                      !FinalAborts(p.timedOut, env.final) && FinalConfirms(Turn, before, accepted, env.final))
                && (r.Raised? <==> FinalAborts(p.timedOut, env.final))
                && (!r.Returned? ==> Last(TraceOf(bus.log, trail.id), OutcomeUnknown))
      ensures r.Returned? ==> ReconciledLast(Turn, before, accepted, TraceOf(bus.log, trail.id))
      ensures r.Returned? ==> !bus.failed && TurnBacked(before, accepted, TraceOf(bus.log, trail.id))
      ensures r.Returned? ==> env.final.acceptLive
      ensures r.Unknown? ==>
                && !bus.failed && Last(TraceOf(bus.log, trail.id), OutcomeUnknown)
                && r.recovery ==
                   Frozen(trail.id, Turn, before, env, accepted, Retained(before, accepted, p.timedOut, env.final))
    {
      safe := false;
      var exit, q;
      exit, q, accepted := ProbeOnceMore(Turn, before, p, env.final, polled);
      if exit.Aborted? {
        Leave(trail);
        return Raised, safe, accepted;
      }
      var monitor := q.monitor;
      if !p.timedOut && env.final.live {
        monitor := Newest(q.last, q.monitor);
        var observed := ObserveMonitor(trail, q.last.monitor);
        if !observed.Done? {
          Leave(trail);
          return Raised, safe, accepted;
        }
      }
      r, safe := SettleTurn(trail, before, q, env, monitor, accepted);
    }

    /** The call without its finally block; safe says whether that block may touch the page. */
    method AttemptTurn(id: ActionId, env: Environment)
      returns (r: Result, safe: bool, ghost accepted: seq<State>, ghost n: nat)
      requires TraceOf(bus.log, id) == []
      modifies this, bus
      ensures Submits(id)
      ensures !r.Raised? ==> env.prepared.Read? && clicks == old(clicks) + 1 && ReadInCall(env, accepted)
      ensures !r.Raised? ==> Marked(Submitted in TraceOf(bus.log, id), env.prepared.state, accepted)
      ensures r.Returned? ==> !bus.failed && TurnBacked(env.prepared.state, accepted, TraceOf(bus.log, id))
      ensures r.Returned? ==> env.final.acceptLive || AcceptedInTime(env.rounds, accepted)
      ensures r.Unknown? ==>
                && !bus.failed && Last(TraceOf(bus.log, id), OutcomeUnknown)
                && var before := env.prepared.state;
                   exists late ::
                     r.recovery == Frozen(id, Turn, before, env, accepted, Retained(before, accepted, late, env.final))
      ensures r.Unknown? ==> !safe
      ensures old(bus.Healthy()) ==> AttemptEndsAs(Turn, env, n, r, safe, accepted)
      ensures old(bus.Healthy()) && r.Unknown? ==>
                var before, late := env.prepared.state, TimesOutAt(Turn, env.prepared.state, env.rounds, n);
                r.recovery == Frozen(id, Turn, before, env, accepted, Retained(before, accepted, late, env.final))
      ensures old(bus.Healthy()) ==> WritesLast(Turn, env, n, accepted, TraceOf(bus.log, id))
    {
      accepted, n, safe := [], 0, false;
      if !env.prepared.Read? || !env.preparationLive {
        return Raised, safe, accepted, n;
      }
      var before := env.prepared.state;
      var trail := new ActionAuditTrail(bus, id);
      var submitted := Submit(trail, env);
      if !submitted {
        Leave(trail);
        return Raised, safe, accepted, n;
      }
      var exit, p;
      exit, p, accepted, n := PollTurn(trail, before, env.click.ClickFailed?, env.rounds);
      if exit.Confirmed? {
        assert Last(trail.Trace(), if p.troubled then ReconciliationConfirmed(ConfirmedAction(before, p.last).value)
                                   else ReceiptConfirmed(ConfirmedAction(before, p.last).value));
        trail.ResolvedOnce();
        return Returned, p.cleanupSafe, accepted, n;
      }
      if exit.Aborted? {
        Leave(trail);
        return Raised, safe, accepted, n;
      }
      r, safe, accepted := ConcludeTurn(trail, before, p, env, accepted);
    }

    /** `click_and_wait_log_locator`: submits one turn and awaits its formal receipt. */
    method ClickAndWaitLog(id: ActionId, env: Environment)
      returns (r: Result, ghost accepted: seq<State>, ghost n: nat)
      requires TraceOf(bus.log, id) == []
      modifies this, bus
      ensures Submits(id)
      ensures !r.Raised? ==> env.prepared.Read? && clicks == old(clicks) + 1 && ReadInCall(env, accepted)
      ensures !r.Raised? ==> Marked(Submitted in TraceOf(bus.log, id), env.prepared.state, accepted)
      ensures r.Returned? ==> !bus.failed && TurnBacked(env.prepared.state, accepted, TraceOf(bus.log, id))
      ensures r.Returned? ==> env.final.acceptLive || AcceptedInTime(env.rounds, accepted)
      ensures r.Unknown? ==>
                && !bus.failed && Last(TraceOf(bus.log, id), OutcomeUnknown)
                && var before := env.prepared.state;
                   exists late ::
                     r.recovery == Frozen(id, Turn, before, env, accepted, Retained(before, accepted, late, env.final))
      ensures r.Returned? && FreshlyArmed(env.prepared.state) ==> accepted != []
      ensures old(bus.Healthy()) ==> EndsAs(Turn, env, n, r)
      ensures old(bus.Healthy()) && !r.Raised? ==> env.prepared.Read? && accepted == ReadWhen(Turn, env, n)
      ensures old(bus.Healthy()) && r.Unknown? ==>
                var before, late := env.prepared.state, TimesOutAt(Turn, env.prepared.state, env.rounds, n);
                r.recovery == Frozen(id, Turn, before, env, accepted, Retained(before, accepted, late, env.final))
      ensures old(bus.Healthy()) ==> WritesLast(Turn, env, n, accepted, TraceOf(bus.log, id))
      ensures old(bus.Healthy()) && env.Clicks() && Accepts(Turn, env.prepared.state, env, n) ==>
                TurnBacked(env.prepared.state, accepted, TraceOf(bus.log, id))
    {
      var safe;
      r, safe, accepted, n := AttemptTurn(id, env);
      if CleanupRaises(safe, env) {
        r := Raised;
      }
    }

    /** A transition behind its final probe: a late receipt, or an unknown outcome with the retained monitor. */
    method SettleTransition(trail: ActionAuditTrail, before: State, q: Progress, env: Environment,
        ghost accepted: seq<State>)
      returns (r: Result, safe: bool)
      requires Open(trail) && trail.bus == bus && Knows(q, before, before.monitor, accepted)
      requires Marked(trail.submitted, before, accepted)
      modifies trail, bus
      ensures OnlyThis(bus, trail.id) && Lawful(TraceOf(bus.log, trail.id))
      ensures !bus.failed ==> Resolutions(TraceOf(bus.log, trail.id)) == 1
      ensures !r.Raised? ==> Marked(Submitted in TraceOf(bus.log, trail.id), before, accepted)
      ensures r.Returned? ==>
                !bus.failed && TransitionBacked(before, accepted, TraceOf(bus.log, trail.id)) && safe == q.cleanupSafe
      ensures old(bus.Healthy()) ==> (r.Returned? <==> FinalConfirms(NextFloor, before, accepted, env.final)) && !r.Raised?
      ensures r.Returned? ==> ReconciledLast(NextFloor, before, accepted, TraceOf(bus.log, trail.id))
      ensures r.Returned? ==> env.final.acceptLive
      ensures r.Unknown? ==>
                && !safe && !bus.failed && Last(TraceOf(bus.log, trail.id), OutcomeUnknown)
                && r.recovery == Frozen(trail.id, NextFloor, before, env, accepted, LastVisible(before.monitor, accepted))
    {
      safe := false;
      var evidence := ConfirmedTransition(before, q.last);
      if evidence.Some? && AtMostOneDispatch(q.monitor) && env.final.acceptLive {
        TransitionNeverConfirmsItself(before);
        var reconciled := ReconcileLate(trail, evidence.value);
        return if reconciled then Returned else Raised, q.cleanupSafe;
      }
      var unknown := GiveUp(trail);
      if !unknown {
        return Raised, safe;
      }
      r := Unknown(Freeze(trail.id, NextFloor, before.document, if q.probed then q.last.document else UNKNOWN_DOCUMENT,
                          env.dialog, q.monitor));
    }

    /** The final probe of a transition, its acceptance, or the outcome-unknown error with its evidence. */
    method ConcludeTransition(trail: ActionAuditTrail, before: State, p: Progress, env: Environment,
        ghost polled: seq<State>)
      returns (r: Result, safe: bool, ghost accepted: seq<State>)
      requires Open(trail) && trail.bus == bus && Knows(p, before, before.monitor, polled)
      requires trail.submitted <==> SawSingleSend(polled)
      modifies trail, bus
      ensures OnlyThis(bus, trail.id) && Lawful(TraceOf(bus.log, trail.id))
      ensures !bus.failed ==> Resolutions(TraceOf(bus.log, trail.id)) == 1
      ensures !r.Raised? ==> Marked(Submitted in TraceOf(bus.log, trail.id), before, accepted)
      ensures accepted == ReadByEnd(polled, p.timedOut, env.final)
      ensures r.Returned? ==> (safe <==> p.cleanupSafe && !FinalLate(NextFloor, p.timedOut, env.final))
      ensures r.Unknown? ==> !safe
      ensures old(bus.Healthy()) ==>
                && (r.Returned? <==>
                      !FinalAborts(p.timedOut, env.final) && FinalConfirms(NextFloor, before, accepted, env.final))
                && (r.Raised? <==> FinalAborts(p.timedOut, env.final))
                && (!r.Returned? ==> Last(TraceOf(bus.log, trail.id), OutcomeUnknown))
      ensures r.Returned? ==> ReconciledLast(NextFloor, before, accepted, TraceOf(bus.log, trail.id))
      ensures r.Returned? ==> !bus.failed && TransitionBacked(before, accepted, TraceOf(bus.log, trail.id))
      ensures r.Returned? ==> env.final.acceptLive
      ensures r.Unknown? ==>
                && !bus.failed && Last(TraceOf(bus.log, trail.id), OutcomeUnknown)
                && r.recovery == Frozen(trail.id, NextFloor, before, env, accepted, LastVisible(before.monitor, accepted))
    {
      safe := false;
      var exit, q;
      exit, q, accepted := ProbeOnceMore(NextFloor, before, p, env.final, polled);
      if exit.Aborted? {
        Leave(trail);
        return Raised, safe, accepted;
      }
      var observed := ObserveMonitor(trail, q.last.monitor);
      if !observed.Done? {
        Leave(trail);
        return Raised, safe, accepted;
      }
      r, safe := SettleTransition(trail, before, q, env, accepted);
    }

    /** The call without its finally block; safe says whether that block may touch the page. */
    method AttemptTransition(id: ActionId, env: Environment)
      returns (r: Result, safe: bool, ghost accepted: seq<State>, ghost n: nat)
      requires TraceOf(bus.log, id) == []
      modifies this, bus
      ensures Submits(id)
      ensures !r.Raised? ==> env.prepared.Read? && clicks == old(clicks) + 1 && ReadInCall(env, accepted)
      ensures !r.Raised? ==> Marked(Submitted in TraceOf(bus.log, id), env.prepared.state, accepted)
      ensures r.Returned? ==> !bus.failed && TransitionBacked(env.prepared.state, accepted, TraceOf(bus.log, id))
      ensures r.Returned? ==> env.final.acceptLive || AcceptedInTime(env.rounds, accepted)
      ensures r.Unknown? ==>
                && !bus.failed && Last(TraceOf(bus.log, id), OutcomeUnknown)
                && var before := env.prepared.state;
                   r.recovery == Frozen(id, NextFloor, before, env, accepted, LastVisible(before.monitor, accepted))
      ensures r.Unknown? ==> !safe
      ensures old(bus.Healthy()) ==> AttemptEndsAs(NextFloor, env, n, r, safe, accepted)
      ensures old(bus.Healthy()) ==> WritesLast(NextFloor, env, n, accepted, TraceOf(bus.log, id))
    {
      accepted, n, safe := [], 0, false;
      if !env.prepared.Read? || !env.preparationLive {
        return Raised, safe, accepted, n;
      }
      var before := env.prepared.state;
      var trail := new ActionAuditTrail(bus, id);
      var submitted := Submit(trail, env);
      if !submitted {
        Leave(trail);
        return Raised, safe, accepted, n;
      }
      var exit, p;
      exit, p, accepted, n := PollTransition(trail, before, env.click.ClickFailed?, env.rounds);
      if exit.Confirmed? {
        trail.ResolvedOnce();
        return Returned, p.cleanupSafe, accepted, n;
      }
      if exit.Aborted? {
        Leave(trail);
        return Raised, safe, accepted, n;
      }
      r, safe, accepted := ConcludeTransition(trail, before, p, env, accepted);
    }

    /** `click_and_wait_transition_locator`: clicks a round transition once and awaits the next phase. */
    method ClickAndWaitTransition(id: ActionId, env: Environment)
      returns (r: Result, ghost accepted: seq<State>, ghost n: nat)
      requires TraceOf(bus.log, id) == []
      modifies this, bus
      ensures Submits(id)
      ensures !r.Raised? ==> env.prepared.Read? && clicks == old(clicks) + 1 && ReadInCall(env, accepted)
      ensures !r.Raised? ==> Marked(Submitted in TraceOf(bus.log, id), env.prepared.state, accepted)
      ensures r.Returned? ==> !bus.failed && TransitionBacked(env.prepared.state, accepted, TraceOf(bus.log, id))
      ensures r.Returned? ==> env.final.acceptLive || AcceptedInTime(env.rounds, accepted)
      ensures r.Unknown? ==>
                && !bus.failed && Last(TraceOf(bus.log, id), OutcomeUnknown)
                && var before := env.prepared.state;
                   r.recovery == Frozen(id, NextFloor, before, env, accepted, LastVisible(before.monitor, accepted))
      ensures old(bus.Healthy()) ==> EndsAs(NextFloor, env, n, r)
      ensures old(bus.Healthy()) && !r.Raised? ==> env.prepared.Read? && accepted == ReadWhen(NextFloor, env, n)
      ensures old(bus.Healthy()) ==> WritesLast(NextFloor, env, n, accepted, TraceOf(bus.log, id))
      ensures old(bus.Healthy()) && env.Clicks() && Accepts(NextFloor, env.prepared.state, env, n) ==>
                TransitionBacked(env.prepared.state, accepted, TraceOf(bus.log, id))
    {
      var safe;
      r, safe, accepted, n := AttemptTransition(id, env);
      if CleanupRaises(safe, env) {
        r := Raised;
      }
    }
  }

  // ---------- a turn that returns without a probe ----------

  /** No time for a round of the loop, and the final probe fails in time. */
  function Unprobed(before: State): Environment {
    Environment(Read(before), true, true, Clicked, [], Final(true, Failed, true, true), None, true, CleanedUp)
  }

  /** Without any in-deadline probe a turn returns exactly on a baseline that confirms itself. */
  method ReturnsUnprobed(id: ActionId, before: State) returns (r: Result, ghost accepted: seq<State>)
    ensures r.Returned? <==> SelfConfirming(before)
    ensures r.Returned? ==> accepted == []
  {
    var bus := new AuditEventBus([]);
    var manager := new ElementActionManager(bus);
    ghost var n;
    r, accepted, n := manager.ClickAndWaitLog(id, Unprobed(before));
    TurnConfirmsItselfExactlyWhen(before);
  }
}
