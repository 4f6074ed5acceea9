/** The write-ahead audit of submitted actions: the event bus with its sticky failure, and one action's trail. */
module Audit {
  import opened Bytes

  type ActionId = nat

  datatype Evidence =
    | XhrLogMutation | XhrLogRevision | XhrBattleCompletion | XhrRoundCompletion | XhrCompletionPane
    | PonychartPresent | BattleCompletionPresent | GenerationRoundAdvanced | RoundAdvanced
    | GenerationRoundInitialized | RoundInitialized | SameBrowserRecovery

  datatype Event =
    | IntentRecorded
    | Submitted
    | NotSubmitted
    | ReceiptConfirmed(evidence: Evidence)
    | OutcomeUnknown
    | ReconciliationConfirmed(evidence: Evidence)
  {
    /** Resolves the intent: replay-safe, confirmed, or explicitly ambiguous. */
    predicate Resolves() { !IntentRecorded? && !Submitted? }
  }

  datatype Entry = Entry(id: ActionId, event: Event)

  /** The events of one action, in the order they were written. */
  function TraceOf(log: seq<Entry>, id: ActionId): seq<Event> {
    if log == [] then []
    else
      var rest := TraceOf(log[..|log| - 1], id);
      if log[|log| - 1].id == id then rest + [log[|log| - 1].event] else rest
  }

  // ---------- the lifecycle ----------

  /** What a trace says so far about its action. */
  datatype Stage = Fresh | Intended | Sent | Ambiguous | Settled | Broken

  function Advance(stage: Stage, event: Event): Stage {
    match (stage, event)
    case (Fresh, IntentRecorded) => Intended
    case (Intended, Submitted) => Sent
    case (Intended, NotSubmitted) => Settled
    case (Intended, ReceiptConfirmed(_)) => Settled
    case (Sent, ReceiptConfirmed(_)) => Settled
    case (Intended, ReconciliationConfirmed(_)) => Settled
    case (Sent, ReconciliationConfirmed(_)) => Settled
    case (Intended, OutcomeUnknown) => Ambiguous
    case (Sent, OutcomeUnknown) => Ambiguous
    case (Ambiguous, ReconciliationConfirmed(_)) => Settled
    case _ => Broken
  }

  function StageOf(trace: seq<Event>): Stage {
    if trace == [] then Fresh else Advance(StageOf(trace[..|trace| - 1]), trace[|trace| - 1])
  }

  predicate Lawful(trace: seq<Event>) { StageOf(trace) != Broken }

  function Resolutions(trace: seq<Event>): nat {
    if trace == [] then 0
    else Resolutions(trace[..|trace| - 1]) + if trace[|trace| - 1].Resolves() then 1 else 0
  }

  /** The lifecycle written out: intent, submission at most, one resolution, and a reconciliation of an unknown. */
  predicate IsLifecycle(trace: seq<Event>) {
    var sent := |trace| > 1 && trace[1].Submitted?;
    var head := if sent then 2 else 1;
    trace == [] || (
      && trace[0].IntentRecorded? && |trace| <= head + 2
      && (|trace| > head ==> trace[head].Resolves() && (sent ==> !trace[head].NotSubmitted?))
      && (|trace| > head + 1 ==> trace[head].OutcomeUnknown? && trace[head + 1].ReconciliationConfirmed?))
  }

  lemma StageOfPrefix(trace: seq<Event>, event: Event)
    ensures StageOf(trace + [event]) == Advance(StageOf(trace), event)
    ensures Resolutions(trace + [event]) == Resolutions(trace) + if event.Resolves() then 1 else 0
    ensures OutcomeUnknown in trace + [event] <==> OutcomeUnknown in trace || event.OutcomeUnknown?
    ensures Submitted in trace + [event] <==> Submitted in trace || event.Submitted?
  {
    assert (trace + [event])[..|trace|] == trace;
  }

  /** Fixes the stage that every lifecycle has reached. */
  function Reached(trace: seq<Event>): Stage
    requires IsLifecycle(trace)
  {
    if trace == [] then Fresh
    else
      match trace[|trace| - 1]
      case IntentRecorded => Intended
      case Submitted => Sent
      case OutcomeUnknown => Ambiguous
      case _ => Settled
  }

  /** The stages accept exactly the written-out lifecycles. */
  lemma {:induction false} LawfulIsLifecycle(trace: seq<Event>)
    ensures Lawful(trace) <==> IsLifecycle(trace)
    ensures Lawful(trace) ==> StageOf(trace) == Reached(trace)
  {
    if trace != [] {
      var front, last := trace[..|trace| - 1], trace[|trace| - 1];
      LawfulIsLifecycle(front);
      assert forall i | 0 <= i < |front| :: front[i] == trace[i];
      if IsLifecycle(front) && front != [] { assert front[|front| - 1] == trace[|front| - 1]; }
    }
  }

  /** What has been written stays lawful when more is cut off: every prefix of a lifecycle is one. */
  lemma {:induction false} PrefixesAreLawful(trace: seq<Event>, n: nat)
    requires Lawful(trace) && n <= |trace|
    ensures Lawful(trace[..n])
  {
    if n < |trace| {
      PrefixesAreLawful(trace[..|trace| - 1], n);
      assert trace[..|trace| - 1][..n] == trace[..n];
    } else {
      assert trace[..n] == trace;
    }
  }

  /** A resolved action has one resolution, or an unknown one that was reconciled later. */
  lemma {:induction false} ResolutionsByStage(trace: seq<Event>)
    requires Lawful(trace)
    ensures match StageOf(trace)
            case Fresh => Resolutions(trace) == 0
            case Intended => Resolutions(trace) == 0
            case Sent => Resolutions(trace) == 0
            case Ambiguous => Resolutions(trace) == 1
            case _ => 1 <= Resolutions(trace) <= 2 && (Resolutions(trace) == 2 ==> Event.OutcomeUnknown in trace)
  {
    if trace != [] {
      var front, last := trace[..|trace| - 1], trace[|trace| - 1];
      ResolutionsByStage(front);
      if StageOf(front).Ambiguous? { LawfulIsLifecycle(front); assert front[|front| - 1] in trace; }
    }
  }

  // ---------- the bus ----------

  /** A durable writer either writes the event or raises; when it raises the event may have been written. */
  datatype WriteFate = Written | RaisesWritten | RaisesLost

  /** The log grows by at most the one event; a bus that has failed writes nothing more. */
  ghost predicate LogStep(log: seq<Entry>, next: seq<Entry>, e: Entry, failedBefore: bool, failed: bool) {
    && (failedBefore ==> failed && next == log)
    && (!failed ==> next == log + [e])
    && (next == log || next == log + [e])
  }

  class AuditEventBus {
    var failed: bool
    var fates: seq<WriteFate>
    ghost var log: seq<Entry>

    constructor (fates: seq<WriteFate>)
      ensures !failed && log == [] && this.fates == fates
    {
      failed, this.fates, log := false, fates, [];
    }

    /** Every write so far succeeded, and every later one will. */
    predicate Healthy()
      reads this
    {
      !failed && fates == []
    }

    method Publish(e: Entry)
      modifies this
      ensures LogStep(old(log), log, e, old(failed), failed)
      ensures failed <==> old(failed) || (old(fates) != [] && !old(fates)[0].Written?)
      ensures old(Healthy()) ==> Healthy()
    {
      if failed {
        return;
      }
      var fate := if fates == [] then Written else fates[0];
      fates := if fates == [] then [] else fates[1..];
      if !fate.RaisesLost? {
        log := log + [e];
      }
      failed := !fate.Written?;
    }
  }

  // ---------- one action's trail ----------

  /** AuditFailed is the sticky publication error, NoIntent the error for an outcome without an intent. */
  datatype Outcome = Done | AuditFailed | NoIntent

  lemma TraceGrows(log: seq<Entry>, e: Entry, id: ActionId)
    ensures TraceOf(log + [e], id) == if e.id == id then TraceOf(log, id) + [e.event] else TraceOf(log, id)
  {
    assert (log + [e])[..|log|] == log;
  }

  class ActionAuditTrail {
    const bus: AuditEventBus
    const id: ActionId
    var intentRecorded: bool
    var submitted: bool
    var notSubmitted: bool
    var receiptConfirmed: bool
    var outcomeUnknown: bool
    var reconciliationConfirmed: bool

    ghost function Trace(): seq<Event>
      reads this, bus
    {
      TraceOf(bus.log, id)
    }

    ghost function FlagStage(): Stage
      reads this
    {
      if !intentRecorded then Fresh
      else if notSubmitted || receiptConfirmed || reconciliationConfirmed then Settled
      else if outcomeUnknown then Ambiguous
      else if submitted then Sent
      else Intended
    }

    predicate Resolved()
      reads this
    {
      notSubmitted || receiptConfirmed || outcomeUnknown || reconciliationConfirmed
    }

    /** The written trace is lawful, and while the bus is healthy the flags tell exactly where it is. */
    ghost predicate Valid()
      reads this, bus
    {
      && (!intentRecorded ==> !submitted && !Resolved())
      && (notSubmitted ==> !submitted && !receiptConfirmed && !outcomeUnknown && !reconciliationConfirmed)
      && (receiptConfirmed ==> !outcomeUnknown && !reconciliationConfirmed)
      && Lawful(Trace())
      && (!bus.failed ==> StageOf(Trace()) == FlagStage())
      && (!bus.failed ==> (outcomeUnknown <==> OutcomeUnknown in Trace()) && (submitted <==> Submitted in Trace()))
    }

    constructor (bus: AuditEventBus, id: ActionId)
      requires TraceOf(bus.log, id) == []
      ensures Valid() && this.bus == bus && this.id == id && !intentRecorded && !submitted && !Resolved()
    {
      this.bus, this.id := bus, id;
      intentRecorded, submitted, notSubmitted := false, false, false;
      receiptConfirmed, outcomeUnknown, reconciliationConfirmed := false, false, false;
    }

    /** The bus wrote at most this event of this action, nothing of any other; a failure stays. */
    twostate predicate Wrote(event: Event)
      reads this, bus
    {
      && LogStep(old(bus.log), bus.log, Entry(id, event), old(bus.failed), bus.failed)
      && (old(bus.Healthy()) ==> bus.Healthy())
      && (!bus.failed ==> Trace() == old(Trace()) + [event])
      && (Trace() == old(Trace()) || Trace() == old(Trace()) + [event])
      && forall other: ActionId | other != id :: TraceOf(bus.log, other) == TraceOf(old(bus.log), other)
    }

    twostate predicate WroteNothing()
      reads this, bus
    {
      bus.log == old(bus.log) && bus.failed == old(bus.failed) && bus.fates == old(bus.fates)
    }

    /** Publishes one event, which must be lawful next, and surfaces the sticky failure. */
    method Publish(event: Event) returns (r: Outcome)
      requires Lawful(Trace()) && (!bus.failed ==> Advance(StageOf(Trace()), event) != Broken)
      modifies bus
      ensures Wrote(event) && r == if bus.failed then AuditFailed else Done
      ensures Lawful(Trace())
      ensures !bus.failed ==>
                && StageOf(Trace()) == Advance(old(StageOf(Trace())), event)
                && (OutcomeUnknown in Trace() <==> old(OutcomeUnknown in Trace()) || event.OutcomeUnknown?)
                && (Submitted in Trace() <==> old(Submitted in Trace()) || event.Submitted?)
    {
      bus.Publish(Entry(id, event));
      StageOfPrefix(old(Trace()), event);
      TraceGrows(old(bus.log), Entry(id, event), id);
      forall other: ActionId | other != id ensures TraceOf(bus.log, other) == TraceOf(old(bus.log), other) {
        TraceGrows(old(bus.log), Entry(id, event), other);
      }
      r := if bus.failed then AuditFailed else Done;
    }

    method RecordIntent() returns (r: Outcome)
      requires Valid()
      modifies this`intentRecorded, bus
      ensures Valid()
      ensures if old(intentRecorded) then WroteNothing() && r.Done? && intentRecorded
              else Wrote(IntentRecorded) && intentRecorded == r.Done? && r == if bus.failed then AuditFailed else Done
    {
      if intentRecorded {
        return Done;
      }
      r := Publish(IntentRecorded);
      intentRecorded := r.Done?;
    }

    method MarkSubmitted() returns (r: Outcome)
      requires Valid()
      modifies this`submitted, bus
      ensures Valid()
      ensures if !intentRecorded then WroteNothing() && r.NoIntent?
              else if old(submitted) || Resolved() then WroteNothing() && r.Done? && submitted == old(submitted)
              else Wrote(Submitted) && submitted == r.Done? && r == if bus.failed then AuditFailed else Done
    {
      if !intentRecorded {
        return NoIntent;
      }
      if submitted || Resolved() {
        return Done;
      }
      r := Publish(Submitted);
      if r.Done? {
        submitted := true;
      }
    }

    method MarkNotSubmitted() returns (r: Outcome)
      requires Valid()
      modifies this`notSubmitted, bus
      ensures Valid()
      ensures if !intentRecorded then WroteNothing() && r.NoIntent?
              else if submitted || old(Resolved()) then WroteNothing() && r.Done? && notSubmitted == old(notSubmitted)
              else Wrote(NotSubmitted) && notSubmitted == r.Done? && r == if bus.failed then AuditFailed else Done
    {
      if !intentRecorded {
        return NoIntent;
      }
      if submitted || Resolved() {
        return Done;
      }
      r := Publish(NotSubmitted);
      if r.Done? {
        notSubmitted := true;
      }
    }

    method ConfirmReceipt(evidence: Evidence) returns (r: Outcome)
      requires Valid()
      modifies this`receiptConfirmed, bus
      ensures Valid()
      ensures if !intentRecorded then WroteNothing() && r.NoIntent?
              else if old(Resolved()) then WroteNothing() && r.Done? && receiptConfirmed == old(receiptConfirmed)
              else Wrote(ReceiptConfirmed(evidence)) && receiptConfirmed == r.Done?
                   && r == if bus.failed then AuditFailed else Done
    {
      if !intentRecorded {
        return NoIntent;
      }
      if Resolved() {
        return Done;
      }
      r := Publish(ReceiptConfirmed(evidence));
      if r.Done? {
        receiptConfirmed := true;
      }
    }

    method MarkOutcomeUnknown() returns (r: Outcome)
      requires Valid()
      modifies this`outcomeUnknown, bus
      ensures Valid()
      ensures if !intentRecorded then WroteNothing() && r.NoIntent?
              else if old(Resolved()) then WroteNothing() && r.Done? && outcomeUnknown == old(outcomeUnknown)
              else Wrote(OutcomeUnknown) && outcomeUnknown == r.Done? && r == if bus.failed then AuditFailed else Done
    {
      if !intentRecorded {
        return NoIntent;
      }
      if Resolved() {
        return Done;
      }
      r := Publish(OutcomeUnknown);
      if r.Done? {
        outcomeUnknown := true;
      }
    }

    method ConfirmReconciliation(evidence: Evidence) returns (r: Outcome)
      requires Valid()
      modifies this`reconciliationConfirmed, bus
      ensures Valid()
      ensures if !intentRecorded then WroteNothing() && r.NoIntent?
              else if old(reconciliationConfirmed) || receiptConfirmed || notSubmitted then
                WroteNothing() && r.Done? && reconciliationConfirmed == old(reconciliationConfirmed)
              else Wrote(ReconciliationConfirmed(evidence)) && reconciliationConfirmed == r.Done?
                   && r == if bus.failed then AuditFailed else Done
    {
      if !intentRecorded {
        return NoIntent;
      }
      if reconciliationConfirmed || receiptConfirmed || notSubmitted {
        return Done;
      }
      r := Publish(ReconciliationConfirmed(evidence));
      if r.Done? {
        reconciliationConfirmed := true;
      }
    }

    /** While the bus is healthy, an action resolved once has exactly one resolution in its trace. */
    lemma ResolvedOnce()
      requires Valid() && !bus.failed && Resolved() && !(outcomeUnknown && reconciliationConfirmed)
      ensures Resolutions(Trace()) == 1
    {
      ResolutionsByStage(Trace());
    }
  }
}
