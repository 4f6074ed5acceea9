/**
 Recovery of one ambiguous action: the page is observed, reloaded at most once, and accepted only after a
 window of equal readings and a final verification. The environment decides every reading and deadline check.
 */
module ReloadRecovery {
  import opened Bytes
  import opened Audit
  import opened ReceiptEvidence

  const MAX_OBSERVATION_CHECKS := 40

  datatype Phase = Absent | Challenge | NotReady | Active | NextFloorReady | Complete

  type Signature = (string, string, string, Option<Phase>, Option<string>, Option<string>, nat)

  datatype Page = Page(document: string, realm: string, ready: string, phase: Option<Phase>,
                       logRevision: Option<string>, completionRevision: Option<string>, controls: nat)
  {
    /** The fields that must not change through the final verification; these are all of them. */
    function Signature(): Signature {
      (document, realm, ready, phase, logRevision, completionRevision, controls)
    }
  }

  /** A probe of the page; Lost is an exception that ends the recovery. */
  datatype Reading = Seen(page: Page) | Mismatch | Errored | Lost

  /** What recovery does to the page and to the parser's state. */
  datatype Op = Read(reading: Reading) | Reload | Clear | Reset

  /** One check of the observation loop; live and afterwards are its deadline checks. */
  datatype Check = Check(live: bool, reading: Reading, afterwards: bool, restLive: bool, cancelled: bool)

  datatype Parse = Parsed(monsterAlive: bool) | ParseTimedOut | ParseFailed | ParseLost

  /** One turn of the stability loop. */
  datatype Turn = Turn(live: bool, reading: Reading, afterwards: bool, acceptLive: bool, parse: Parse, parsedLive: bool,
                       restLive: bool, cancelled: bool)

  datatype Ending = Ending(live: bool, cleared: Option<string>, clearFails: bool, clearLost: bool,
                           verifyLive: bool, reading: Reading, verifiedLive: bool, inTime: bool, acceptLive: bool)

  datatype Observation = Changed(page: Page) | ConfirmedUnchanged | Indeterminate | Interrupted

  datatype Verdict = Accepted | Refused | Raised

  predicate Eligible(page: Page, preClickDocument: string, realm: string) {
    && page.document != preClickDocument && page.realm == realm
    && (page.ready == "interactive" || page.ready == "complete")
    && page.phase.Some?
    && (page.phase.value.Active? || page.phase.value.NextFloorReady? || page.phase.value.Complete?
        || page.phase.value.Challenge?)
  }

  predicate ValidParameters(realm: string, autoReloadChecks: int, stableChecks: int) {
    && (realm == "persistent" || realm == "isekai")
    && 1 <= autoReloadChecks <= MAX_OBSERVATION_CHECKS && 2 <= stableChecks <= MAX_OBSERVATION_CHECKS
  }

  function Reloads(ops: seq<Op>): nat {
    if ops == [] then 0 else Reloads(ops[..|ops| - 1]) + if ops[|ops| - 1].Reload? then 1 else 0
  }

  lemma ReloadsGrow(ops: seq<Op>, op: Op)
    ensures Reloads(ops + [op]) == Reloads(ops) + if op.Reload? then 1 else 0
  {
    assert (ops + [op])[..|ops|] == ops;
  }

  // ---------- the log is what the page answered ----------

  /** The readings of the first n checks. */
  function CheckReads(script: seq<Check>, n: nat): seq<Op>
    requires n <= |script|
  {
    if n == 0 then [] else CheckReads(script, n - 1) + [Read(script[n - 1].reading)]
  }

  /** The readings of the first n turns, of which the first one does not read when it has a page to start from. */
  function TurnReads(script: seq<Turn>, skipped: nat, n: nat): seq<Op>
    requires n <= |script|
  {
    if n <= skipped then [] else TurnReads(script, skipped, n - 1) + [Read(script[n - 1].reading)]
  }

  /** The check went on to the next one, or to the end of the observation. */
  predicate GoesOn(c: Check, last: bool, document: string) {
    && c.live && c.afterwards && (last || (c.restLive && !c.cancelled))
    && (c.reading.Mismatch? || (c.reading.Seen? && c.reading.page.document == document))
  }

  /** Every one of the checks read the document that was there before the click, and the deadline still lives. */
  predicate ChecksAllOld(script: seq<Check>, checks: nat, document: string) {
    && |script| > checks && script[checks].live
    && forall i | 0 <= i < checks :: GoesOn(script[i], i + 1 == checks, document) && script[i].reading.Seen?
  }

  /** The observation made n of its checks: each in time, all but the last one going on, and no fewer than it had to. */
  predicate ObservedTo(script: seq<Check>, checks: nat, n: nat, document: string) {
    && n <= checks && n <= |script| && (forall i | 0 <= i < n :: script[i].live)
    && (forall i | 0 <= i < n - 1 :: GoesOn(script[i], false, document))
    && (n < checks && (n == 0 || GoesOn(script[n - 1], false, document)) ==> n == |script| || !script[n].live)
  }

  /** An exception left the last of n checks: the browser was lost, or the rest before the next check was cancelled. */
  predicate ObservationInterrupted(script: seq<Check>, checks: nat, n: nat, document: string)
    requires n <= |script|
  {
    n > 0 &&
    (var c := script[n - 1];
     c.reading.Lost? || (n < checks && c.cancelled && c.restLive && GoesOn(c, true, document)))
  }

  /** No other number of checks fits. */
  lemma ObservedOnce(script: seq<Check>, checks: nat, n: nat, m: nat, document: string)
    requires ObservedTo(script, checks, n, document) && ObservedTo(script, checks, m, document)
    ensures n == m
  {
  }

  /** Each of the first n turns began before the deadline. */
  predicate Began(script: seq<Turn>, n: nat) {
    n <= |script| && forall i | 0 <= i < n :: script[i].live
  }

  /** The page was accepted in this turn before the deadline, an active one after its monsters were seen alive. */
  predicate Accepts(t: Turn, page: Page) {
    t.acceptLive && (page.phase == Some(Active) ==> t.parse == Parsed(true) && t.parsedLive)
  }

  /** The clearing met the accepted page, and the final reading in time saw its signature once more. */
  predicate EndsWell(e: Ending, page: Page) {
    && e.live && !e.clearLost && !e.clearFails && e.cleared == Some(page.document)
    && e.verifyLive && e.verifiedLive && e.inTime && e.acceptLive
    && e.reading.Seen? && e.reading.page.Signature() == page.Signature()
  }

  /** An exception leaves the clearing or the final reading. */
  predicate EndRaises(e: Ending, page: Page) {
    e.live && (e.clearLost
               || (!e.clearFails && e.cleared == Some(page.document) && e.verifyLive && e.reading.Lost?))
  }

  /** What the clearing, the final reading and the reset add to the log. */
  function EndOps(e: Ending, page: Page): seq<Op> {
    if !e.live then []
    else if e.clearLost || e.clearFails || e.cleared != Some(page.document) || !e.verifyLive then [Clear]
    else if e.verifiedLive && e.reading.Seen? && e.reading.page.Signature() == page.Signature() && e.inTime then
      [Clear, Read(e.reading)] + ResetUnlessComplete(page)
    else [Clear, Read(e.reading)]
  }

  predicate Shows(op: Op, signature: Signature) {
    op.Read? && op.reading.Seen? && op.reading.page.Signature() == signature
  }

  /** The last operations, as many as given, are all readings with this signature. */
  predicate EndsStable(ops: seq<Op>, window: nat, signature: Signature)
    decreases window
  {
    window == 0 || (
      && ops != [] && Shows(ops[|ops| - 1], signature)
      && EndsStable(ops[..|ops| - 1], window - 1, signature))
  }

  lemma {:induction false} EndsStableAt(ops: seq<Op>, window: nat, signature: Signature, i: nat)
    requires EndsStable(ops, window, signature) && |ops| - window <= i < |ops|
    ensures window <= |ops| && Shows(ops[i], signature)
    decreases window
  {
    var front := ops[..|ops| - 1];
    if window > 1 { EndsStableAt(front, window - 1, signature, if i < |front| then i else |front| - 1); }
  }

  lemma {:induction false} ShorterWindow(ops: seq<Op>, window: nat, n: nat, signature: Signature)
    requires EndsStable(ops, window, signature) && n <= window
    ensures EndsStable(ops, n, signature)
    decreases window
  {
    if n > 0 { ShorterWindow(ops[..|ops| - 1], window - 1, n - 1, signature); }
  }

  /** The page accepted in turn n is eligible and ends a window of equal readings. */
  ghost predicate SettledIn(ops: seq<Op>, w: Wanted, page: Page, script: seq<Turn>, n: nat) {
    && w.Suits(page) && EndsStable(ops, w.stableChecks, page.Signature())
    && w.stableChecks <= n <= |script| && n > 0 && Accepts(script[n - 1], page)
  }

  /** How far a recovery went: checks and turns made, whether it reloaded, and what followed the stable page. */
  datatype Run = Run(checks: nat, reloaded: bool, turns: nat, rest: seq<Op>) {
    ghost function Window(start: seq<Op>, checks: seq<Check>, turns: seq<Turn>): seq<Op>
      requires this.checks <= |checks| && this.turns <= |turns|
    {
      if reloaded then start + CheckReads(checks, this.checks) + [Reload] + TurnReads(turns, 0, this.turns)
      else start + CheckReads(checks, this.checks) + TurnReads(turns, 1, this.turns)
    }
  }

  /** What a run that got past its checks waits for: after a reload nothing is given, else the changed page. */
  ghost function WantedBy(run: Run, document: string, realm: string, stableChecks: nat, checks: seq<Check>): Wanted
    requires run.checks <= |checks|
  {
    Wanted(document, realm,
           if !run.reloaded && SawChange(checks, run.checks, document)
           then Some(checks[run.checks - 1].reading.page) else None,
           stableChecks)
  }

  /** The last check of these saw another document than the one before the click. */
  predicate SawChange(script: seq<Check>, n: nat, document: string)
    requires n <= |script|
  {
    n > 0 && script[n - 1].reading.Seen? && script[n - 1].reading.page.document != document && script[n - 1].afterwards
  }

  /** The log grew by exactly the run's operations, its readings being what the page answered before the deadline. */
  ghost predicate Follows(run: Run, start: seq<Op>, ops: seq<Op>, checks: seq<Check>, turns: seq<Turn>, ending: Ending) {
    && run.checks <= |checks| && run.turns <= |turns| && Began(turns, run.turns)
    && ops == run.Window(start, checks, turns) + run.rest
    && run.rest <= [Clear, Read(ending.reading), Reset]
  }

  /** What the stability loop does about a page it has read. */
  datatype Decision = Waits | Takes | Refuses | Raises

  /** How the reading of a turn ends. */
  datatype ReadEnd = Fine | Poor | Fatal

  /** How a turn ends. */
  datatype TurnEnd = GoesOnWaiting | TakesPage | EndsLoop | Interrupts

  /** The length of the window of equal readings that ends in this page. */
  function Extended(last: Option<Signature>, matching: nat, page: Page): nat {
    if last == Some(page.Signature()) then matching + 1 else 1
  }

  /** What the stability loop is asked for. */
  datatype Wanted = Wanted(preClickDocument: string, realm: string, initial: Option<Page>, stableChecks: nat) {
    predicate Suits(page: Page) {
      Eligible(page, preClickDocument, realm)
    }
  }

  /** The page that turn i looks at; the first one may be given. */
  function PageIn(w: Wanted, script: seq<Turn>, i: nat): Option<Page>
    requires i < |script|
  {
    if i == 0 && w.initial.Some? then w.initial
    else if script[i].reading.Seen? then Some(script[i].reading.page)
    else None
  }

  /** Turn i gets past its reading. */
  predicate Readable(w: Wanted, script: seq<Turn>, i: nat)
    requires i < |script|
  {
    || (i == 0 && w.initial.Some?)
    || ((script[i].reading.Seen? || script[i].reading.Mismatch?) && script[i].afterwards)
  }

  /** The run of equal eligible pages that ends in the page of turn i - 1. */
  datatype Streak = Streak(last: Option<Signature>, matching: nat)

  function StreakAfter(w: Wanted, script: seq<Turn>, i: nat): Streak
    requires i <= |script|
  {
    if i == 0 then Streak(None, 0)
    else
      var page := PageIn(w, script, i - 1);
      if page.None? || !w.Suits(page.value) then Streak(None, 0)
      else
        var before := StreakAfter(w, script, i - 1);
        Streak(Some(page.value.Signature()), Extended(before.last, before.matching, page.value))
  }

  /** Turn i accepts its page: an eligible one that completes the window. */
  predicate TakesAt(w: Wanted, script: seq<Turn>, i: nat)
    requires i < |script|
  {
    && script[i].live && Readable(w, script, i) && PageIn(w, script, i).Some?
    && w.Suits(PageIn(w, script, i).value) && StreakAfter(w, script, i + 1).matching >= w.stableChecks
    && Accepts(script[i], PageIn(w, script, i).value)
  }

  /** The page gives the loop a reason to wait for another one. */
  predicate AsksToWait(w: Wanted, t: Turn, page: Option<Page>, matching: nat) {
    || page.None? || !w.Suits(page.value) || matching < w.stableChecks
    || (t.acceptLive && page.value.phase == Some(Active)
        && (t.parse.ParseFailed? || (t.parse == Parsed(false) && t.parsedLive)))
  }

  /** Turn i only waits for the next one. */
  predicate WaitsAt(w: Wanted, script: seq<Turn>, i: nat)
    requires i < |script|
  {
    && script[i].live && Readable(w, script, i)
    && AsksToWait(w, script[i], PageIn(w, script, i), StreakAfter(w, script, i + 1).matching)
    && script[i].restLive && !script[i].cancelled
  }

  predicate TakesLast(w: Wanted, script: seq<Turn>, n: nat) {
    0 < n <= |script| && TakesAt(w, script, n - 1)
  }

  /** An exception leaves turn i: the browser is lost, the parse of a settled page loses it, or the rest is cancelled. */
  predicate InterruptsAt(w: Wanted, script: seq<Turn>, i: nat)
    requires i < |script|
  {
    var t, page := script[i], PageIn(w, script, i);
    var matching := StreakAfter(w, script, i + 1).matching;
    || (!(i == 0 && w.initial.Some?) && t.reading.Lost?)
    || (Readable(w, script, i) && ParseLosesPage(w, t, page, matching))
    || (Readable(w, script, i) && AsksToWait(w, t, page, matching) && t.restLive && t.cancelled)
  }

  predicate ParseLosesPage(w: Wanted, t: Turn, page: Option<Page>, matching: nat) {
    && page.Some? && w.Suits(page.value) && matching >= w.stableChecks
    && t.acceptLive && page.value.phase == Some(Active) && t.parse.ParseLost?
  }

  predicate InterruptsLast(w: Wanted, script: seq<Turn>, n: nat) {
    0 < n <= |script| && InterruptsAt(w, script, n - 1)
  }

  /** A turn ends in one way. */
  lemma TurnsEndOneWay(w: Wanted, script: seq<Turn>, i: nat)
    requires i < |script|
    ensures !(WaitsAt(w, script, i) && TakesAt(w, script, i))
    ensures !(WaitsAt(w, script, i) && InterruptsAt(w, script, i))
    ensures !(TakesAt(w, script, i) && InterruptsAt(w, script, i))
  {
  }

  /** The loop made n turns: each in time, all but the last one only waiting, and no fewer than it had to. */
  ghost predicate LoopEnds(w: Wanted, script: seq<Turn>, n: nat) {
    && Began(script, n) && (forall i | 0 <= i < n - 1 :: WaitsAt(w, script, i))
    && (n == 0 || WaitsAt(w, script, n - 1) ==> n == |script| || !script[n].live)
  }

  /** No other number of turns fits. */
  lemma LoopEndsOnce(w: Wanted, script: seq<Turn>, n: nat, m: nat)
    requires LoopEnds(w, script, n) && LoopEnds(w, script, m)
    ensures n == m
  {
  }

  /** How waiting for w and the verification behind it end, and what they add to the log behind the n turns. */
  ghost predicate SettlesAs(w: Wanted, script: seq<Turn>, n: nat, e: Ending, v: Verdict, rest: seq<Op>) {
    && LoopEnds(w, script, n)
    && (v.Accepted? <==> TakesLast(w, script, n) && EndsWell(e, PageIn(w, script, n - 1).value))
    && (v.Raised? <==>
          InterruptsLast(w, script, n) || (TakesLast(w, script, n) && EndRaises(e, PageIn(w, script, n - 1).value)))
    && rest == if TakesLast(w, script, n) then EndOps(e, PageIn(w, script, n - 1).value) else []
  }

  lemma WindowGrows(ops: seq<Op>, matching: nat, last: Option<Signature>, page: Page)
    requires ops != [] && ops[|ops| - 1] == Read(Seen(page))
    requires matching > 0 ==> last.Some? && EndsStable(ops[..|ops| - 1], matching, last.value)
    ensures EndsStable(ops, Extended(last, matching, page), page.Signature())
  {
  }

  /** The streak counted by the loop is a window of equal readings at the end of the log. */
  lemma {:induction false} StreakIsStable(w: Wanted, script: seq<Turn>, n: nat, start: seq<Op>)
    requires n <= |script|
    requires w.initial.Some? ==> start != [] && start[|start| - 1] == Read(Seen(w.initial.value))
    ensures var k := StreakAfter(w, script, n);
            k.matching <= n
            && (k.matching > 0 ==>
                  k.last.Some?
                  && EndsStable(start + TurnReads(script, One(w.initial.Some?), n), k.matching, k.last.value))
  {
    if n > 0 {
      StreakIsStable(w, script, n - 1, start);
      var before, page := StreakAfter(w, script, n - 1), PageIn(w, script, n - 1);
      var earlier := start + TurnReads(script, One(w.initial.Some?), n - 1);
      var ops := start + TurnReads(script, One(w.initial.Some?), n);
      if n == 1 && w.initial.Some? {
        assert ops == start;
      } else {
        assert ops == earlier + [Read(script[n - 1].reading)];
        assert ops[..|ops| - 1] == earlier;
      }
      if page.Some? && w.Suits(page.value) {
        WindowGrows(ops, before.matching, before.last, page.value);
      }
    }
  }

  function One(b: bool): nat { if b then 1 else 0 }

  function ResetUnlessComplete(page: Page): seq<Op> {
    if page.phase == Some(Complete) then [] else [Reset]
  }

  /** The run got to waiting for w: behind a changed page, or behind the one reload. */
  predicate Waited(run: Run, w: Wanted, reload: Option<bool>) {
    (run.reloaded && reload == Some(true)) || w.initial.Some?
  }

  /** How a run ends: the script says after how many checks and turns, with which verdict and with what in the log. */
  ghost predicate Ends(run: Run, w: Wanted, needed: nat, checks: seq<Check>, reload: Option<bool>, turns: seq<Turn>,
      ending: Ending, v: Verdict)
    requires run.checks <= |checks|
  {
    && ObservedTo(checks, needed, run.checks, w.preClickDocument)
    && (run.reloaded <==> ChecksAllOld(checks, needed, w.preClickDocument))
    && if Waited(run, w, reload) then SettlesAs(w, turns, run.turns, ending, v, run.rest)
       else
         && run.turns == 0 && run.rest == [] && !v.Accepted?
         && (v.Raised? <==>
               (run.reloaded && reload.None?)
               || ObservationInterrupted(checks, needed, run.checks, w.preClickDocument))
  }

  /** What the observation says of the n checks it made. */
  ghost predicate Observes(checks: seq<Check>, needed: nat, n: nat, document: string, o: Observation) {
    && ObservedTo(checks, needed, n, document)
    && (o.ConfirmedUnchanged? <==> ChecksAllOld(checks, needed, document))
    && (o.Changed? <==> SawChange(checks, n, document))
    && (o.Changed? ==> checks[n - 1].reading == Seen(o.page))
    && (o.Interrupted? <==> ObservationInterrupted(checks, needed, n, document))
  }

  /** What follows an observation. */
  ghost predicate Continues(o: Observation, w: Wanted, reload: Option<bool>, turns: seq<Turn>, ending: Ending, v: Verdict,
      m: nat, rest: seq<Op>)
  {
    match o
    case Changed(_) => SettlesAs(w, turns, m, ending, v, rest)
    case ConfirmedUnchanged =>
      if reload == Some(true) then SettlesAs(w, turns, m, ending, v, rest)
      else m == 0 && rest == [] && !v.Accepted? && (v.Raised? <==> reload.None?)
    case _ => m == 0 && rest == [] && !v.Accepted? && (v.Raised? <==> o.Interrupted?)
  }

  lemma ContinuesEnds(run: Run, w: Wanted, needed: nat, checks: seq<Check>, o: Observation, reload: Option<bool>,
      turns: seq<Turn>, ending: Ending, v: Verdict)
    requires Observes(checks, needed, run.checks, w.preClickDocument, o) && run.reloaded == o.ConfirmedUnchanged?
    requires w.initial == if o.Changed? then Some(o.page) else None
    requires Continues(o, w, reload, turns, ending, v, run.turns, run.rest)
    ensures w == WantedBy(run, w.preClickDocument, w.realm, w.stableChecks, checks)
    ensures Ends(run, w, needed, checks, reload, turns, ending, v)
  {
  }

  /** An accepted page settled in the log, and was verified behind it. */
  ghost predicate Verified(run: Run, w: Wanted, start: seq<Op>, checks: seq<Check>, turns: seq<Turn>, ending: Ending,
      page: Page)
    requires run.checks <= |checks| && run.turns <= |turns|
  {
    && SettledIn(run.Window(start, checks, turns), w, page, turns, run.turns) && EndsWell(ending, page)
    && run.rest == [Clear, Read(ending.reading)] + ResetUnlessComplete(page)
  }

  lemma EndsFollow(run: Run, w: Wanted, needed: nat, start: seq<Op>, ops: seq<Op>, checks: seq<Check>,
      reload: Option<bool>, turns: seq<Turn>, ending: Ending, v: Verdict)
    requires run.checks <= |checks| && run.turns <= |turns| && ops == run.Window(start, checks, turns) + run.rest
    requires Ends(run, w, needed, checks, reload, turns, ending, v)
    ensures Follows(run, start, ops, checks, turns, ending)
  {
  }

  lemma AcceptedIsVerified(run: Run, w: Wanted, needed: nat, start: seq<Op>, checks: seq<Check>, reload: Option<bool>,
      turns: seq<Turn>, ending: Ending)
    requires run.checks <= |checks| && run.turns <= |turns|
    requires Ends(run, w, needed, checks, reload, turns, ending, Accepted)
    ensures TakesLast(w, turns, run.turns)
    ensures var page := PageIn(w, turns, run.turns - 1).value;
            SettledIn(run.Window(start, checks, turns), w, page, turns, run.turns) ==>
              Verified(run, w, start, checks, turns, ending, page)
  {
  }

  class BattleRecoveryCoordinator {
    ghost var ops: seq<Op>

    constructor ()
      ensures ops == []
    {
      ops := [];
    }

    ghost method Note(op: Op)
      modifies this
      ensures ops == old(ops) + [op] && ops[..|ops| - 1] == old(ops)
      ensures Reloads(ops) == Reloads(old(ops)) + if op.Reload? then 1 else 0
    {
      ReloadsGrow(ops, op);
      ops := ops + [op];
    }

    /** One check of the page that was there before the click; the last one has no rest behind it. */
    method ReadCheck(c: Check, last: bool, document: string) returns (o: Option<Observation>)
      requires c.live
      modifies this
      ensures ops == old(ops) + [Read(c.reading)] && Reloads(ops) == Reloads(old(ops))
      ensures o.None? <==> GoesOn(c, last, document)
      ensures o.Some? ==> !o.value.ConfirmedUnchanged?
      ensures (o.Some? && o.value.Interrupted?) <==>
              c.reading.Lost? || (!last && c.cancelled && c.restLive && GoesOn(c, true, document))
      ensures (o.Some? && o.value.Changed?) <==>
              c.reading.Seen? && c.reading.page.document != document && c.afterwards
      ensures o.Some? && o.value.Changed? ==> c.reading == Seen(o.value.page)
    {
      Note(Read(c.reading));
      if c.reading.Lost? {
        return Some(Interrupted);
      }
      if !c.afterwards || c.reading.Errored? {
        return Some(Indeterminate);
      }
      if c.reading.Seen? && c.reading.page.document != document {
        return Some(Changed(c.reading.page));
      }
      if !last {
        if !c.restLive {
          return Some(Indeterminate);
        }
        if c.cancelled {
          return Some(Interrupted);
        }
      }
      o := None;
    }

    /** `_observe_document_change`: n checks read the page; Interrupted is an exception. */
    method ObserveDocumentChange(preClickDocument: string, checks: nat, script: seq<Check>)
      returns (o: Observation, ghost n: nat)
      modifies this
      ensures Observes(script, checks, n, preClickDocument, o)
      ensures ops == old(ops) + CheckReads(script, n) && Reloads(ops) == Reloads(old(ops))
    {
      var confirmed := 0;
      n := 0;
      for check := 0 to checks
        invariant check == n <= |script|
        invariant ops == old(ops) + CheckReads(script, n) && Reloads(ops) == Reloads(old(ops))
        invariant forall i | 0 <= i < check :: GoesOn(script[i], i + 1 == checks, preClickDocument)
        invariant 0 <= confirmed <= check
        invariant confirmed == check <==> forall i | 0 <= i < check :: script[i].reading.Seen?
      {
        if check >= |script| || !script[check].live {
          return Indeterminate, n;
        }
        var end := ReadCheck(script[check], check + 1 == checks, preClickDocument);
        n := n + 1;
        if end.Some? {
          return end.value, n;
        }
        if script[check].reading.Seen? {
          confirmed := confirmed + 1;
        }
      }
      o := if confirmed == checks && |script| > checks && script[checks].live then ConfirmedUnchanged else Indeterminate;
    }

    /** One page in the stability loop: it extends or restarts the window, or ends it, and may be accepted. */
    method JudgePage(t: Turn, page: Page, w: Wanted, last: Option<Signature>, matching: nat)
      returns (d: Decision, signature: Option<Signature>, count: nat)
      ensures if w.Suits(page)
              then signature == Some(page.Signature()) && count == Extended(last, matching, page)
              else signature.None? && count == 0
      ensures d.Takes? <==> w.Suits(page) && count >= w.stableChecks && Accepts(t, page)
      ensures d.Waits? <==> AsksToWait(w, t, Some(page), count)
      ensures d.Raises? <==> ParseLosesPage(w, t, Some(page), count)
    {
      if !w.Suits(page) {
        return Waits, None, 0;
      }
      signature, count := Some(page.Signature()), Extended(last, matching, page);
      if count < w.stableChecks {
        return Waits, signature, count;
      }
      if !t.acceptLive {
        return Refuses, signature, count;
      }
      if page.phase != Some(Active) {
        return Takes, signature, count;
      }
      match t.parse {
        case ParseLost => d := Raises;
        case ParseTimedOut => d := Refuses;
        case ParseFailed => d := Waits;
        case Parsed(alive) => d := if !t.parsedLive then Refuses else if alive then Takes else Waits;
      }
    }

    /** The reading of one turn, unless its page is given; Fatal is an exception, Poor ends the loop. */
    method ReadTurn(t: Turn, given: Option<Page>) returns (end: ReadEnd, page: Option<Page>)
      modifies this
      ensures Reloads(ops) == Reloads(old(ops))
      ensures given.Some? ==> end.Fine? && page == given && ops == old(ops)
      ensures given.None? ==>
                && ops == old(ops) + [Read(t.reading)] && ops[..|ops| - 1] == old(ops)
                && page == (if t.reading.Seen? then Some(t.reading.page) else None)
                && (end.Fine? <==> (t.reading.Seen? || t.reading.Mismatch?) && t.afterwards)
                && (end.Fatal? <==> t.reading.Lost?)
    {
      end, page := Fine, given;
      if given.None? {
        Note(Read(t.reading));
        match t.reading {
          case Lost => return Fatal, None;
          case Errored => return Poor, None;
          case Mismatch =>
          case Seen(seen) => page := Some(seen);
        }
        if !t.afterwards {
          end := Poor;
        }
      }
    }

    /** Turn i of the stability loop, behind a streak of matching readings of last. */
    method TakeTurn(w: Wanted, script: seq<Turn>, i: nat, last: Option<Signature>, matching: nat)
      returns (end: TurnEnd, page: Option<Page>, signature: Option<Signature>, count: nat)
      requires i < |script| && script[i].live && StreakAfter(w, script, i) == Streak(last, matching)
      modifies this
      ensures ops == old(ops) + (if i == 0 && w.initial.Some? then [] else [Read(script[i].reading)])
      ensures Reloads(ops) == Reloads(old(ops))
      ensures end.GoesOnWaiting? <==> WaitsAt(w, script, i)
      ensures end.TakesPage? <==> TakesAt(w, script, i)
      ensures end.Interrupts? <==> InterruptsAt(w, script, i)
      ensures end.GoesOnWaiting? || end.TakesPage? ==>
                page == PageIn(w, script, i) && StreakAfter(w, script, i + 1) == Streak(signature, count)
    {
      var t := script[i];
      signature, count := None, 0;
      var read;
      read, page := ReadTurn(t, if i == 0 then w.initial else None);
      if !read.Fine? {
        end := if read.Fatal? then Interrupts else EndsLoop;
        return;
      }
      if page.Some? {
        var decision;
        decision, signature, count := JudgePage(t, page.value, w, last, matching);
        match decision {
          case Refuses => return EndsLoop, page, signature, count;
          case Raises => return Interrupts, page, signature, count;
          case Takes => return TakesPage, page, signature, count;
          case Waits =>
        }
      }
      end := if !t.restLive then EndsLoop else if t.cancelled then Interrupts else GoesOnWaiting;
    }

    /** The loop of `_wait_for_stable_state`: turn after turn, until one does not wait or the deadline expires. */
    method PollTurns(w: Wanted, script: seq<Turn>)
      returns (end: TurnEnd, page: Option<Page>, ghost n: nat)
      modifies this
      ensures n <= |script| && (n > 0 ==> script[n - 1].live) && Reloads(ops) == Reloads(old(ops))
      ensures ops == old(ops) + TurnReads(script, One(w.initial.Some?), n)
      ensures forall k | 0 <= k < n - 1 :: WaitsAt(w, script, k)
      ensures end.GoesOnWaiting? <==> n == 0 || WaitsAt(w, script, n - 1)
      ensures end.GoesOnWaiting? ==> n == |script| || !script[n].live
      ensures end.TakesPage? <==> TakesLast(w, script, n)
      ensures end.Interrupts? <==> InterruptsLast(w, script, n)
      ensures end.TakesPage? ==> page == PageIn(w, script, n - 1)
    {
      var last: Option<Signature>, count: nat := None, 0;
      end, page, n := GoesOnWaiting, None, 0;
      for i := 0 to |script|
        invariant n == i && (n > 0 ==> script[n - 1].live) && Reloads(ops) == Reloads(old(ops)) && end.GoesOnWaiting?
        invariant ops == old(ops) + TurnReads(script, One(w.initial.Some?), n)
        invariant StreakAfter(w, script, n) == Streak(last, count)
        invariant forall k | 0 <= k < n :: WaitsAt(w, script, k)
        invariant !TakesLast(w, script, n) && !InterruptsLast(w, script, n)
      {
        if !script[i].live {
          return;
        }
        TurnsEndOneWay(w, script, i);
        n := n + 1;
        end, page, last, count := TakeTurn(w, script, i, last, count);
        if !end.GoesOnWaiting? {
          return;
        }
      }
    }

    /**
     `_wait_for_stable_state`: n turns began, each but a first one with a page to start from reading the page;
     it accepts exactly the first page that ends a window of equal eligible readings in time.
     */
    method WaitForStableState(w: Wanted, script: seq<Turn>)
      returns (stable: Option<Page>, interrupted: bool, ghost n: nat)
      requires w.stableChecks >= 1
      requires w.initial.Some? ==> ops != [] && ops[|ops| - 1] == Read(Seen(w.initial.value))
      modifies this
      ensures LoopEnds(w, script, n) && Reloads(ops) == Reloads(old(ops))
      ensures ops == old(ops) + TurnReads(script, One(w.initial.Some?), n)
      ensures stable.Some? <==> TakesLast(w, script, n)
      ensures interrupted <==> InterruptsLast(w, script, n)
      ensures stable.Some? ==>
                !interrupted && stable == PageIn(w, script, n - 1) && SettledIn(ops, w, stable.value, script, n)
    {
      ghost var start := ops;
      var end, page;
      end, page, n := PollTurns(w, script);
      forall i | 0 <= i < n - 1 ensures script[i].live {
        assert WaitsAt(w, script, i);
      }
      if end.TakesPage? {
        StreakIsStable(w, script, n, start);
        ShorterWindow(ops, StreakAfter(w, script, n).matching, w.stableChecks, page.value.Signature());
        return page, false, n;
      }
      return None, end.Interrupts?, n;
    }

    /** After the observation: the stable window, the clearing of the page's hooks, and the verification. */
    method SettleAndVerify(w: Wanted, turns: seq<Turn>, ending: Ending)
      returns (v: Verdict, ghost page: Page, ghost n: nat, ghost rest: seq<Op>)
      requires w.stableChecks >= 1
      requires w.initial.Some? ==> ops != [] && ops[|ops| - 1] == Read(Seen(w.initial.value))
      modifies this
      ensures SettlesAs(w, turns, n, ending, v, rest) && Reloads(ops) == Reloads(old(ops))
      ensures ops == old(ops) + TurnReads(turns, One(w.initial.Some?), n) + rest
      ensures v.Accepted? ==>
                && page == PageIn(w, turns, n - 1).value
                && SettledIn(old(ops) + TurnReads(turns, One(w.initial.Some?), n), w, page, turns, n)
    {
      page := Page("", "", "", None, None, None, 0);
      rest := [];
      var stable, interrupted;
      stable, interrupted, n := WaitForStableState(w, turns);
      if interrupted {
        return Raised, page, n, rest;
      }
      if stable.None? {
        return Refused, page, n, rest;
      }
      page := stable.value;
      v, rest := Finish(stable.value, ending);
    }

    /** The one reload, and what follows when it succeeds; None is an exception. */
    method ReloadAndSettle(w: Wanted, reload: Option<bool>, turns: seq<Turn>, ending: Ending)
      returns (v: Verdict, ghost page: Page, ghost n: nat, ghost rest: seq<Op>)
      requires w.stableChecks >= 1 && w.initial.None?
      modifies this
      ensures n <= |turns| && Reloads(ops) == Reloads(old(ops)) + 1
      ensures ops == old(ops) + [Reload] + TurnReads(turns, 0, n) + rest
      ensures if reload == Some(true) then SettlesAs(w, turns, n, ending, v, rest)
              else n == 0 && rest == [] && !v.Accepted? && (v.Raised? <==> reload.None?)
      ensures v.Accepted? ==>
                && page == PageIn(w, turns, n - 1).value
                && SettledIn(old(ops) + [Reload] + TurnReads(turns, 0, n), w, page, turns, n)
    {
      page, n, rest := Page("", "", "", None, None, None, 0), 0, [];
      Note(Reload);
      if reload.None? {
        return Raised, page, n, rest;
      }
      if !reload.value {
        return Refused, page, n, rest;
      }
      v, page, n, rest := SettleAndVerify(w, turns, ending);
    }

    /** The observation, and what it leads to. */
    method ObserveAndSettle(document: string, realm: string, needed: nat, stableChecks: nat, checks: seq<Check>,
        reload: Option<bool>, turns: seq<Turn>, ending: Ending)
      returns (v: Verdict, o: Observation, ghost page: Page, ghost run: Run)
      requires stableChecks >= 1
      modifies this
      ensures Observes(checks, needed, run.checks, document, o) && run.reloaded == o.ConfirmedUnchanged?
      ensures Reloads(ops) == Reloads(old(ops)) + One(run.reloaded)
      ensures run.turns <= |turns| && ops == run.Window(old(ops), checks, turns) + run.rest
      ensures var w := Wanted(document, realm, if o.Changed? then Some(o.page) else None, stableChecks);
              && Continues(o, w, reload, turns, ending, v, run.turns, run.rest)
              && (v.Accepted? ==>
                    && page == PageIn(w, turns, run.turns - 1).value
                    && SettledIn(run.Window(old(ops), checks, turns), w, page, turns, run.turns))
    {
      page, run := Page("", "", "", None, None, None, 0), Run(0, false, 0, []);
      ghost var start, n, m, rest := ops, 0, 0, [];
      o, n := ObserveDocumentChange(document, needed, checks);
      if o.Changed? {
        v, page, m, rest := SettleAndVerify(Wanted(document, realm, Some(o.page), stableChecks), turns, ending);
        run := Run(n, false, m, rest);
      } else if o.ConfirmedUnchanged? {
        v, page, m, rest := ReloadAndSettle(Wanted(document, realm, None, stableChecks), reload, turns, ending);
        run := Run(n, true, m, rest);
      } else {
        v := if o.Interrupted? then Raised else Refused;
        run := Run(n, false, 0, []);
        assert ops == start + CheckReads(checks, n) + [] + [];
      }
    }

    /** `recover` behind its guards. */
    method RecoverFrom(document: string, realm: string, needed: nat, stableChecks: nat, checks: seq<Check>,
        reload: Option<bool>, turns: seq<Turn>, ending: Ending)
      returns (v: Verdict, ghost page: Page, ghost run: Run)
      requires stableChecks >= 1
      modifies this
      ensures Follows(run, old(ops), ops, checks, turns, ending) && Reloads(ops) == Reloads(old(ops)) + One(run.reloaded)
      ensures var w := WantedBy(run, document, realm, stableChecks, checks);
              && Ends(run, w, needed, checks, reload, turns, ending, v)
              && (v.Accepted? ==> Verified(run, w, old(ops), checks, turns, ending, page))
    {
      ghost var start := ops;
      var o;
      v, o, page, run := ObserveAndSettle(document, realm, needed, stableChecks, checks, reload, turns, ending);
      ghost var w := Wanted(document, realm, if o.Changed? then Some(o.page) else None, stableChecks);
      ContinuesEnds(run, w, needed, checks, o, reload, turns, ending, v);
      EndsFollow(run, w, needed, start, ops, checks, reload, turns, ending, v);
      if v.Accepted? { AcceptedIsVerified(run, w, needed, start, checks, reload, turns, ending); }
    }

    /**
     `recover`: at most one reload, exactly when every check read the old document; acceptance exactly for a page
     that ends a stable window of what the page answered, with an equal final reading in time.
     */
    method Recover(evidence: RecoveryEvidence, realm: string, autoReloadChecks: int, stableChecks: int,
        checks: seq<Check>, reload: Option<bool>, turns: seq<Turn>, ending: Ending)
      returns (v: Verdict, ghost page: Page, ghost run: Run)
      modifies this
      ensures Follows(run, old(ops), ops, checks, turns, ending) && Reloads(ops) == Reloads(old(ops)) + One(run.reloaded)
      ensures run.reloaded <==>
                && ValidParameters(realm, autoReloadChecks, stableChecks) && AllowsRecovery(evidence)
                && ChecksAllOld(checks, if MatchesStalledXhr(evidence) then 1 else autoReloadChecks,
                                evidence.preClickDocument)
      ensures !ValidParameters(realm, autoReloadChecks, stableChecks) ==> v.Raised? && ops == old(ops)
      ensures ValidParameters(realm, autoReloadChecks, stableChecks) && !AllowsRecovery(evidence) ==>
                v.Refused? && ops == old(ops)
      ensures ValidParameters(realm, autoReloadChecks, stableChecks) && AllowsRecovery(evidence) ==>
                var w := WantedBy(run, evidence.preClickDocument, realm, stableChecks, checks);
                && Ends(run, w, if MatchesStalledXhr(evidence) then 1 else autoReloadChecks, checks, reload, turns,
                        ending, v)
                && (v.Accepted? ==> Verified(run, w, old(ops), checks, turns, ending, page))
    {
      page := Page("", "", "", None, None, None, 0);
      run := Run(0, false, 0, []);
      if !ValidParameters(realm, autoReloadChecks, stableChecks) {
        return Raised, page, run;
      }
      if !AllowsRecovery(evidence) {
        return Refused, page, run;
      }
      var needed := if MatchesStalledXhr(evidence) then 1 else autoReloadChecks;
      v, page, run := RecoverFrom(evidence.preClickDocument, realm, needed, stableChecks, checks, reload, turns, ending);
    }

    /** Clears the page's action hooks, verifies the page once more, and resets the parser unless it is complete. */
    method Finish(stable: Page, e: Ending) returns (v: Verdict, ghost rest: seq<Op>)
      modifies this
      ensures ops == old(ops) + rest && Reloads(ops) == Reloads(old(ops)) && rest == EndOps(e, stable)
      ensures v.Accepted? <==> EndsWell(e, stable)
      ensures v.Raised? <==> EndRaises(e, stable)
    {
      rest := [];
      if !e.live {
        return Refused, rest;
      }
      Note(Clear);
      rest := [Clear];
      if e.clearLost {
        return Raised, rest;
      }
      if e.clearFails || e.cleared != Some(stable.document) || !e.verifyLive {
        return Refused, rest;
      }
      Note(Read(e.reading));
      rest := [Clear, Read(e.reading)];
      if e.reading.Lost? {
        return Raised, rest;
      }
      if !e.verifiedLive || !e.reading.Seen? || e.reading.page.Signature() != stable.Signature() || !e.inTime {
        return Refused, rest;
      }
      if stable.phase != Some(Complete) {
        Note(Reset);
        rest := [Clear, Read(e.reading), Reset];
      }
      v := if e.acceptLive then Accepted else Refused;
    }
  }

  /** The reconciliation is lawful behind the unknown outcome. */
  method PublishRecovery(bus: AuditEventBus, id: ActionId) returns (ok: bool)
    requires StageOf(TraceOf(bus.log, id)) == Ambiguous
    modifies bus
    ensures Lawful(TraceOf(bus.log, id)) && ok == !bus.failed
    ensures ok <==> !old(bus.failed) && (old(bus.fates) == [] || old(bus.fates)[0].Written?)
    ensures ok ==> TraceOf(bus.log, id) == old(TraceOf(bus.log, id)) + [ReconciliationConfirmed(SameBrowserRecovery)]
  {
    ghost var trace := TraceOf(bus.log, id);
    TraceGrows(bus.log, Entry(id, ReconciliationConfirmed(SameBrowserRecovery)), id);
    StageOfPrefix(trace, ReconciliationConfirmed(SameBrowserRecovery));
    bus.Publish(Entry(id, ReconciliationConfirmed(SameBrowserRecovery)));
    ok := !bus.failed;
  }

  /**
   `recover_unknown_action`: it is accepted exactly when the recovery is and its reconciliation is written behind the
   unknown outcome; any other recovery is reported as it ended and writes nothing.
   */
  method RecoverUnknownAction(coordinator: BattleRecoveryCoordinator, bus: AuditEventBus, evidence: RecoveryEvidence,
      realm: string, checks: seq<Check>, reload: Option<bool>, turns: seq<Turn>, ending: Ending)
    returns (v: Verdict, ghost page: Page, ghost run: Run, ghost found: Verdict)
    requires StageOf(TraceOf(bus.log, evidence.id)) == Ambiguous
    modifies coordinator, bus
    ensures Follows(run, old(coordinator.ops), coordinator.ops, checks, turns, ending)
    ensures Reloads(coordinator.ops) <= Reloads(old(coordinator.ops)) + 1
    ensures Lawful(TraceOf(bus.log, evidence.id))
    ensures v == if found.Accepted? && bus.failed then Raised else found
    ensures found.Accepted? ==> (bus.failed <==> old(bus.failed) || (old(bus.fates) != [] && !old(bus.fates)[0].Written?))
    ensures !found.Accepted? ==> bus.log == old(bus.log) && bus.failed == old(bus.failed)
    ensures if !ValidParameters(realm, 4, 2) then found.Raised?
            else if !AllowsRecovery(evidence) then found.Refused?
            else Ends(run, WantedBy(run, evidence.preClickDocument, realm, 2, checks),
                      if MatchesStalledXhr(evidence) then 1 else 4, checks, reload, turns, ending, found)
    ensures v.Accepted? ==>
              && !bus.failed && Eligible(page, evidence.preClickDocument, realm) && EndsWell(ending, page)
              && TraceOf(bus.log, evidence.id) ==
                 old(TraceOf(bus.log, evidence.id)) + [ReconciliationConfirmed(SameBrowserRecovery)]
  {
    v, page, run := coordinator.Recover(evidence, realm, 4, 2, checks, reload, turns, ending);
    found := v;
    if v.Accepted? {
      var published := PublishRecovery(bus, evidence.id);
      if !published {
        v := Raised;
      }
    }
  }
}
