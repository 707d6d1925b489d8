/** Recorded money, as a bookkeeper sees it: exactly which histories are accepted, which roots are clean, and which
    commands extend them, in terms of the entries alone. */
module MoneyVerdicts {
  import opened Wrappers
  import opened Records
  import opened StateEngine
  import opened Rules
  import opened Sums
  import opened RecordedMoney
  import Lifecycle

  // ---- one entry ----

  /** `e` takes back the movement at `i`: an exact inverse, no earlier than it, and the only one. */
  ghost predicate Withdraws(history: seq<Entry>, i: int, e: Entry) {
    && 0 <= i < |history|
    && e.command.target == Some(history[i].command.commandId)
    && history[i].command.kind != Correction
    && (forall k :: 0 <= k < |history| ==> history[k].command.target != e.command.target)
    && history[i].recordedAt <= e.recordedAt
    && e.signedAmount == -history[i].signedAmount
    && e.effectiveAt == history[i].effectiveAt
    && e.evidenceReference == history[i].evidenceReference
  }

  /** The entry says what its command asked for, after this history. */
  ghost predicate Says(history: seq<Entry>, e: Entry) {
    match e.command.kind
    case Correction => exists i :: Withdraws(history, i, e)
    case kind =>
      && e.signedAmount == (if kind == Receipt then e.command.amount.value else -e.command.amount.value)
      && e.command.occurredAt == Some(e.effectiveAt)
      && e.effectiveAt <= e.recordedAt
      && e.evidenceReference == e.command.evidenceReference
  }

  /** The money with this entry: nothing is repaid that was not received, and no more is received than required. */
  ghost predicate Funded(history: seq<Entry>, required: Option<Money>) {
    && 0.0 <= Repaid(history) <= Received(history)
    && (required.Some? ==> Received(history) <= required.value)
  }

  ghost predicate Extends(history: seq<Entry>, e: Entry, required: Option<Money>) {
    && (forall k :: 0 <= k < |history| ==> history[k].command.commandId != e.command.commandId)
    && (history != [] ==> e.paymentId == history[0].paymentId)
    && Says(history, e)
    && Funded(history + [e], required)
  }

  /** The entry that is made for a command is the one entry that says it. */
  lemma MadeVerdict(history: seq<Entry>, l: Ledger, c: ValidCommand, paymentId: string, now: Time, e: Entry)
    requires Indexed(history, l) && DistinctCommands(history)
    ensures MakeEntry(paymentId, c, now, l.seen, l.corrected) == Ok(e) <==>
      e.paymentId == paymentId && e.command == c && e.recordedAt == now && Says(history, e)
  {
    if c.kind.Correction? {
      CorrectionVerdict(history, l, c, paymentId, now, e);
    }
  }

  lemma CorrectionVerdict(history: seq<Entry>, l: Ledger, c: ValidCommand, paymentId: string, now: Time, e: Entry)
    requires Indexed(history, l) && DistinctCommands(history) && c.kind.Correction?
    ensures MakeEntry(paymentId, c, now, l.seen, l.corrected) == Ok(e) <==>
      e.paymentId == paymentId && e.command == c && e.recordedAt == now && exists i :: Withdraws(history, i, e)
  {
    var id := c.target.value;
    assert Corrected(history, id) <==> !forall k :: 0 <= k < |history| ==> history[k].command.target != Some(id);
    if MakeEntry(paymentId, c, now, l.seen, l.corrected) == Ok(e) {
      var i :| 0 <= i < |history| && history[i].command.commandId == id;
      assert Withdraws(history, i, e);
    }
    if e.paymentId == paymentId && e.command == c && e.recordedAt == now {
      if i :| Withdraws(history, i, e) {
        assert l.seen[id] == history[i];
      }
    }
  }

  lemma SaidIsMatched(history: seq<Entry>, l: Ledger, e: Entry)
    requires Matches(history, l) && e.command.commandId !in l.seen
    requires MakeEntry(e.paymentId, e.command, e.recordedAt, l.seen, l.corrected) == Ok(e)
    ensures Moved(l, e).captured == Received(history + [e]) && Moved(l, e).refunded == Repaid(history + [e])
  {
    hide Received, Repaid, Indexed, DistinctCommands, CorrectionsSound, MakeEntry, Moved;
    if e.command.kind.Correction? {
      CorrectionMatches(history, l, e);
    } else {
      MovementMatches(history, l, e);
    }
  }

  /** The loop takes an entry exactly when it extends the history so far. */
  lemma AbsorbVerdict(history: seq<Entry>, e: Entry, paymentId: string, required: Option<Money>)
    requires Fold(history, required).Ok? && paymentId == if history == [] then e.paymentId else history[0].paymentId
    ensures Absorb(Fold(history, required).value, paymentId, e, required).Ok? <==> Extends(history, e, required)
  {
    hide Received, Repaid, MakeEntry, Moved, Says, CorrectionsSound, Fold;
    var l := Fold(history, required).value;
    FoldMatches(history, required);
    SeenMeans(history, l, e.command.commandId);
    MadeVerdict(history, l, e.command, e.paymentId, e.recordedAt, e);
    if e.command.commandId !in l.seen && Says(history, e) {
      SaidIsMatched(history, l, e);
    }
  }

  lemma SeenMeans(history: seq<Entry>, l: Ledger, id: string)
    requires Indexed(history, l)
    ensures id in l.seen <==> exists k :: 0 <= k < |history| && history[k].command.commandId == id
  {
    hide Corrected;
  }

  // ---- whole histories ----

  lemma {:induction false} FoldVerdict(history: seq<Entry>, required: Option<Money>)
    ensures Fold(history, required).Ok? <==>
      forall n :: 0 <= n < |history| ==> Extends(history[..n], history[n], required)
  {
    if history != [] {
      hide Absorb, Extends;
      var n := |history| - 1;
      var rest := history[..n];
      FoldVerdict(rest, required);
      SplitLast(history, required);
      if Fold(rest, required).Ok? {
        AbsorbVerdict(rest, history[n], history[0].paymentId, required);
      }
    }
  }

  lemma SplitLast(history: seq<Entry>, required: Option<Money>)
    requires history != []
    ensures var n := |history| - 1;
      var rest := history[..n];
      (forall k :: 0 <= k < |history| ==> Extends(history[..k], history[k], required)) <==>
      (forall k :: 0 <= k < n ==> Extends(rest[..k], rest[k], required)) && Extends(rest, history[n], required)
  {
    hide Extends;
    var n := |history| - 1;
    var rest := history[..n];
    assert forall k :: 0 <= k < n ==> rest[..k] == history[..k] && rest[k] == history[k];
    if forall k :: 0 <= k < n ==> Extends(rest[..k], rest[k], required) {
      forall k | 0 <= k < n
        ensures Extends(history[..k], history[k], required)
      {
        assert Extends(rest[..k], rest[k], required);
      }
    }
    if forall k :: 0 <= k < |history| ==> Extends(history[..k], history[k], required) {
      forall k | 0 <= k < n
        ensures Extends(rest[..k], rest[k], required)
      {
        assert Extends(history[..k], history[k], required);
      }
      assert Extends(history[..n], history[n], required);
    }
  }

  /** A history is accepted exactly when every entry extends the ones before it. */
  lemma HistoryVerdict(history: seq<Entry>, required: Option<Money>)
    ensures Project(history, required).Ok? <==>
      && (required.Some? ==> 0.0 < required.value)
      && forall n :: 0 <= n < |history| ==> Extends(history[..n], history[n], required)
  {
    hide Fold, Extends, OfKind;
    FoldVerdict(history, required);
  }

  // ---- the root ----

  /** A payment that holds recorded money and nothing else, whose summary is its history's. */
  ghost predicate CleanRoot(f: PaymentFacts, history: seq<Entry>, now: Time) {
    && f.backend == RECORDED_MONEY_BACKEND
    && f.externalId == None && f.providerData == map[] && f.observationConflicts == []
    && f.fraudStatus == FraudUnknown && f.fraudMessage == ""
    && !f.reconciliationRequired
    && f.remainingAuthorization == 0.0 && 0.0 < f.amountRequired
    && f.capturedFunds == Received(history) && f.refundedFunds == Repaid(history)
    && f.status == Lifecycle.StatusOf(ViewOf(f))
    && f.status in {New, Prepared, Partial, Paid, PartiallyRefunded, Refunded}
    && (forall n :: 0 <= n < |history| ==> Extends(history[..n], history[n], Some(f.amountRequired)))
    && (forall n :: 0 <= n < |history| ==> history[n].paymentId == f.paymentId && history[n].recordedAt <= now)
  }

  /** The planner looks at a command exactly when the root is clean and no provider ever worked on it. */
  lemma RootVerdict(f: PaymentFacts, history: seq<Entry>, now: Time, operations: seq<OperationRecord>,
                    replay: seq<ReplayRecord>)
    ensures CheckRoot(f, history, now, operations, replay).Ok? <==>
      operations == [] && replay == [] && CleanRoot(f, history, now)
  {
    hide Fold, Extends, OfKind, ProjectStatus, Received, Repaid, Lifecycle.StatusOf;
    var required := Some(f.amountRequired);
    HistoryVerdict(history, required);
    FoldVerdict(history, required);
    if Fold(history, required).Ok? {
      FoldMatches(history, required);
      if 0.0 < f.amountRequired {
        FoldBounded(history, required);
      }
      hide Matches, Indexed, DistinctCommands, CorrectionsSound;
      var l := Fold(history, required).value;
      assert l.captured == Received(history) && l.refunded == Repaid(history) by {
        MatchesMoney(history, l);
      }
      if f.capturedFunds == l.captured && f.refundedFunds == l.refunded && f.remainingAuthorization == 0.0
         && 0.0 < f.amountRequired {
        Lifecycle.StatusProjected(ViewOf(f));
      }
    }
  }

  lemma MatchesMoney(history: seq<Entry>, l: Ledger)
    requires Matches(history, l)
    ensures l.captured == Received(history) && l.refunded == Repaid(history)
  {
  }

  /** The entry a command asks for at `now`. */
  ghost predicate Asks(f: PaymentFacts, c: ValidCommand, now: Time, e: Entry) {
    e.paymentId == f.paymentId && e.command == c && e.recordedAt == now
  }

  /** On a clean root a command that was not recorded before is accepted exactly when an entry for it extends the
      history. The plan then carries that entry and the facts of the extended history. */
  lemma CommandVerdict(f: PaymentFacts, history: seq<Entry>, c: ValidCommand, now: Time)
    requires CleanRoot(f, history, now) && forall n :: 0 <= n < |history| ==> history[n].command.commandId != c.commandId
    ensures var planned := PlanRecordedMoney(f, history, c, now, [], []);
      && (planned.Ok? <==> exists e :: Asks(f, c, now, e) && Extends(history, e, Some(f.amountRequired)))
      && (planned.Ok? ==>
            var p := planned.value;
            var g := f.(capturedFunds := Received(history + [p.entry]), refundedFunds := Repaid(history + [p.entry]));
            && p.applied
            && Asks(f, c, now, p.entry) && Extends(history, p.entry, Some(f.amountRequired))
            && p.facts == g.(status := Lifecycle.StatusOf(ViewOf(g)))
            && p.projection.records == history + [p.entry])
  {
    var required := Some(f.amountRequired);
    RootVerdict(f, history, now, [], []);
    NeverRecorded(history, c.commandId);
    NewCommandVerdict(f, history, c, now);
    hide Fold, Extends, OfKind, ProjectStatus, Received, Repaid, Lifecycle.StatusOf, MakeEntry, FindCommand,
      CleanRoot, Moved,
      Index, Targets;
    FoldVerdict(history, required);
    FreshCommand(history, required, c.commandId);
    OnePayment(f, history, now);
    EntryVerdict(f, history, c, now);
    if PlanRecordedMoney(f, history, c, now, [], []).Ok? {
      PlannedEntry(f, history, c, now);
    }
  }

  lemma OnePayment(f: PaymentFacts, history: seq<Entry>, now: Time)
    requires CleanRoot(f, history, now)
    ensures history != [] ==> history[0].paymentId == f.paymentId
    ensures forall n :: 0 <= n < |history| ==> Extends(history[..n], history[n], Some(f.amountRequired))
  {
    hide Extends, Received, Repaid, Lifecycle.StatusOf;
  }

  lemma NeverRecorded(history: seq<Entry>, id: string)
    requires forall n :: 0 <= n < |history| ==> history[n].command.commandId != id
    ensures FindCommand(history, id).None?
  {
    FoundIsRetained(history, id);
  }

  lemma EntryVerdict(f: PaymentFacts, history: seq<Entry>, c: ValidCommand, now: Time)
    requires Fold(history, Some(f.amountRequired)).Ok? && c.commandId !in Fold(history, Some(f.amountRequired)).value.seen
    requires history != [] ==> history[0].paymentId == f.paymentId
    ensures var l := Fold(history, Some(f.amountRequired)).value;
      var made := MakeEntry(f.paymentId, c, now, l.seen, l.corrected);
      && (made.Ok? ==> Asks(f, c, now, made.value)
                       && (Extends(history, made.value, Some(f.amountRequired)) <==>
                             0.0 <= Moved(l, made.value).refunded <= Moved(l, made.value).captured <= f.amountRequired))
      && ((exists e :: Asks(f, c, now, e) && Extends(history, e, Some(f.amountRequired))) ==> made.Ok?)
      && (forall e :: Asks(f, c, now, e) && Extends(history, e, Some(f.amountRequired)) ==> made == Ok(e))
  {
    var required := Some(f.amountRequired);
    var l := Fold(history, required).value;
    FoldMatches(history, required);
    SeenMeans(history, l, c.commandId);
    hide Received, Repaid, MakeEntry, Moved, Says, CorrectionsSound, Fold, Corrected;
    forall e
      ensures MakeEntry(f.paymentId, c, now, l.seen, l.corrected) == Ok(e) <==> Asks(f, c, now, e) && Says(history, e)
    {
      MadeVerdict(history, l, c, f.paymentId, now, e);
    }
    var made := MakeEntry(f.paymentId, c, now, l.seen, l.corrected);
    if made.Ok? {
      SaidIsMatched(history, l, made.value);
    }
  }

  lemma PlannedEntry(f: PaymentFacts, history: seq<Entry>, c: ValidCommand, now: Time)
    requires CheckRoot(f, history, now, [], []).Ok? && FindCommand(history, c.commandId).None?
    requires PlanRecordedMoney(f, history, c, now, [], []).Ok?
    ensures var p := PlanRecordedMoney(f, history, c, now, [], []).value;
      var l := Fold(history, Some(f.amountRequired)).value;
      var g := f.(capturedFunds := Received(history + [p.entry]), refundedFunds := Repaid(history + [p.entry]));
      && p.applied
      && MakeEntry(f.paymentId, c, now, l.seen, l.corrected) == Ok(p.entry)
      && p.facts == g.(status := Lifecycle.StatusOf(ViewOf(g)))
      && p.projection.records == history + [p.entry]
  {
    var required := Some(f.amountRequired);
    IndexMatches(history, required);
    var p := PlanRecordedMoney(f, history, c, now, [], []).value;
    var more := history + [p.entry];
    hide Fold, OfKind, ProjectStatus, Received, Repaid, Lifecycle.StatusOf, MakeEntry, Index, Targets, FindCommand,
      SummaryAgrees,
      Matches;
    FoldMatches(more, required);
    FoldBounded(more, required);
    MatchesMoney(more, Fold(more, required).value);
    hide Matches, Indexed, DistinctCommands, CorrectionsSound, RootClean;
    var g := f.(capturedFunds := Received(more), refundedFunds := Repaid(more));
    Lifecycle.StatusProjected(ViewOf(g));
  }

  lemma {:induction false} ListedCounts(history: seq<Entry>, kind: MovementKind, corrected: set<string>, e: Entry)
    ensures multiset(OfKind(history, kind, corrected))[e] == if Kept(e, kind, corrected) then multiset(history)[e] else 0
  {
    if history != [] {
      var n := |history| - 1;
      ListedCounts(history[..n], kind, corrected, e);
      assert history == history[..n] + [history[n]];
    }
  }

  /** A projection lists exactly the movements of each kind that no correction withdrew. */
  lemma ListedVerdict(history: seq<Entry>, required: Option<Money>, e: Entry)
    requires Project(history, required).Ok?
    ensures var p := Project(history, required).value;
      var stands := !Corrected(history, e.command.commandId);
      && multiset(p.effectiveReceipts)[e]
         == (if e.command.kind == Receipt && stands then multiset(history)[e] else 0)
      && multiset(p.effectiveRepayments)[e]
         == (if e.command.kind == Repayment && stands then multiset(history)[e] else 0)
  {
    hide OfKind, Fold, Corrected, DistinctCommands, CorrectionsSound, Received, Repaid;
    FoldMatches(history, required);
    var l := Fold(history, required).value;
    ListedCounts(history, Receipt, l.corrected, e);
    ListedCounts(history, Repayment, l.corrected, e);
  }
}
