/** Money recorded outside providers: an append-only history of receipts, repayments and inverse
    corrections, validated at every prefix, and the planner that extends it. */
module RecordedMoney {
  import opened Wrappers
  import opened Records
  import opened StateEngine
  import opened Rules
  import opened Sums

  const RECORDED_MONEY_BACKEND := "getpaid.recorded_money"

  datatype MovementKind = Receipt | Repayment | Correction

  datatype CorrectionReason =
    | MistakenEntry | IncorrectAmount | IncorrectTimestamp | IncorrectReference | DuplicateEntry

  datatype MoneyCommand = MoneyCommand(
    commandId: string,
    kind: MovementKind,
    actor: string,
    amount: Option<Money>,
    occurredAt: Option<Time>,
    note: Option<string>,
    evidenceReference: Option<string>,
    target: Option<string>,
    reason: Option<CorrectionReason>)

  /** What every constructed command satisfies. */
  predicate CommandValid(c: MoneyCommand) {
    && c.commandId != ""
    && (c.kind.Repayment? ==> c.evidenceReference.Some?)
    && if c.kind.Correction? then
         c.target.Some? && c.reason.Some? && c.amount.None? && c.occurredAt.None? && c.evidenceReference.None?
       else
         && c.target.None? && c.reason.None?
         && c.amount.Some? && c.amount.value > 0.0 && c.occurredAt.Some?
  }

  type ValidCommand = c: MoneyCommand | CommandValid(c)
    ghost witness MoneyCommand("receipt", Receipt, "clerk", Some(1.0), Some(0), None, None, None, None)

  datatype Entry = Entry(
    paymentId: string,
    command: ValidCommand,
    recordedAt: Time,
    signedAmount: Money,
    effectiveAt: Time,
    evidenceReference: Option<string>)

  /** The running variables of the projection loop. */
  datatype Ledger = Ledger(seen: map<string, Entry>, corrected: set<string>, captured: Money, refunded: Money)

  datatype Projection = Projection(
    records: seq<Entry>,
    effectiveReceipts: seq<Entry>,
    effectiveRepayments: seq<Entry>,
    captured: Money,
    refunded: Money)

  datatype Plan = Plan(facts: PaymentFacts, entry: Entry, projection: Projection, applied: bool)

  // ---- entries ----

  function MakeEntry(paymentId: string, c: ValidCommand, now: Time, seen: map<string, Entry>, corrected: set<string>)
    : Result<Entry, Error>
  {
    if c.kind.Correction? then
      var id := c.target.value;
      if id !in seen || seen[id].command.kind.Correction? then Err(InvalidTransition)
      else if seen[id].command.commandId in corrected then Err(InvalidTransition)
      else if seen[id].recordedAt > now then Err(InvalidTransition)
      else Ok(Entry(paymentId, c, now, -seen[id].signedAmount, seen[id].effectiveAt, seen[id].evidenceReference))
    else if c.occurredAt.value > now then Err(InvalidTransition)
    else
      Ok(Entry(paymentId, c, now, if c.kind.Repayment? then -c.amount.value else c.amount.value,
               c.occurredAt.value, c.evidenceReference))
  }

  // ---- projection ----

  /** The record whose kind decides which total an entry moves. */
  function Original(l: Ledger, e: Entry): Entry {
    var key := e.command.target.GetOr("");
    if key in l.seen then l.seen[key] else e
  }

  function Moved(l: Ledger, e: Entry): Ledger {
    var receipt := Original(l, e).command.kind.Receipt?;
    Ledger(
      l.seen[e.command.commandId := e],
      if e.command.target.Some? then l.corrected + {e.command.target.value} else l.corrected,
      if receipt then l.captured + e.signedAmount else l.captured,
      if receipt then l.refunded else l.refunded - e.signedAmount)
  }

  function Absorb(l: Ledger, paymentId: string, e: Entry, required: Option<Money>): Result<Ledger, Error> {
    if e.command.commandId in l.seen || e.paymentId != paymentId then Err(InvalidTransition)
    else if MakeEntry(e.paymentId, e.command, e.recordedAt, l.seen, l.corrected) != Ok(e) then Err(InvalidTransition)
    else
      var next := Moved(l, e);
      if !(0.0 <= next.refunded <= next.captured) then Err(InvalidTransition)
      else if required.Some? && next.captured > required.value then Err(InvalidTransition)
      else Ok(next)
  }

  const EMPTY := Ledger(map[], {}, 0.0, 0.0)

  /** The running variables after a history, or its first fault. */
  function Fold(history: seq<Entry>, required: Option<Money>): Result<Ledger, Error> {
    if history == [] then Ok(EMPTY)
    else
      var before :- Fold(history[..|history| - 1], required);
      Absorb(before, history[0].paymentId, history[|history| - 1], required)
  }

  function OfKind(history: seq<Entry>, kind: MovementKind, corrected: set<string>): seq<Entry> {
    if history == [] then []
    else
      var last := history[|history| - 1];
      OfKind(history[..|history| - 1], kind, corrected)
      + if last.command.kind == kind && last.command.commandId !in corrected then [last] else []
  }

  function Project(history: seq<Entry>, required: Option<Money>): Result<Projection, Error> {
    if required.Some? && required.value <= 0.0 then Err(InvalidTransition)
    else
      var l :- Fold(history, required);
      Ok(Projection(history, OfKind(history, Receipt, l.corrected), OfKind(history, Repayment, l.corrected),
                    l.captured, l.refunded))
  }

  /** One more entry. */
  lemma FoldStep(history: seq<Entry>, required: Option<Money>, n: nat)
    requires n < |history|
    ensures Fold(history[..n + 1], required)
         == if Fold(history[..n], required).Err? then Fold(history[..n], required)
            else Absorb(Fold(history[..n], required).value, history[0].paymentId, history[n], required)
  {
    hide Absorb;
    assert history[..n + 1][..n] == history[..n];
  }

  lemma {:induction false} FoldPrefix(history: seq<Entry>, required: Option<Money>, n: nat)
    requires Fold(history, required).Ok? && n <= |history|
    ensures Fold(history[..n], required).Ok?
    decreases |history|
  {
    hide Absorb;
    if n == |history| {
      assert history[..n] == history;
    } else {
      assert history[..|history| - 1][..n] == history[..n];
      FoldPrefix(history[..|history| - 1], required, n);
    }
  }

  lemma {:induction false} FaultStays(history: seq<Entry>, required: Option<Money>, n: nat)
    requires n <= |history| && Fold(history[..n], required).Err?
    ensures Fold(history, required) == Fold(history[..n], required)
    decreases |history|
  {
    hide Absorb;
    if n == |history| {
      assert history[..n] == history;
    } else {
      assert history[..|history| - 1][..n] == history[..n];
      FaultStays(history[..|history| - 1], required, n);
    }
  }

  /** The source's loop, with its dictionary, its set and its two running totals. */
  method ProjectRecordedMoney(history: seq<Entry>, required: Option<Money>) returns (r: Result<Projection, Error>)
    ensures r == Project(history, required)
  {
    hide MakeEntry, OfKind, Fold;
    if required.Some? && required.value <= 0.0 {
      return Err(InvalidTransition);
    }
    var seen: map<string, Entry> := map[];
    var corrected: set<string> := {};
    var captured, refunded := 0.0, 0.0;
    NothingFolded(required);
    for i := 0 to |history|
      invariant Fold(history[..i], required) == Ok(Ledger(seen, corrected, captured, refunded))
    {
      var e := history[i];
      FoldStep(history, required, i);
      if e.command.commandId in seen || e.paymentId != history[0].paymentId
         || MakeEntry(e.paymentId, e.command, e.recordedAt, seen, corrected) != Ok(e)
      {
        FaultStays(history, required, i + 1);
        return Err(InvalidTransition);
      }
      var original := if e.command.target.GetOr("") in seen then seen[e.command.target.GetOr("")] else e;
      if original.command.kind.Receipt? {
        captured := captured + e.signedAmount;
      } else {
        refunded := refunded - e.signedAmount;
      }
      if !(0.0 <= refunded <= captured) || (required.Some? && captured > required.value) {
        FaultStays(history, required, i + 1);
        return Err(InvalidTransition);
      }
      seen := seen[e.command.commandId := e];
      if e.command.target.Some? {
        corrected := corrected + {e.command.target.value};
      }
    }
    assert history[..|history|] == history;
    return Ok(Projection(history, OfKind(history, Receipt, corrected), OfKind(history, Repayment, corrected), captured, refunded));
  }

  lemma NothingFolded(required: Option<Money>)
    ensures Fold([], required) == Ok(EMPTY)
  {
  }

  // ---- what an accepted history means ----

  /** A later entry of the history withdraws the movement `id`. */
  predicate Corrected(history: seq<Entry>, id: string) {
    exists k :: 0 <= k < |history| && history[k].command.target == Some(id)
  }

  /** The movements of one kind that no correction withdrew; everything else counts as nothing. */
  function Standing(history: seq<Entry>, kind: MovementKind): seq<Money> {
    seq(|history|, i requires 0 <= i < |history| =>
          if history[i].command.kind == kind && !Corrected(history, history[i].command.commandId)
          then history[i].signedAmount else 0.0)
  }

  ghost function Received(history: seq<Entry>): Money {
    Sum(Standing(history, Receipt))
  }

  ghost function Repaid(history: seq<Entry>): Money {
    -Sum(Standing(history, Repayment))
  }

  ghost predicate DistinctCommands(history: seq<Entry>) {
    forall i, j :: 0 <= i < j < |history| ==> history[i].command.commandId != history[j].command.commandId
  }

  /** Every correction withdraws an earlier movement, and no movement is withdrawn twice. */
  ghost predicate CorrectionsSound(history: seq<Entry>) {
    && (forall j :: 0 <= j < |history| && history[j].command.kind.Correction? ==> exists i :: Corrects(history, i, j))
    && (forall i, j :: 0 <= i < j < |history| && history[i].command.target.Some? ==>
          history[i].command.target != history[j].command.target)
  }

  /** Entry `j` is the exact inverse of the earlier movement `i`, with its time and evidence. */
  ghost predicate Corrects(history: seq<Entry>, i: int, j: int) {
    && 0 <= i < j < |history|
    && history[j].command.target == Some(history[i].command.commandId)
    && !history[i].command.kind.Correction?
    && history[j].signedAmount == -history[i].signedAmount
    && history[j].effectiveAt == history[i].effectiveAt
    && history[j].evidenceReference == history[i].evidenceReference
    && history[i].recordedAt <= history[j].recordedAt
  }

  /** The dictionary and the set hold exactly the recorded and the withdrawn identities. */
  ghost predicate Indexed(history: seq<Entry>, l: Ledger) {
    && (forall k :: 0 <= k < |history| ==>
          history[k].command.commandId in l.seen && l.seen[history[k].command.commandId] == history[k])
    && (forall id :: id in l.seen ==> exists k :: 0 <= k < |history| && history[k].command.commandId == id)
    && (forall id :: id in l.corrected <==> Corrected(history, id))
    && (forall id :: Corrected(history, id) ==> id in l.seen)
    && "" !in l.seen
  }

  ghost predicate Matches(history: seq<Entry>, l: Ledger) {
    && Indexed(history, l)
    && DistinctCommands(history)
    && CorrectionsSound(history)
    && l.captured == Received(history)
    && l.refunded == Repaid(history)
  }

  lemma CorrectedMore(history: seq<Entry>, e: Entry)
    ensures forall id :: Corrected(history + [e], id) <==> Corrected(history, id) || e.command.target == Some(id)
  {
    var more := history + [e];
    forall id
      ensures Corrected(more, id) <==> Corrected(history, id) || e.command.target == Some(id)
    {
      if Corrected(history, id) {
        var k :| 0 <= k < |history| && history[k].command.target == Some(id);
        assert more[k].command.target == Some(id);
      }
      if e.command.target == Some(id) {
        assert more[|history|].command.target == Some(id);
      }
    }
  }

  lemma CorrectsMore(history: seq<Entry>, e: Entry)
    ensures forall i, j :: Corrects(history, i, j) ==> Corrects(history + [e], i, j)
  {
  }

  /** A movement adds itself to its own total. */
  lemma MovementStands(history: seq<Entry>, e: Entry, kind: MovementKind)
    requires e.command.target.None? && !Corrected(history, e.command.commandId)
    ensures Sum(Standing(history + [e], kind))
         == Sum(Standing(history, kind)) + if e.command.kind == kind then e.signedAmount else 0.0
  {
    hide Corrected;
    CorrectedMore(history, e);
    var x := if e.command.kind == kind then e.signedAmount else 0.0;
    assert Standing(history + [e], kind) == Standing(history, kind) + [x];
    SumConcat(Standing(history, kind), [x]);
    assert Sum([x]) == x by { assert [x][1..] == []; }
  }

  /** A correction takes its movement out of the total it stood in. */
  lemma CorrectionWithdraws(history: seq<Entry>, e: Entry, i: nat, kind: MovementKind)
    requires i < |history| && e.command.kind.Correction? && e.command.target == Some(history[i].command.commandId)
    requires DistinctCommands(history) && !Corrected(history, history[i].command.commandId)
    requires e.command.kind != kind
    ensures Sum(Standing(history + [e], kind))
         == Sum(Standing(history, kind)) - if history[i].command.kind == kind then history[i].signedAmount else 0.0
  {
    hide Corrected;
    CorrectedMore(history, e);
    var xs := Standing(history, kind);
    assert Standing(history + [e], kind) == xs[i := 0.0] + [0.0];
    SumConcat(xs[i := 0.0], [0.0]);
    SumUpdate(xs, i, 0.0);
    assert Sum([0.0]) == 0.0 by { assert [0.0][1..] == []; }
  }

  lemma IndexedGrows(history: seq<Entry>, l: Ledger, e: Entry)
    requires Indexed(history, l) && e.command.commandId !in l.seen
    requires e.command.target.Some? ==> e.command.target.value in l.seen
    ensures Indexed(history + [e], Moved(l, e))
  {
    hide Corrected, Original;
    var more := history + [e];
    var next := Moved(l, e);
    CorrectedMore(history, e);
    forall k | 0 <= k < |more|
      ensures more[k].command.commandId in next.seen && next.seen[more[k].command.commandId] == more[k]
    {
      assert k < |history| ==> more[k] == history[k];
    }
    assert forall k :: 0 <= k < |history| ==> more[k] == history[k];
    assert more[|history|] == e;
  }

  lemma CorrectionsGrow(history: seq<Entry>, e: Entry)
    requires CorrectionsSound(history)
    requires e.command.target.Some? ==> !Corrected(history, e.command.target.value)
    requires e.command.kind.Correction? ==> exists i :: Corrects(history + [e], i, |history|)
    ensures CorrectionsSound(history + [e])
  {
    var more := history + [e];
    CorrectsMore(history, e);
    forall j | 0 <= j < |more| && more[j].command.kind.Correction?
      ensures exists i :: Corrects(more, i, j)
    {
      if j < |history| {
        var i :| Corrects(history, i, j);
        assert Corrects(more, i, j);
      }
    }
  }

  lemma DistinctGrows(history: seq<Entry>, l: Ledger, e: Entry)
    requires Indexed(history, l) && DistinctCommands(history) && e.command.commandId !in l.seen
    ensures DistinctCommands(history + [e])
  {
    hide Corrected;
  }

  lemma MovementMatches(history: seq<Entry>, l: Ledger, e: Entry)
    requires Matches(history, l) && e.command.commandId !in l.seen && !e.command.kind.Correction?
    ensures Matches(history + [e], Moved(l, e))
  {
    hide Sum, Standing, CorrectionsSound, DistinctCommands;
    IndexedGrows(history, l, e);
    DistinctGrows(history, l, e);
    CorrectionsGrow(history, e);
    MovementStands(history, e, Receipt);
    MovementStands(history, e, Repayment);
  }

  lemma CorrectionMatches(history: seq<Entry>, l: Ledger, e: Entry)
    requires Matches(history, l) && e.command.commandId !in l.seen && e.command.kind.Correction?
    requires MakeEntry(e.paymentId, e.command, e.recordedAt, l.seen, l.corrected) == Ok(e)
    ensures Matches(history + [e], Moved(l, e))
  {
    hide Sum, Standing, Corrected, CorrectionsSound, DistinctCommands;
    var id := e.command.target.value;
    var i :| 0 <= i < |history| && history[i].command.commandId == id;
    IndexedGrows(history, l, e);
    DistinctGrows(history, l, e);
    CorrectionWithdraws(history, e, i, Receipt);
    CorrectionWithdraws(history, e, i, Repayment);
    assert Corrects(history + [e], i, |history|);
    CorrectionsGrow(history, e);
  }

  lemma AbsorbMoves(l: Ledger, paymentId: string, e: Entry, required: Option<Money>)
    requires Absorb(l, paymentId, e, required).Ok?
    ensures Absorb(l, paymentId, e, required).value == Moved(l, e)
    ensures e.command.commandId !in l.seen
    ensures MakeEntry(e.paymentId, e.command, e.recordedAt, l.seen, l.corrected) == Ok(e)
  {
    hide MakeEntry, Moved;
  }

  lemma {:induction false} FoldMatches(history: seq<Entry>, required: Option<Money>)
    requires Fold(history, required).Ok?
    ensures Matches(history, Fold(history, required).value)
  {
    if history == [] {
      assert Standing(history, Receipt) == [] && Standing(history, Repayment) == [];
    } else {
      hide Matches, Moved, MakeEntry, Absorb, CommandValid;
      var n := |history| - 1;
      var rest := history[..n];
      FoldStep(history, required, n);
      assert history[..n + 1] == history && rest + [history[n]] == history;
      FoldMatches(rest, required);
      hide Fold;
      var l := Fold(rest, required).value;
      AbsorbMoves(l, history[0].paymentId, history[n], required);
      if history[n].command.kind.Correction? {
        CorrectionMatches(rest, l, history[n]);
      } else {
        MovementMatches(rest, l, history[n]);
      }
    }
  }

  lemma {:induction false} FoldBounded(history: seq<Entry>, required: Option<Money>)
    requires Fold(history, required).Ok? && (required.Some? ==> 0.0 <= required.value)
    ensures var l := Fold(history, required).value;
      0.0 <= l.refunded <= l.captured && (required.Some? ==> l.captured <= required.value)
  {
  }

  /** At every prefix of an accepted history the totals are exactly the movements not yet withdrawn,
      and the money returned never exceeds the money received, nor that the required amount. */
  lemma EveryPrefixIsFunded(history: seq<Entry>, required: Option<Money>, n: nat)
    requires Project(history, required).Ok? && n <= |history|
    ensures Project(history[..n], required).Ok?
    ensures var p := Project(history[..n], required).value;
      && p.captured == Received(history[..n])
      && p.refunded == Repaid(history[..n])
      && 0.0 <= p.refunded <= p.captured
      && (required.Some? ==> p.captured <= required.value)
  {
    hide Absorb, Received, Repaid;
    FoldPrefix(history, required, n);
    FoldMatches(history[..n], required);
    FoldBounded(history[..n], required);
  }

  /** In an accepted history no command is recorded twice, and every movement is withdrawn at most
      once, by an exact inverse recorded after it. */
  lemma CorrectedAtMostOnce(history: seq<Entry>, required: Option<Money>)
    requires Project(history, required).Ok?
    ensures DistinctCommands(history) && CorrectionsSound(history)
  {
    hide DistinctCommands, CorrectionsSound, Absorb;
    FoldMatches(history, required);
  }

  function Signed(entries: seq<Entry>): seq<Money> {
    seq(|entries|, i requires 0 <= i < |entries| => entries[i].signedAmount)
  }

  predicate Kept(e: Entry, kind: MovementKind, corrected: set<string>) {
    e.command.kind == kind && e.command.commandId !in corrected
  }

  lemma KeptStands(all: seq<Entry>, kind: MovementKind, corrected: set<string>, n: nat)
    requires n < |all| && forall id :: id in corrected <==> Corrected(all, id)
    ensures Standing(all, kind)[n] == if Kept(all[n], kind, corrected) then all[n].signedAmount else 0.0
  {
    hide Corrected, CommandValid;
  }

  lemma KeptIsListed(all: seq<Entry>, n: nat, kind: MovementKind, corrected: set<string>)
    requires n < |all|
    ensures Sum(Signed(OfKind(all[..n + 1], kind, corrected)))
         == Sum(Signed(OfKind(all[..n], kind, corrected)))
            + if Kept(all[n], kind, corrected) then all[n].signedAmount else 0.0
  {
    var listed := OfKind(all[..n], kind, corrected);
    assert all[..n + 1][..n] == all[..n];
    SignedMore(listed, all[n]);
    hide Signed, Sum, CommandValid;
    assert listed + [] == listed;
  }

  lemma {:induction false} EffectiveSums(all: seq<Entry>, n: nat, kind: MovementKind, corrected: set<string>)
    requires n <= |all| && forall id :: id in corrected <==> Corrected(all, id)
    ensures Sum(Signed(OfKind(all[..n], kind, corrected))) == Sum(Standing(all, kind)[..n])
  {
    if n == 0 {
    } else {
      EffectiveSums(all, n - 1, kind, corrected);
      KeptIsListed(all, n - 1, kind, corrected);
      KeptStands(all, kind, corrected, n - 1);
      hide Corrected, CommandValid, OfKind, Signed, Kept, Sum;
      SumPrefix(Standing(all, kind), n - 1);
    }
  }

  lemma SignedMore(entries: seq<Entry>, e: Entry)
    ensures Sum(Signed(entries + [e])) == Sum(Signed(entries)) + e.signedAmount
  {
    assert Signed(entries + [e]) == Signed(entries) + [e.signedAmount];
    SumSnoc(Signed(entries), e.signedAmount);
  }

  /** The effective movements that a projection lists add up to its totals. */
  lemma ProjectionBalances(history: seq<Entry>, required: Option<Money>)
    requires Project(history, required).Ok?
    ensures var p := Project(history, required).value;
      p.captured == Sum(Signed(p.effectiveReceipts)) && p.refunded == -Sum(Signed(p.effectiveRepayments))
  {
    FoldMatches(history, required);
    var l := Fold(history, required).value;
    EffectiveSums(history, |history|, Receipt, l.corrected);
    EffectiveSums(history, |history|, Repayment, l.corrected);
    assert history[..|history|] == history;
    assert Standing(history, Receipt)[..|history|] == Standing(history, Receipt);
    assert Standing(history, Repayment)[..|history|] == Standing(history, Repayment);
  }

  // ---- the planner ----

  function Index(records: seq<Entry>): map<string, Entry> {
    if records == [] then map[]
    else Index(records[..|records| - 1])[records[|records| - 1].command.commandId := records[|records| - 1]]
  }

  function Targets(records: seq<Entry>): set<string> {
    set e | e in records && e.command.target.Some? :: e.command.target.value
  }

  function FindCommand(records: seq<Entry>, id: string): Option<Entry> {
    if records == [] then None
    else if records[0].command.commandId == id then Some(records[0])
    else FindCommand(records[1..], id)
  }

  predicate RootClean(f: PaymentFacts) {
    && f.capturedFunds >= 0.0 && f.refundedFunds >= 0.0 && f.remainingAuthorization == 0.0 && f.amountRequired > 0.0
    && f.backend == RECORDED_MONEY_BACKEND
    && f.externalId.None?
    && f.providerData == map[]
    && !f.reconciliationRequired
    && f.observationConflicts == []
    && f.fraudStatus == FraudUnknown
    && f.fraudMessage == ""
  }

  predicate SummaryAgrees(f: PaymentFacts, current: Projection, now: Time) {
    && current.captured == f.capturedFunds
    && current.refunded == f.refundedFunds
    && f.capturedFunds <= f.amountRequired
    && (forall e :: e in current.records ==> e.paymentId == f.paymentId && e.recordedAt <= now)
    && f.status in {New, Prepared, Partial, Paid, PartiallyRefunded, Refunded}
    && ProjectStatus(ViewOf(f), false, false) == f.status
  }

  /** The checks made before a command is looked at. Provider operations and replay records have no
      place on such a root. */
  function CheckRoot(f: PaymentFacts, history: seq<Entry>, now: Time, operations: seq<OperationRecord>,
                     replay: seq<ReplayRecord>): Result<Projection, Error>
  {
    if !RootClean(f) || operations != [] || replay != [] then Err(InvalidTransition)
    else
      var current :- Project(history, Some(f.amountRequired));
      if !SummaryAgrees(f, current, now) then Err(InvalidTransition) else Ok(current)
  }

  function WithTotals(f: PaymentFacts, p: Projection): PaymentFacts {
    var updated := f.(capturedFunds := p.captured, refundedFunds := p.refunded);
    updated.(status := ProjectStatus(ViewOf(updated), false, false))
  }

  function PlanRecordedMoney(f: PaymentFacts, history: seq<Entry>, c: ValidCommand, now: Time,
                             operations: seq<OperationRecord>, replay: seq<ReplayRecord>): Result<Plan, Error>
  {
    var current :- CheckRoot(f, history, now, operations, replay);
    if c.occurredAt.Some? && c.occurredAt.value > now then Err(InvalidTransition)
    else
      var retained := FindCommand(current.records, c.commandId);
      if retained.Some? then
        if retained.value.command != c then Err(OperationConflict) else Ok(Plan(f, retained.value, current, false))
      else
        var entry :- MakeEntry(f.paymentId, c, now, Index(current.records), Targets(current.records));
        var projection :- Project(current.records + [entry], Some(f.amountRequired));
        Ok(Plan(WithTotals(f, projection), entry, projection, true))
  }

  lemma {:induction false} FindsCommand(records: seq<Entry>, k: nat)
    requires k < |records| && DistinctCommands(records)
    ensures FindCommand(records, records[k].command.commandId) == Some(records[k])
  {
    if k == 0 {
    } else {
      assert records[0].command.commandId != records[k].command.commandId;
      FindsCommand(records[1..], k - 1);
    }
  }

  /** An entry of an accepted history was recorded no earlier than it occurred, for one payment. */
  lemma EntriesInOrder(history: seq<Entry>, required: Option<Money>, k: nat)
    requires Fold(history, required).Ok? && k < |history|
    ensures history[k].command.occurredAt.Some? ==> history[k].command.occurredAt.value <= history[k].recordedAt
    ensures history[k].paymentId == history[0].paymentId
  {
    FoldPrefix(history, required, k + 1);
    FoldStep(history, required, k);
  }

  /** A retained identity stands for one command: replaying that command, at any later time, changes
      nothing, and any other command under it is refused. */
  lemma ReplayChangesNothing(f: PaymentFacts, history: seq<Entry>, k: nat, c: ValidCommand, now: Time)
    requires CheckRoot(f, history, now, [], []).Ok? && k < |history| && c.commandId == history[k].command.commandId
    ensures if c == history[k].command
            then PlanRecordedMoney(f, history, c, now, [], [])
                 == Ok(Plan(f, history[k], CheckRoot(f, history, now, [], []).value, false))
            else PlanRecordedMoney(f, history, c, now, [], []).Err?
  {
    hide Fold, Matches, ProjectStatus, OfKind;
    FoldMatches(history, Some(f.amountRequired));
    DistinctWhenMatched(history, Some(f.amountRequired));
    EntriesInOrder(history, Some(f.amountRequired), k);
    FindsCommand(history, k);
    assert history[k] in history;
  }

  lemma DistinctWhenMatched(history: seq<Entry>, required: Option<Money>)
    requires Fold(history, required).Ok?
    ensures DistinctCommands(history)
  {
    FoldMatches(history, required);
  }

  /** Projecting a projected status gives it back. */
  lemma ProjectionSettles(f: PaymentFacts)
    requires f.status in {New, Prepared, Partial, Paid, PartiallyRefunded, Refunded} && f.remainingAuthorization == 0.0
    ensures var s := ProjectStatus(ViewOf(f), false, false);
      && s in {New, Prepared, Partial, Paid, PartiallyRefunded, Refunded}
      && ProjectStatus(ViewOf(f.(status := s)), false, false) == s
  {
  }

  /** What the planner produces is accepted as its next input, at any later time. */
  lemma PlanIsAccepted(f: PaymentFacts, history: seq<Entry>, c: ValidCommand, now: Time, later: Time)
    requires PlanRecordedMoney(f, history, c, now, [], []).Ok? && now <= later
    ensures var p := PlanRecordedMoney(f, history, c, now, [], []).value;
      if p.applied
      then p.entry.command == c && CheckRoot(p.facts, history + [p.entry], later, [], []) == Ok(p.projection)
      else p.facts == f && p.entry in history && CheckRoot(f, history, later, [], []).Ok?
  {
    hide Fold, OfKind, ProjectStatus;
    var p := PlanRecordedMoney(f, history, c, now, [], []).value;
    if p.applied {
      var required := Some(f.amountRequired);
      ProjectionSettles(f.(capturedFunds := p.projection.captured, refundedFunds := p.projection.refunded));
      FoldBounded(history + [p.entry], required);
    } else {
      FoundIsRetained(history, c.commandId);
    }
  }

  lemma {:induction false} FoundIsRetained(records: seq<Entry>, id: string)
    ensures FindCommand(records, id).Some? ==>
      FindCommand(records, id).value in records && FindCommand(records, id).value.command.commandId == id
    ensures FindCommand(records, id).None? ==> forall e :: e in records ==> e.command.commandId != id
  {
    if records == [] {
    } else {
      FoundIsRetained(records[1..], id);
      assert forall e :: e in records ==> e == records[0] || e in records[1..];
    }
  }

  // ---- the planner's index is the projection's ----

  lemma TargetsMore(rest: seq<Entry>, e: Entry)
    ensures Targets(rest + [e]) == if e.command.target.Some? then Targets(rest) + {e.command.target.value} else Targets(rest)
  {
    var more := rest + [e];
    forall id
      ensures id in Targets(more) <==> id in Targets(rest) || e.command.target == Some(id)
    {
      if id in Targets(rest) {
        var x :| x in rest && x.command.target == Some(id);
        assert x in more;
      }
      if e.command.target == Some(id) {
        assert e in more;
      }
    }
  }

  lemma {:induction false} IndexMatches(history: seq<Entry>, required: Option<Money>)
    requires Fold(history, required).Ok?
    ensures Index(history) == Fold(history, required).value.seen
    ensures Targets(history) == Fold(history, required).value.corrected
  {
    hide Absorb, Targets, CommandValid;
    if history == [] {
      NoTargets();
    } else {
      var n := |history| - 1;
      var rest := history[..n];
      IndexMatches(rest, required);
      TargetsMore(rest, history[n]);
      AbsorbMoves(Fold(rest, required).value, history[0].paymentId, history[n], required);
      hide Fold;
      assert history == rest + [history[n]];
    }
  }

  lemma NoTargets()
    ensures Targets([]) == {}
  {
  }

  /** A history extended by a freshly made entry is accepted exactly when the money stays in bounds. */
  lemma ExtensionVerdict(history: seq<Entry>, e: Entry, required: Money)
    requires Fold(history, Some(required)).Ok? && 0.0 < required
    requires var l := Fold(history, Some(required)).value;
      && e.command.commandId !in l.seen
      && MakeEntry(e.paymentId, e.command, e.recordedAt, l.seen, l.corrected) == Ok(e)
    requires history != [] ==> history[0].paymentId == e.paymentId
    ensures var next := Moved(Fold(history, Some(required)).value, e);
      Project(history + [e], Some(required)).Ok? <==> 0.0 <= next.refunded <= next.captured <= required
  {
    hide MakeEntry, Moved, OfKind, CommandValid;
    var more := history + [e];
    assert more[..|history|] == history && more[..|history| + 1] == more;
    FoldStep(more, Some(required), |history|);
    hide Fold;
  }

  /** The planner refuses a new command only for what is wrong with the command itself: a movement
      from the future, a correction without a correctable target, or money the root cannot hold. */
  lemma NewCommandVerdict(f: PaymentFacts, history: seq<Entry>, c: ValidCommand, now: Time)
    requires CheckRoot(f, history, now, [], []).Ok? && FindCommand(history, c.commandId).None?
    ensures var l := Fold(history, Some(f.amountRequired)).value;
      var entry := MakeEntry(f.paymentId, c, now, l.seen, l.corrected);
      PlanRecordedMoney(f, history, c, now, [], []).Ok?
      <==> entry.Ok? && 0.0 <= Moved(l, entry.value).refunded <= Moved(l, entry.value).captured <= f.amountRequired
  {
    hide OfKind, ProjectStatus, Index, Targets, Moved, MakeEntry, Fold, FindCommand;
    var required := Some(f.amountRequired);
    var l := Fold(history, required).value;
    IndexMatches(history, required);
    FreshCommand(history, required, c.commandId);
    var entry := MakeEntry(f.paymentId, c, now, l.seen, l.corrected);
    if entry.Ok? {
      MadeAsAsked(f.paymentId, c, now, l.seen, l.corrected);
      OccurredByNow(f.paymentId, c, now, l.seen, l.corrected);
      assert history != [] ==> history[0] in history;
      ExtensionVerdict(history, entry.value, f.amountRequired);
    }
  }

  lemma FreshCommand(history: seq<Entry>, required: Option<Money>, id: string)
    requires Fold(history, required).Ok? && FindCommand(history, id).None?
    ensures id !in Fold(history, required).value.seen
  {
    hide Fold, FindCommand, CorrectionsSound, DistinctCommands, Received, Repaid;
    FoldMatches(history, required);
    FoundIsRetained(history, id);
  }

  lemma OccurredByNow(paymentId: string, c: ValidCommand, now: Time, seen: map<string, Entry>, corrected: set<string>)
    requires MakeEntry(paymentId, c, now, seen, corrected).Ok?
    ensures c.occurredAt.Some? ==> c.occurredAt.value <= now
  {
  }

  lemma MadeAsAsked(paymentId: string, c: ValidCommand, now: Time, seen: map<string, Entry>, corrected: set<string>)
    requires MakeEntry(paymentId, c, now, seen, corrected).Ok?
    ensures var e := MakeEntry(paymentId, c, now, seen, corrected).value;
      e.command == c && e.paymentId == paymentId && e.recordedAt == now
  {
  }

  // ---- runs of the planner ----

  datatype Root = Root(facts: PaymentFacts, history: seq<Entry>)

  /** Commit a plan that applied something; anything else leaves the root alone. */
  function Submit(r: Root, c: ValidCommand, now: Time): Root {
    var plan := PlanRecordedMoney(r.facts, r.history, c, now, [], []);
    if plan.Ok? && plan.value.applied then Root(plan.value.facts, r.history + [plan.value.entry]) else r
  }

  function Play(r: Root, steps: seq<(ValidCommand, Time)>): Root {
    if steps == [] then r
    else Submit(Play(r, steps[..|steps| - 1]), steps[|steps| - 1].0, steps[|steps| - 1].1)
  }

  function ClockAfter(start: Time, steps: seq<(ValidCommand, Time)>): Time {
    if steps == [] then start else steps[|steps| - 1].1
  }

  predicate ClockForward(start: Time, steps: seq<(ValidCommand, Time)>) {
    forall i :: 0 <= i < |steps| ==> ClockAfter(start, steps[..i]) <= steps[i].1
  }

  /** Under a clock that never goes back, a clean root stays clean whatever is submitted: the stored
      summary always agrees with the complete history, which is only ever appended to, and its
      money is exactly the movements not withdrawn. */
  lemma {:induction false} PlayStaysClean(r: Root, steps: seq<(ValidCommand, Time)>, start: Time, later: Time)
    requires CheckRoot(r.facts, r.history, start, [], []).Ok?
    requires ClockForward(start, steps) && ClockAfter(start, steps) <= later
    ensures var t := Play(r, steps);
      && CheckRoot(t.facts, t.history, later, [], []).Ok?
      && r.history <= t.history
      && t.facts.capturedFunds == Received(t.history)
      && t.facts.refundedFunds == Repaid(t.history)
  {
    hide Project, ProjectStatus, CommandValid, Received, Repaid;
    if steps == [] {
    } else {
      var n := |steps| - 1;
      var before := Play(r, steps[..n]);
      assert forall i :: 0 <= i < n ==> steps[..n][..i] == steps[..i];
      PlayStaysClean(r, steps[..n], start, steps[n].1);
      var plan := PlanRecordedMoney(before.facts, before.history, steps[n].0, steps[n].1, [], []);
      if plan.Ok? {
        PlanIsAccepted(before.facts, before.history, steps[n].0, steps[n].1, later);
      }
    }
    CleanMoney(Play(r, steps), later);
  }

  lemma CleanMoney(r: Root, now: Time)
    requires CheckRoot(r.facts, r.history, now, [], []).Ok?
    ensures r.facts.capturedFunds == Received(r.history) && r.facts.refundedFunds == Repaid(r.history)
  {
    hide ProjectStatus, OfKind;
    FoldMatches(r.history, Some(r.facts.amountRequired));
  }
}
