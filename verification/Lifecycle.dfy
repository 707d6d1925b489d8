/** The lifecycle of a payment in tables: which events it accepts, the status each one leaves, and what a
    whole update leaves, in one closed form that runs no engine. */
module Lifecycle {
  import opened Wrappers
  import opened Records
  import opened StateEngine
  import opened Rules
  import opened Effects

  // ---- the status of money ----

  /** The status that money supports when no refund is pending: captured money shows itself, then the hold.
      Without either, a claim to settlement falls back, and any other status stays. */
  function StatusOf(v: View): PaymentStatus {
    if v.amountPaid > 0.0 then
      if v.amountRefunded == 0.0 then (if v.amountPaid == v.amountRequired then Paid else Partial)
      else if v.amountRefunded == v.amountPaid then Refunded
      else PartiallyRefunded
    else if v.amountLocked > 0.0 then PreAuth
    else if v.status in {New, Prepared, InCharge, Failed, Cancelled} then v.status
    else Prepared
  }

  lemma StatusProjected(v: View)
    requires Bounded(v)
    ensures ProjectStatus(v, true, false) == RefundStarted && ProjectStatus(v, true, true) == RefundStarted
    ensures ProjectStatus(v, false, false) == StatusOf(v)
    ensures ProjectStatus(v, false, true)
         == if v.amountPaid > 0.0 || v.amountLocked > 0.0 then StatusOf(v) else Cancelled
  {
  }

  /** `StatusOf` for a payment whose pending refund, if any, keeps its marker. */
  function StatusKeeping(v: View): PaymentStatus {
    if v.status.RefundStarted? then RefundStarted else StatusOf(v)
  }

  // ---- events ----

  /** What the payment must look like for an event to be a transition of it. */
  predicate EventAllowed(v: View, u: Update) {
    match u.paymentEvent
    case None => true
    case Some(PreparedEvent) => v.status == New
    case Some(LockedEvent) => v.status in {New, Prepared, PreAuth} && u.lockedAmount.Some?
    case Some(ChargeRequested) =>
      && v.status != RefundStarted
      && if v.amountPaid > 0.0 then v.amountRefunded < v.amountPaid else v.amountLocked > 0.0 || v.status == InCharge
    case Some(PaymentCaptured) => u.paidAmount.Some?
    case Some(FailedEvent) =>
      v.status == Failed || (v.amountPaid == 0.0 && v.status in {New, Prepared, PreAuth, InCharge})
    case Some(RefundRequested) => v.amountRefunded < v.amountPaid
    case Some(RefundConfirmed) => v.amountPaid > 0.0 && u.refundedAmount.Some?
    case Some(RefundCancelled) => v.status == RefundStarted || v.amountRefunded < v.amountPaid
    case Some(LockReleased) => v.amountLocked > 0.0
  }

  /** The money an event moves. */
  function EventMoney(v: View, u: Update): View {
    match u.paymentEvent
    case Some(PaymentCaptured) =>
      var paid := Max(v.amountPaid, u.paidAmount.GetOr(0.0));
      v.(amountPaid := paid, amountLocked := Max(0.0, v.amountLocked - (paid - v.amountPaid)))
    case Some(RefundConfirmed) => v.(amountRefunded := Max(v.amountRefunded, u.refundedAmount.GetOr(0.0)))
    case Some(LockedEvent) => v.(amountLocked := Max(v.amountLocked, u.lockedAmount.GetOr(0.0)))
    case Some(LockReleased) => v.(amountLocked := 0.0)
    case _ => v
  }

  /** The status an event leaves. */
  function EventStatus(v: View, u: Update): PaymentStatus {
    match u.paymentEvent
    case None => v.status
    case Some(PreparedEvent) => Prepared
    case Some(LockedEvent) => PreAuth
    case Some(ChargeRequested) => if v.amountPaid > 0.0 then v.status else InCharge
    case Some(FailedEvent) => Failed
    case Some(RefundRequested) => RefundStarted
    case Some(PaymentCaptured) => StatusKeeping(EventMoney(v, u))
    case Some(RefundConfirmed) => StatusOf(EventMoney(v, u))
    case Some(RefundCancelled) => StatusOf(v)
    case Some(LockReleased) =>
      if v.status == RefundStarted then RefundStarted
      else if v.amountPaid > 0.0 then StatusOf(v)
      else Cancelled
  }

  /** An event within the bounds is accepted exactly when it is a transition of the payment, and then moves
      its money and leaves its status, captured or not. */
  lemma EventVerdict(v: View, u: Update)
    requires UpdateAmountsValid(v, u)
    ensures ApplyEvent(v, u) == if EventAllowed(v, u)
                                then Ok(EventMoney(v, u).(status := EventStatus(v, u))) else Err(InvalidTransition)
  {
    hide ProjectStatus, StatusOf;
    if u.paymentEvent in {Some(PaymentCaptured), Some(RefundConfirmed)} {
      TotalVerdict(v, u);
    } else if u.paymentEvent == Some(LockReleased) {
      StatusProjected(v.(amountLocked := 0.0));
      CapturedStatus(v, v.(amountLocked := 0.0));
    } else {
      StatusProjected(v);
      StatusProjected(EventMoney(v, u));
    }
  }

  /** Captured money shows itself, whatever else is held or was shown before. */
  lemma CapturedStatus(v: View, w: View)
    requires v.amountRequired == w.amountRequired && v.amountPaid == w.amountPaid && v.amountRefunded == w.amountRefunded
    ensures v.amountPaid > 0.0 ==> StatusOf(v) == StatusOf(w)
  {
  }

  lemma TotalVerdict(v: View, u: Update)
    requires UpdateAmountsValid(v, u) && u.paymentEvent in {Some(PaymentCaptured), Some(RefundConfirmed)}
    ensures ApplyEvent(v, u) == if EventAllowed(v, u)
                                then Ok(EventMoney(v, u).(status := EventStatus(v, u))) else Err(InvalidTransition)
  {
    StatusProjected(EventMoney(v, u));
    hide ProjectStatus, StatusOf;
    if u.paymentEvent == Some(PaymentCaptured) && u.paidAmount.Some? {
      assert WithPaid(v, u.paidAmount.value) == EventMoney(v, u);
    }
  }

  predicate FraudAllowed(status: FraudStatus, event: Option<FraudEvent>) {
    match event
    case None => true
    case Some(Review) => status == FraudUnknown || status == FraudCheck
    case Some(Accept) => status != FraudRejected
    case Some(Reject) => status != FraudAccepted
  }

  function FraudAfter(status: FraudStatus, event: Option<FraudEvent>): FraudStatus {
    match event
    case None => status
    case Some(Review) => FraudCheck
    case Some(Accept) => FraudAccepted
    case Some(Reject) => FraudRejected
  }

  /** A whole update for the engine, in one step. */
  lemma UpdateVerdict(v: View, u: Update)
    requires UpdateAmountsValid(v, u)
    ensures ApplyUpdate(v, u)
         == if EventAllowed(v, u) && FraudAllowed(v.fraudStatus, u.fraudEvent)
            then Ok(WithEnvelope(EventMoney(v, u).(status := EventStatus(v, u),
                                                   fraudStatus := FraudAfter(v.fraudStatus, u.fraudEvent)), u))
            else Err(InvalidTransition)
  {
    var w := WithEnvelope(v, u);
    EnvelopeIgnored(v, u);
    EventVerdict(w, u);
    hide ApplyEvent, ApplyFraudEvent, EventAllowed, EventStatus, EventMoney, FraudAllowed, FraudAfter;
    if EventAllowed(v, u) {
      FraudVerdict(ApplyEvent(w, u).value, u);
    }
  }

  /** The status reads money and status only. */
  lemma StatusIgnores(v: View, w: View)
    requires v.amountRequired == w.amountRequired && v.amountPaid == w.amountPaid
    requires v.amountRefunded == w.amountRefunded && v.amountLocked == w.amountLocked && v.status == w.status
    ensures StatusOf(v) == StatusOf(w)
  {
  }

  lemma EnvelopeMoney(v: View, u: Update)
    ensures EventMoney(WithEnvelope(v, u), u) == WithEnvelope(EventMoney(v, u), u)
  {
    match u.paymentEvent {
      case Some(PaymentCaptured) =>
      case Some(RefundConfirmed) =>
      case Some(LockedEvent) =>
      case Some(LockReleased) =>
      case _ =>
    }
  }

  lemma MoneyOnly(v: View, u: Update)
    ensures EventMoney(v, u).fraudStatus == v.fraudStatus && EventMoney(v, u).status == v.status
  {
  }

  /** What an update says about identity, messages and metadata does not decide about its event. */
  lemma EnvelopeIgnored(v: View, u: Update)
    ensures var w := WithEnvelope(v, u);
      && EventAllowed(w, u) == EventAllowed(v, u)
      && EventStatus(w, u) == EventStatus(v, u)
      && EventMoney(w, u) == WithEnvelope(EventMoney(v, u), u)
      && EventMoney(v, u).fraudStatus == v.fraudStatus
      && (UpdateAmountsValid(v, u) ==> UpdateAmountsValid(w, u))
  {
    var w := WithEnvelope(v, u);
    EnvelopeMoney(v, u);
    MoneyOnly(v, u);
    hide EventMoney;
    StatusIgnores(v, w);
    StatusIgnores(EventMoney(v, u), EventMoney(w, u));
    hide StatusOf;
  }

  lemma FraudVerdict(v: View, u: Update)
    ensures ApplyFraudEvent(v, u) == if FraudAllowed(v.fraudStatus, u.fraudEvent)
                                     then Ok(v.(fraudStatus := FraudAfter(v.fraudStatus, u.fraudEvent)))
                                     else Err(InvalidTransition)
  {
  }

  // ---- whole updates of facts ----

  /** The money once the totals of a snapshot are recorded, and the status before its event. */
  function WithTotals(f: PaymentFacts, u: Update): View {
    var paid := Max(f.capturedFunds, u.paidAmount.GetOr(f.capturedFunds));
    var refunded := Max(f.refundedFunds, u.refundedAmount.GetOr(f.refundedFunds));
    var v := ViewOf(f).(amountPaid := paid,
                        amountRefunded := refunded,
                        amountLocked := Max(0.0, f.remainingAuthorization - (paid - f.capturedFunds)));
    v.(status :=
         if refunded > f.refundedFunds || (u.refundedAmount.Some? && u.paymentEvent == Some(RefundConfirmed)) then StatusOf(v)
         else if u.paidAmount.Some? then StatusKeeping(v)
         else f.status)
  }

  /** A snapshot whose captured total is older than the recorded one: its hold is history. */
  predicate Stale(f: PaymentFacts, u: Update) {
    u.paidAmount.Some? && u.paidAmount.value < f.capturedFunds
  }

  /** The event that is left once the totals are recorded: one that only labelled its total is done, so is a
      scoped release of no hold, and a stale hold is not locked. */
  function EventLeft(f: PaymentFacts, u: Update): Update {
    u.(paymentEvent :=
         if (u.paymentEvent == Some(PaymentCaptured) && u.paidAmount.Some?)
            || (u.paymentEvent == Some(RefundConfirmed) && u.refundedAmount.Some?)
            || (u.ScopedRelease() && WithTotals(f, u).amountLocked == 0.0)
            || (u.paymentEvent == Some(LockedEvent) && Stale(f, u))
         then None else u.paymentEvent)
  }

  predicate UpdateAllowed(f: PaymentFacts, u: Update) {
    && (u.paymentEvent == Some(RefundConfirmed) ==> u.refundedAmount.Some? && WithTotals(f, u).amountPaid > 0.0)
    && (u.paymentEvent == Some(PaymentCaptured) ==> u.paidAmount.Some?)
    && EventAllowed(WithTotals(f, u), EventLeft(f, u))
    && FraudAllowed(f.fraudStatus, u.fraudEvent)
  }

  /** The facts an update leaves. Only a refund event takes the marker of a pending refund away, and money
      captured during or after a refund asks for reconciliation. */
  function Updated(f: PaymentFacts, u: Update): PaymentFacts {
    var v := WithTotals(f, u);
    var event := EventLeft(f, u);
    f.(capturedFunds := v.amountPaid,
       refundedFunds := v.amountRefunded,
       remainingAuthorization := EventMoney(v, event).amountLocked,
       status := if f.status == RefundStarted && u.paymentEvent !in {Some(RefundConfirmed), Some(RefundCancelled)}
                 then RefundStarted else EventStatus(v, event),
       externalId := if u.externalId.Some? then u.externalId else f.externalId,
       fraudStatus := FraudAfter(f.fraudStatus, u.fraudEvent),
       fraudMessage := u.fraudMessage.GetOr(f.fraudMessage),
       providerData := f.providerData + u.providerData,
       reconciliationRequired := f.reconciliationRequired
                                 || (v.amountPaid > f.capturedFunds && (f.refundedFunds > 0.0 || f.status == RefundStarted)))
  }

  lemma CaptureTotalExactly(v: View, u: Update)
    requires Bounded(v) && (u.paidAmount.Some? ==> 0.0 <= u.paidAmount.value <= v.amountRequired)
    ensures var paid := Max(v.amountPaid, u.paidAmount.GetOr(v.amountPaid));
      var w := v.(amountPaid := paid, amountLocked := Max(0.0, v.amountLocked - (paid - v.amountPaid)));
      Bounded(w) && ApplyCaptureTotal(v, u) == Ok(if u.paidAmount.Some? then w.(status := StatusKeeping(w)) else v)
      && (u.paidAmount.None? ==> w == v)
  {
    if u.paidAmount.Some? {
      var claim := CaptureClaim(u.paidAmount.value);
      UpdateVerdict(v, claim);
      assert v.providerData + map[] == v.providerData;
    }
    hide ApplyUpdate, StatusOf;
  }

  lemma RefundTotalExactly(v: View, u: Update)
    requires Bounded(v) && (u.refundedAmount.Some? ==> 0.0 <= u.refundedAmount.value <= v.amountPaid)
    ensures var w := v.(amountRefunded := Max(v.amountRefunded, u.refundedAmount.GetOr(v.amountRefunded)));
      var confirmed := u.refundedAmount.Some? && u.paymentEvent == Some(RefundConfirmed);
      && Bounded(w)
      && ApplyRefundTotal(v, u)
         == (if w.amountRefunded > v.amountRefunded || confirmed
             then (if v.amountPaid > 0.0 then Ok(w.(status := StatusOf(w))) else Err(InvalidTransition))
             else Ok(v))
      && (!(w.amountRefunded > v.amountRefunded) ==> w == v)
  {
    if u.refundedAmount.Some? {
      var claim := RefundClaim(u.refundedAmount.value);
      UpdateVerdict(v, claim);
      assert v.providerData + map[] == v.providerData;
    }
    hide ApplyUpdate, StatusOf;
  }

  /** The status before the event does not depend on how the totals were recorded one after the other. */
  lemma TotalsExactly(f: PaymentFacts, u: Update)
    requires FactsBounded(f) && FinanciallyPossible(f, u)
    ensures var update := WithoutStaleHold(f, u);
      var captured := ApplyCaptureTotal(ViewOf(f), update);
      && Bounded(WithTotals(f, u))
      && captured.Ok?
      && ApplyRefundTotal(captured.value, update)
      == if u.paymentEvent == Some(RefundConfirmed) && u.refundedAmount.Some? && WithTotals(f, u).amountPaid == 0.0
            then Err(InvalidTransition) else Ok(WithTotals(f, u))
  {
    var update := WithoutStaleHold(f, u);
    CaptureTotalExactly(ViewOf(f), update);
    var captured := ApplyCaptureTotal(ViewOf(f), update).value;
    RefundTotalExactly(captured, update);
    var w := WithTotals(f, u);
    CapturedStatus(w.(status := f.status), captured.(amountRefunded := w.amountRefunded));
    hide ApplyCaptureTotal, ApplyRefundTotal, StatusOf;
  }

  /** An update that claims nothing impossible is accepted exactly when its event and its fraud event are
      transitions of the payment with the claimed totals; it then leaves exactly `Updated`. Three runs of
      the engine, one after the other, are this one table. */
  lemma AppliedExactly(f: PaymentFacts, u: Update)
    requires FactsBounded(f) && FinanciallyPossible(f, u)
    ensures ApplyToFacts(f, u) == if UpdateAllowed(f, u) then Ok(Updated(f, u)) else Err(InvalidTransition)
  {
    var update := WithoutStaleHold(f, u);
    TotalsExactly(f, u);
    var captured := ApplyCaptureTotal(ViewOf(f), update).value;
    var v := WithTotals(f, u);
    if ApplyRefundTotal(captured, update).Ok? {
      var last := LastUpdate(v, update);
      LastRun(f, u);
      if UpdateAllowed(f, u) {
        LeftKeepsTotals(f, u);
      }
      hide ApplyUpdate, ApplyCaptureTotal, ApplyRefundTotal, EventStatus, EventMoney, EventAllowed, WithTotals,
        FinanciallyPossible, FraudAllowed, FraudAfter, EventLeft;
      assert ApplyToView(ViewOf(f), update) == ApplyUpdate(v, last);
    }
    hide ApplyUpdate, ApplyCaptureTotal, ApplyRefundTotal, EventStatus, EventMoney, EventAllowed, WithTotals,
      FinanciallyPossible, FraudAllowed, FraudAfter, EventLeft;
  }

  /** The event that is left moves only the hold. */
  lemma LeftKeepsTotals(f: PaymentFacts, u: Update)
    requires UpdateAllowed(f, u)
    ensures var v := WithTotals(f, u);
      EventMoney(v, EventLeft(f, u)) == v.(amountLocked := EventMoney(v, EventLeft(f, u)).amountLocked)
    ensures WithTotals(f, u).externalId == f.externalId && WithTotals(f, u).fraudMessage == f.fraudMessage
    ensures WithTotals(f, u).providerData == f.providerData && WithTotals(f, u).amountRequired == f.amountRequired
  {
    hide StatusOf;
  }

  /** The last run of the engine, over the totals. */
  lemma LastRun(f: PaymentFacts, u: Update)
    requires FactsBounded(f) && FinanciallyPossible(f, u)
    ensures var v := WithTotals(f, u);
      var event := EventLeft(f, u);
      ApplyUpdate(v, LastUpdate(v, WithoutStaleHold(f, u)))
      == if && EventAllowed(v, event)
            && FraudAllowed(f.fraudStatus, u.fraudEvent)
            && (u.paymentEvent == Some(RefundConfirmed) ==> u.refundedAmount.Some?)
            && (u.paymentEvent == Some(PaymentCaptured) ==> u.paidAmount.Some?)
         then Ok(WithEnvelope(EventMoney(v, event).(status := EventStatus(v, event),
                                                    fraudStatus := FraudAfter(f.fraudStatus, u.fraudEvent)), u))
         else Err(InvalidTransition)
  {
    var v := WithTotals(f, u);
    var last := LastUpdate(v, WithoutStaleHold(f, u));
    TotalsBounded(f, u);
    UpdateVerdict(v, last);
    LastEvent(f, u);
    hide ApplyUpdate, EventStatus, EventMoney, EventAllowed, WithTotals, FinanciallyPossible;
  }

  lemma TotalsBounded(f: PaymentFacts, u: Update)
    requires FactsBounded(f) && FinanciallyPossible(f, u)
    ensures UpdateAmountsValid(WithTotals(f, u), LastUpdate(WithTotals(f, u), WithoutStaleHold(f, u)))
    ensures WithTotals(f, u).fraudStatus == f.fraudStatus
  {
    hide StatusOf;
  }

  /** The last run of the engine sees the event that is left. */
  lemma LastEvent(f: PaymentFacts, u: Update)
    requires FactsBounded(f) && FinanciallyPossible(f, u)
    ensures var v := WithTotals(f, u);
      var last := LastUpdate(v, WithoutStaleHold(f, u));
      && last.paymentEvent == EventLeft(f, u).paymentEvent
      && (EventAllowed(v, last) <==>
            && EventAllowed(v, EventLeft(f, u))
            && (u.paymentEvent == Some(RefundConfirmed) ==> u.refundedAmount.Some?)
            && (u.paymentEvent == Some(PaymentCaptured) ==> u.paidAmount.Some?))
      && (EventAllowed(v, last) ==>
            && EventStatus(v, last) == EventStatus(v, EventLeft(f, u))
            && EventMoney(v, last) == EventMoney(v, EventLeft(f, u)))
  {
    hide WithTotals, StatusOf;
  }
}
