/** The state engine: how one semantic update changes the money, status and fraud state of a
    payment. The functions here specify the in-place engine of module `PaymentEngine`. */
module StateEngine {
  import opened Wrappers
  import opened Records

  /** The fields of a payment that the engine reads and writes. */
  datatype View = View(
    amountRequired: Money,
    amountPaid: Money,
    amountRefunded: Money,
    amountLocked: Money,
    status: PaymentStatus,
    externalId: Option<string>,
    fraudStatus: FraudStatus,
    fraudMessage: string,
    providerData: Metadata)

  /** The money bounds every stored payment must meet. */
  predicate Bounded(v: View) {
    && 0.0 <= v.amountRequired
    && 0.0 <= v.amountPaid <= v.amountRequired
    && 0.0 <= v.amountLocked <= v.amountRequired - v.amountPaid
    && 0.0 <= v.amountRefunded <= v.amountPaid
  }

  predicate UpdateAmountsValid(v: View, u: Update) {
    && Bounded(v)
    && (u.paidAmount.Some? ==> 0.0 <= u.paidAmount.value <= v.amountRequired)
    && (u.refundedAmount.Some? ==> 0.0 <= u.refundedAmount.value <= v.amountPaid)
    && (u.lockedAmount.Some? ==> 0.0 < u.lockedAmount.value <= v.amountRequired - v.amountPaid)
  }

  function WithPaid(v: View, paid: Money): View {
    var next := Max(v.amountPaid, paid);
    var increment := next - v.amountPaid;
    v.(amountPaid := next,
       amountLocked := if increment > 0.0 && v.amountLocked != 0.0
                       then Max(0.0, v.amountLocked - increment)
                       else v.amountLocked)
  }

  predicate UnresolvedRefund(v: View) {
    v.status.RefundStarted?
  }

  function Capturable(v: View): Money {
    Min(v.amountLocked, v.amountRequired - v.amountPaid)
  }

  function Refundable(v: View): Money {
    v.amountPaid - v.amountRefunded
  }

  /** A capture may be commanded only while nothing is, or is being, returned. */
  predicate CaptureEligible(v: View) {
    !UnresolvedRefund(v) && v.amountRefunded <= 0.0
  }

  /** The weaker guard on a charge-request notification. */
  predicate CaptureRecordable(v: View) {
    !UnresolvedRefund(v) && !(v.amountPaid > 0.0 && Refundable(v) <= 0.0)
  }

  predicate SettlementStatus(s: PaymentStatus) {
    s in {PreAuth, Partial, PartiallyRefunded, Paid, RefundStarted, Refunded}
  }

  function ProjectStatus(v: View, refundInProgress: bool, authorizationReleased: bool): PaymentStatus {
    if refundInProgress then RefundStarted
    else if v.amountRefunded > 0.0 then
      if v.amountRefunded >= v.amountPaid then Refunded else PartiallyRefunded
    else if v.amountPaid > 0.0 then
      if v.amountPaid >= v.amountRequired then Paid else Partial
    else if v.amountLocked > 0.0 then PreAuth
    else if authorizationReleased then Cancelled
    else if SettlementStatus(v.status) then Prepared
    else v.status
  }

  /** The effect of an update's payment event, or a refusal of the transition. */
  function ApplyEvent(v: View, u: Update): Result<View, Error> {
    if u.paymentEvent.None? then Ok(v)
    else
      match u.paymentEvent.value
      case PreparedEvent =>
        if v.status.New? then Ok(v.(status := Prepared)) else Err(InvalidTransition)
      case LockedEvent =>
        if v.status in {New, Prepared, PreAuth} && u.lockedAmount.Some?
        then Ok(v.(amountLocked := Max(v.amountLocked, u.lockedAmount.value), status := PreAuth))
        else Err(InvalidTransition)
      case ChargeRequested =>
        if !CaptureRecordable(v) then Err(InvalidTransition)
        else if v.amountPaid > 0.0 then Ok(v)
        else if v.amountLocked > 0.0 || v.status.InCharge? then Ok(v.(status := InCharge))
        else Err(InvalidTransition)
      case PaymentCaptured =>
        if u.paidAmount.None? then Err(InvalidTransition)
        else
          var w := WithPaid(v, u.paidAmount.value);
          Ok(w.(status := ProjectStatus(w, UnresolvedRefund(v), false)))
      case FailedEvent =>
        if v.status.Failed? then Ok(v)
        else if v.amountPaid > 0.0 || v.amountRefunded > 0.0 then Err(InvalidTransition)
        else if v.status in {New, Prepared, PreAuth, InCharge} then Ok(v.(status := Failed))
        else Err(InvalidTransition)
      case RefundRequested =>
        if Refundable(v) > 0.0 then Ok(v.(status := RefundStarted)) else Err(InvalidTransition)
      case RefundConfirmed =>
        if v.amountPaid <= 0.0 || u.refundedAmount.None? then Err(InvalidTransition)
        else
          var w := v.(amountRefunded := Max(v.amountRefunded, u.refundedAmount.value));
          Ok(w.(status := ProjectStatus(w, false, false)))
      case RefundCancelled =>
        if UnresolvedRefund(v) || Refundable(v) > 0.0
        then Ok(v.(status := ProjectStatus(v, false, false)))
        else Err(InvalidTransition)
      case LockReleased =>
        if v.amountLocked > 0.0 then
          var w := v.(amountLocked := 0.0);
          Ok(w.(status := ProjectStatus(w, UnresolvedRefund(v), true)))
        else Err(InvalidTransition)
  }

  function ApplyFraudEvent(v: View, u: Update): Result<View, Error> {
    if u.fraudEvent.None? then Ok(v)
    else
      match u.fraudEvent.value
      case Review =>
        if v.fraudStatus in {FraudUnknown, FraudCheck} then Ok(v.(fraudStatus := FraudCheck))
        else Err(InvalidTransition)
      case Accept =>
        if v.fraudStatus in {FraudUnknown, FraudCheck, FraudAccepted} then Ok(v.(fraudStatus := FraudAccepted))
        else Err(InvalidTransition)
      case Reject =>
        if v.fraudStatus in {FraudUnknown, FraudCheck, FraudRejected} then Ok(v.(fraudStatus := FraudRejected))
        else Err(InvalidTransition)
  }

  /** The envelope fields an update replaces before its events are read. */
  function WithEnvelope(v: View, u: Update): View {
    v.(externalId := if u.externalId.Some? then u.externalId else v.externalId,
       fraudMessage := u.fraudMessage.GetOr(v.fraudMessage),
       providerData := v.providerData + u.providerData)
  }

  /** One whole update, for a payment that has not seen the update's event identity. */
  function ApplyUpdate(v: View, u: Update): Result<View, Error> {
    if !UpdateAmountsValid(v, u) then Err(InvalidTransition)
    else
      var w :- ApplyEvent(WithEnvelope(v, u), u);
      ApplyFraudEvent(w, u)
  }

  lemma EventKeepsMoney(v: View, u: Update)
    requires Bounded(v) && UpdateAmountsValid(v, u) && ApplyEvent(v, u).Ok?
    ensures var w := ApplyEvent(v, u).value;
      && Bounded(w)
      && w.amountRequired == v.amountRequired
      && w.amountPaid >= v.amountPaid
      && w.amountRefunded >= v.amountRefunded
  {
    hide ProjectStatus, CaptureRecordable;
  }

  /** An accepted update keeps the bounds and never takes captured or refunded money back. */
  lemma ApplyUpdateKeepsMoney(v: View, u: Update)
    requires ApplyUpdate(v, u).Ok?
    ensures var w := ApplyUpdate(v, u).value;
      && Bounded(w)
      && w.amountRequired == v.amountRequired
      && w.amountPaid >= v.amountPaid
      && w.amountRefunded >= v.amountRefunded
  {
    hide ApplyEvent;
    EventKeepsMoney(WithEnvelope(v, u), u);
  }
}
