/** Capture totals observed in any order, any number of times. What they leave is fixed by the claims that came
    first under their event identities; exactly when each order leaves the same is a condition on the claims. */
module CaptureOrder {
  import opened Wrappers
  import opened Records
  import opened StateEngine
  import opened Rules
  import opened Effects
  import opened System
  import opened History
  import opened Steps
  import opened Decisions
  import opened Coherence

  /** An observation that claims a captured total and no other money, lifecycle, fraud event or payment handle.
      It may carry an event identity, metadata and a message, and may be malformed. */
  predicate CaptureOnly(u: Update) {
    && u.paidAmount.Some?
    && u.paymentEvent in {None, Some(PaymentCaptured)}
    && u.fraudEvent.None? && u.refundedAmount.None? && u.lockedAmount.None? && u.externalId.None?
    && u.OutcomePart().None? && !u.DeltaOnly()
  }

  function Paid(u: Update): Money {
    u.paidAmount.GetOr(0.0)
  }

  function Observations(us: seq<Update>): seq<Command> {
    seq(|us|, i requires 0 <= i < |us| => Observe(Some(us[i])))
  }

  // ---- the fixed result ----

  /** A claim whose event identity was not already applied before the first of these observations. */
  predicate Fresh(s: State, u: Update) {
    var record := ReplayFor(s.facts, u);
    record.None? || KnownReplay(s.replay, record.value).None?
  }

  predicate Possible(s: State, u: Update) {
    ObservationValid(u) && Fresh(s, u) && u.paidAmount.Some? && 0.0 <= Paid(u) <= s.facts.amountRequired
  }

  /** A claim that is disputed whatever else is claimed: its total is out of range, or its event identity was
      already applied to other content. */
  predicate Disputed(s: State, u: Update) {
    && ObservationValid(u)
    && if Fresh(s, u) then !Possible(s, u)
       else KnownReplay(s.replay, ReplayFor(s.facts, u).value).value.contentDigest != ContentOf(u)
  }

  predicate SameEvent(u: Update, v: Update) {
    EventIdentity(u).Some? && EventIdentity(u) == EventIdentity(v)
  }

  /** The claim at `k` is the first possible one under its event identity, or has no identity. */
  ghost predicate First(s: State, us: seq<Update>, k: int) {
    && 0 <= k < |us|
    && Possible(s, us[k])
    && forall j :: 0 <= j < k && Possible(s, us[j]) ==> !SameEvent(us[j], us[k])
  }

  /** `total` is the greatest of the recorded total and the first claims. */
  ghost predicate GreatestFirst(s: State, us: seq<Update>, total: Money) {
    && s.facts.capturedFunds <= total
    && (forall k :: First(s, us, k) ==> Paid(us[k]) <= total)
    && (total == s.facts.capturedFunds || exists k :: First(s, us, k) && Paid(us[k]) == total)
  }

  /** `total` is the greatest of the recorded total and all possible claims. */
  ghost predicate Greatest(s: State, us: seq<Update>, total: Money) {
    && s.facts.capturedFunds <= total
    && (forall u :: u in us && Possible(s, u) ==> Paid(u) <= total)
    && (total == s.facts.capturedFunds || exists u :: u in us && Possible(s, u) && Paid(u) == total)
  }

  ghost predicate AnyPossible(s: State, us: seq<Update>) {
    exists u :: u in us && Possible(s, u)
  }

  /** Two possible claims use one event identity for different content. */
  ghost predicate Clash(s: State, u: Update, v: Update) {
    Possible(s, u) && Possible(s, v) && SameEvent(u, v) && ContentOf(u) != ContentOf(v)
  }

  ghost predicate AnyDisputed(s: State, us: seq<Update>) {
    || (exists u :: u in us && Disputed(s, u))
    || (exists u, v :: u in us && v in us && Clash(s, u, v))
  }

  function HoldAfter(f: PaymentFacts, total: Money): Money {
    Max(0.0, f.remainingAuthorization - (total - f.capturedFunds))
  }

  /** The facts that the claims fix: the greatest first total, the hold it leaves, the status of that money,
      and whether anybody must reconcile. */
  ghost predicate Fixed(s: State, us: seq<Update>, g: PaymentFacts) {
    var f := s.facts;
    var total := g.capturedFunds;
    var returning := f.refundedFunds > 0.0 || f.status.RefundStarted?;
    && GreatestFirst(s, us, total)
    && g.refundedFunds == f.refundedFunds
    && g.remainingAuthorization == HoldAfter(f, total)
    && g.status == (if AnyPossible(s, us)
                    then ProjectStatus(ViewOf(g).(status := f.status), f.status.RefundStarted?, false) else f.status)
    && (g.reconciliationRequired <==>
          f.reconciliationRequired || AnyDisputed(s, us) || (total > f.capturedFunds && returning))
  }

  // ---- one observation ----

  function Captured(f: PaymentFacts, u: Update): PaymentFacts {
    var w := WithPaid(ViewOf(f), Paid(u));
    f.(capturedFunds := w.amountPaid,
       remainingAuthorization := w.amountLocked,
       status := ProjectStatus(w, f.status.RefundStarted?, false),
       fraudMessage := u.fraudMessage.GetOr(f.fraudMessage),
       providerData := f.providerData + u.providerData,
       reconciliationRequired :=
         f.reconciliationRequired
         || (w.amountPaid > f.capturedFunds && (f.refundedFunds > 0.0 || f.status.RefundStarted?)))
  }

  lemma CaptureApplied(f: PaymentFacts, u: Update)
    requires FactsBounded(f) && CaptureOnly(u) && 0.0 <= Paid(u) <= f.amountRequired
    ensures FinanciallyPossible(f, u)
    ensures AggregateFacts(f, u) == Ok(Captured(f, u))
  {
    var v := ViewOf(f);
    var w := ApplyCaptureTotal(v, u).value;
    var paid := WithPaid(v, Paid(u));
    assert v.providerData + map[] == v.providerData;
    assert w == paid.(status := ProjectStatus(paid, UnresolvedRefund(v), false));
    assert ApplyRefundTotal(w, u) == Ok(w);
    var last := LastUpdate(w, u);
    assert last.paymentEvent.None?;
    assert ApplyUpdate(w, last) == Ok(WithEnvelope(w, u));
    hide ApplyUpdate, ApplyCaptureTotal, ApplyRefundTotal;
    assert ApplyToView(v, u) == Ok(WithEnvelope(w, u));
  }

  lemma {:induction false} KnownIsLogged(log: seq<ReplayRecord>, record: ReplayRecord)
    ensures var known := KnownReplay(log, record);
      if known.Some? then known.value in log && known.value.ScopedIdentity() == record.ScopedIdentity()
      else forall r :: r in log ==> r.ScopedIdentity() != record.ScopedIdentity()
  {
    if log == [] {
    } else {
      KnownIsLogged(log[1..], record);
      assert forall r :: r in log ==> r == log[0] || r in log[1..];
    }
  }

  lemma {:induction false} KnownStays(log: seq<ReplayRecord>, more: seq<ReplayRecord>, record: ReplayRecord)
    requires KnownReplay(log, record).Some?
    ensures KnownReplay(log + more, record) == KnownReplay(log, record)
  {
    if log[0].ScopedIdentity() == record.ScopedIdentity() {
    } else {
      KnownStays(log[1..], more, record);
      assert (log + more)[1..] == log[1..] + more;
    }
  }

  /** What the observations so far left behind. */
  ghost predicate Observed(s: State, us: seq<Update>, t: State) {
    && t.operations == s.operations
    && SameIdentity(s.facts, t.facts)
    && s.replay <= t.replay
    && LogExplained(s, us, t.replay[|s.replay|..])
    && LogComplete(s, us, t.replay)
    && Fixed(s, us, t.facts)
  }

  ghost predicate LogExplained(s: State, us: seq<Update>, log: seq<ReplayRecord>) {
    forall r :: r in log ==> exists v :: v in us && Possible(s, v) && ReplayFor(s.facts, v) == Some(r)
  }

  ghost predicate LogComplete(s: State, us: seq<Update>, log: seq<ReplayRecord>) {
    forall v :: v in us && Possible(s, v) && EventIdentity(v).Some? ==>
      KnownReplay(log, ReplayFor(s.facts, v).value).Some?
  }

  ghost predicate Claims(s: State, us: seq<Update>) {
    && Sound(s)
    && Coherent(s)
    && (forall u :: u in us ==> CaptureOnly(u))
  }

  lemma MoreClaims(s: State, us: seq<Update>, u: Update)
    ensures forall v :: v in us + [u] <==> v in us || v == u
    ensures AnyPossible(s, us + [u]) <==> AnyPossible(s, us) || Possible(s, u)
    ensures forall k :: 0 <= k < |us| ==> (First(s, us + [u], k) <==> First(s, us, k))
    ensures First(s, us + [u], |us|) <==> Possible(s, u) && forall v :: v in us && Possible(s, v) ==> !SameEvent(v, u)
  {
    hide Possible, SameEvent;
    assert forall v :: v in us + [u] <==> v in us || v == u;
    forall k | 0 <= k < |us|
      ensures First(s, us + [u], k) <==> First(s, us, k)
    {
      assert (us + [u])[..k + 1] == us[..k + 1];
      assert forall j :: 0 <= j <= k ==> (us + [u])[j] == us[j];
    }
    if First(s, us + [u], |us|) {
      forall v | v in us && Possible(s, v)
        ensures !SameEvent(v, u)
      {
        var j :| 0 <= j < |us| && us[j] == v;
        assert (us + [u])[j] == v;
      }
    }
  }

  lemma MoreDisputes(s: State, us: seq<Update>, u: Update)
    ensures AnyDisputed(s, us + [u]) <==>
      AnyDisputed(s, us) || Disputed(s, u) || exists v :: v in us && (Clash(s, u, v) || Clash(s, v, u))
  {
    hide Possible, Disputed, ContentOf, SameEvent;
    assert forall v :: v in us + [u] <==> v in us || v == u;
    if v :| v in us && (Clash(s, u, v) || Clash(s, v, u)) {
      assert v in us + [u] && u in us + [u];
    }
  }

  lemma LaterClaim(s: State, us: seq<Update>, u: Update, total: Money)
    requires GreatestFirst(s, us, total) && !First(s, us + [u], |us|)
    ensures GreatestFirst(s, us + [u], total)
  {
    hide Possible, SameEvent;
    MoreClaims(s, us, u);
    var vs := us + [u];
    forall k | First(s, vs, k)
      ensures Paid(vs[k]) <= total
    {
      assert First(s, us, k);
    }
    if total != s.facts.capturedFunds {
      var k :| First(s, us, k) && Paid(us[k]) == total;
      assert First(s, vs, k);
    }
  }

  lemma FirstClaim(s: State, us: seq<Update>, u: Update, total: Money)
    requires GreatestFirst(s, us, total) && First(s, us + [u], |us|)
    ensures GreatestFirst(s, us + [u], Max(total, Paid(u)))
  {
    MoreClaims(s, us, u);
    var vs := us + [u];
    forall k | First(s, vs, k)
      ensures Paid(vs[k]) <= Max(total, Paid(u))
    {
      assert k < |us| ==> First(s, us, k);
    }
    if total != s.facts.capturedFunds {
      var k :| First(s, us, k) && Paid(us[k]) == total;
      assert First(s, vs, k);
    }
  }

  /** A claim whose identity was already applied moves nothing; it is disputed if its content differs. */
  lemma KnownClaim(s: State, us: seq<Update>, u: Update, t: State, g: PaymentFacts)
    requires Claims(s, us + [u]) && Observed(s, us, t) && ObservationValid(u)
    requires ReplayFor(t.facts, u).Some? && KnownReplay(t.replay, ReplayFor(t.facts, u).value).Some?
    requires var known := KnownReplay(t.replay, ReplayFor(t.facts, u).value).value;
      g == if known.contentDigest == ContentOf(u) then t.facts else RetainObservation(t.facts, u, ConflictingIdentity)
    ensures Fixed(s, us + [u], g)
  {
    hide ProjectStatus, Sound, Coherent, KnownReplay, ContentOf, First, GreatestFirst, ObservationValid;
    var record := ReplayFor(s.facts, u).value;
    var known := KnownReplay(t.replay, record).value;
    KnownIsLogged(t.replay, record);
    KnownIsLogged(s.replay, record);
    assert t.replay == s.replay + t.replay[|s.replay|..];
    MoreClaims(s, us, u);
    MoreDisputes(s, us, u);
    if KnownReplay(s.replay, record).Some? {
      KnownStays(s.replay, t.replay[|s.replay|..], record);
      assert !Fresh(s, u);
    } else {
      assert known in t.replay[|s.replay|..];
      var v :| v in us && Possible(s, v) && ReplayFor(s.facts, v) == Some(known);
      assert SameEvent(v, u);
      if known.contentDigest == ContentOf(u) {
        SameContentClaims(u, v);
        SameContentClashes(s, us, u, v);
      } else if Possible(s, u) {
        assert Clash(s, u, v);
      }
    }
    LaterClaim(s, us, u, t.facts.capturedFunds);
  }

  lemma SameContentClaims(u: Update, v: Update)
    requires ContentOf(u) == ContentOf(v)
    ensures u.paidAmount == v.paidAmount
  {
  }

  lemma SameContentClashes(s: State, us: seq<Update>, u: Update, v: Update)
    requires v in us && Possible(s, v) && Possible(s, u) && SameEvent(v, u) && ContentOf(v) == ContentOf(u)
    ensures AnyDisputed(s, us + [u]) <==> AnyDisputed(s, us)
  {
    hide ContentOf, Possible;
    MoreDisputes(s, us, u);
    assert !Disputed(s, u) by {
      assert Possible(s, u);
      PossibleIsUndisputed(s, u);
    }
    if w :| w in us && (Clash(s, u, w) || Clash(s, w, u)) {
      assert Clash(s, v, w);
    }
  }

  lemma PossibleIsUndisputed(s: State, u: Update)
    requires Possible(s, u)
    ensures !Disputed(s, u)
  {
    hide ContentOf;
  }

  /** Projecting a status that was itself projected from smaller totals changes nothing. */
  lemma StatusOnce(v: View, w: View, status: PaymentStatus, projected: PaymentStatus)
    requires Bounded(v) && Bounded(w) && v.amountPaid <= w.amountPaid && v.amountRefunded == w.amountRefunded
    requires w.amountPaid == v.amountPaid ==> w.amountLocked == v.amountLocked
    requires projected == status || projected == ProjectStatus(v.(status := status), status.RefundStarted?, false)
    requires v.amountRequired == w.amountRequired
    ensures ProjectStatus(w.(status := projected), projected.RefundStarted?, false)
         == ProjectStatus(w.(status := status), status.RefundStarted?, false)
  {
  }

  /** A possible claim under a new identity moves the fixed facts exactly as the rules do. */
  lemma NewClaim(s: State, us: seq<Update>, u: Update, g: PaymentFacts)
    requires FactsBounded(s.facts) && FactsBounded(g) && SameIdentity(s.facts, g)
    requires Possible(s, u) && Fixed(s, us, g) && forall v :: v in us && Possible(s, v) ==> !SameEvent(v, u)
    ensures Fixed(s, us + [u], Captured(g, u))
  {
    var h := Captured(g, u);
    var w := WithPaid(ViewOf(g), Paid(u));
    MoreClaims(s, us, u);
    MoreDisputes(s, us, u);
    PossibleIsUndisputed(s, u);
    FirstClaim(s, us, u, g.capturedFunds);
    StatusOnce(ViewOf(g), w, s.facts.status, g.status);
    hide Fresh, GreatestFirst, AnyPossible, AnyDisputed, ProjectStatus;
    ProjectionIgnores(ViewOf(h).(status := s.facts.status), w.(status := s.facts.status), s.facts.status.RefundStarted?);
  }

  lemma ImpossibleClaim(s: State, us: seq<Update>, u: Update, g: PaymentFacts)
    requires ObservationValid(u) && Fresh(s, u) && !Possible(s, u) && Fixed(s, us, g)
    ensures Fixed(s, us + [u], RetainObservation(g, u, FinancialConstraints))
  {
    MoreClaims(s, us, u);
    MoreDisputes(s, us, u);
    LaterClaim(s, us, u, g.capturedFunds);
    hide Fresh, ProjectStatus, GreatestFirst;
  }

  /** A malformed claim is refused before anything is looked up. */
  lemma MalformedClaim(s: State, us: seq<Update>, u: Update, g: PaymentFacts)
    requires !ObservationValid(u) && Fixed(s, us, g)
    ensures Fixed(s, us + [u], g)
  {
    MoreClaims(s, us, u);
    MoreDisputes(s, us, u);
    LaterClaim(s, us, u, g.capturedFunds);
    hide Fresh, ProjectStatus, GreatestFirst;
  }

  /** One more observation of the run. */
  lemma ObserveOne(s: State, us: seq<Update>, u: Update, t: State)
    requires Claims(s, us + [u]) && Observed(s, us, t) && Sound(t) && Coherent(t)
    ensures Observed(s, us + [u], After(t, Observe(Some(u))))
  {
    hide ProjectStatus, Sound, Coherent, Fixed, KnownReplay, ContentOf, PlanNewEvidence, FinanciallyPossible,
      ObservationValid, LogComplete, LogExplained;
    assert u in us + [u];
    ReplacedNothing(t.operations);
    SameRecord(s.facts, t.facts, u);
    SoundBounded(s);
    SoundBounded(t);
    LoggedStays(s, us, u, t);
    StepOfObserve(t, u);
    var record := ReplayFor(t.facts, u);
    if !ObservationValid(u) {
      MalformedClaim(s, us, u, t.facts);
      KnownIsComplete(s, us, u, t);
    } else if record.Some? && KnownReplay(t.replay, record.value).Some? {
      KnownClaim(s, us, u, t, StepObserve(t, Some(u)).value.facts);
      KnownIsComplete(s, us, u, t);
    } else {
      NewIsFresh(s, u, t);
      if Possible(s, u) {
        CaptureApplied(t.facts, u);
        PlainEvidence(t, u, record);
        NewIsFirst(s, us, u, t);
        NewClaim(s, us, u, t.facts);
        LoggedGrows(s, us, u, t, record);
      } else {
        NotPossible(t.facts, u);
        ImpossibleClaim(s, us, u, t.facts);
        KnownIsComplete(s, us, u, t);
      }
    }
  }

  /** A possible claim with an unknown identity is the first under it. */
  lemma NewIsFirst(s: State, us: seq<Update>, u: Update, t: State)
    requires LogComplete(s, us, t.replay)
    requires ReplayFor(s.facts, u).Some? ==> KnownReplay(t.replay, ReplayFor(s.facts, u).value).None?
    ensures forall v :: v in us && Possible(s, v) ==> !SameEvent(v, u)
  {
    hide Possible, KnownReplay, ContentOf;
    forall v | v in us && Possible(s, v) && SameEvent(v, u)
      ensures false
    {
      SameIdentityLookup(t.replay, ReplayFor(s.facts, v).value, ReplayFor(s.facts, u).value);
    }
  }

  lemma KnownIsComplete(s: State, us: seq<Update>, u: Update, t: State)
    requires LogComplete(s, us, t.replay)
    requires Possible(s, u) && EventIdentity(u).Some? ==> KnownReplay(t.replay, ReplayFor(s.facts, u).value).Some?
    ensures LogComplete(s, us + [u], t.replay)
  {
    hide Possible, KnownReplay, ContentOf;
  }

  lemma {:induction false} SameIdentityLookup(log: seq<ReplayRecord>, a: ReplayRecord, b: ReplayRecord)
    requires a.ScopedIdentity() == b.ScopedIdentity()
    ensures KnownReplay(log, a) == KnownReplay(log, b)
  {
    if log == [] {
    } else {
      SameIdentityLookup(log[1..], a, b);
    }
  }

  lemma {:induction false} KnownWhenAppended(log: seq<ReplayRecord>, record: ReplayRecord)
    requires KnownReplay(log, record).None?
    ensures KnownReplay(log + [record], record) == Some(record)
  {
    if log == [] {
    } else {
      KnownWhenAppended(log[1..], record);
      assert (log + [record])[1..] == log[1..] + [record];
    }
  }

  lemma NotPossible(f: PaymentFacts, u: Update)
    requires FactsBounded(f) && CaptureOnly(u) && !(0.0 <= Paid(u) <= f.amountRequired)
    ensures !FinanciallyPossible(f, u)
  {
  }

  lemma SameRecord(f: PaymentFacts, g: PaymentFacts, u: Update)
    requires SameIdentity(f, g)
    ensures ReplayFor(f, u) == ReplayFor(g, u)
  {
  }

  lemma NewIsFresh(s: State, u: Update, t: State)
    requires s.replay <= t.replay && ReplayFor(s.facts, u) == ReplayFor(t.facts, u)
    requires ReplayFor(t.facts, u).Some? ==> KnownReplay(t.replay, ReplayFor(t.facts, u).value).None?
    ensures Fresh(s, u)
  {
    assert t.replay == s.replay + t.replay[|s.replay|..];
    if ReplayFor(t.facts, u).Some? && KnownReplay(s.replay, ReplayFor(t.facts, u).value).Some? {
      KnownStays(s.replay, t.replay[|s.replay|..], ReplayFor(t.facts, u).value);
    }
  }

  /** A plain observation with no outcome plans its aggregate alone. */
  lemma PlainEvidence(t: State, u: Update, record: Option<ReplayRecord>)
    requires CaptureOnly(u) && Coherent(t) && AggregateFacts(t.facts, u) == Ok(Captured(t.facts, u))
    ensures PlanNewEvidence(t.facts, u, record, t.operations)
         == Ok(ObservationPlan(Captured(t.facts, u), record, true, []))
  {
    hide AggregateFacts, AnyActiveRefund;
    ReplacedNothing(t.operations);
    assert t.facts.status.RefundStarted? ==> Captured(t.facts, u).status.RefundStarted?;
  }

  lemma LoggedStays(s: State, us: seq<Update>, u: Update, t: State)
    requires Observed(s, us, t)
    ensures LogExplained(s, us + [u], t.replay[|s.replay|..])
  {
    hide Fixed, Possible;
    forall r | r in t.replay[|s.replay|..]
      ensures exists v :: v in us + [u] && Possible(s, v) && ReplayFor(s.facts, v) == Some(r)
    {
      var v :| v in us && Possible(s, v) && ReplayFor(s.facts, v) == Some(r);
      assert v in us + [u];
    }
  }

  lemma LoggedGrows(s: State, us: seq<Update>, u: Update, t: State, record: Option<ReplayRecord>)
    requires s.replay <= t.replay && LogExplained(s, us + [u], t.replay[|s.replay|..]) && LogComplete(s, us, t.replay)
    requires Possible(s, u) && record == ReplayFor(s.facts, u)
    requires record.Some? ==> KnownReplay(t.replay, record.value).None?
    ensures var log := if record.Some? then t.replay + [record.value] else t.replay;
      && s.replay <= log && LogExplained(s, us + [u], log[|s.replay|..]) && LogComplete(s, us + [u], log)
  {
    hide Possible, KnownReplay, ContentOf;
    if record.Some? {
      var log := t.replay + [record.value];
      assert log[|s.replay|..] == t.replay[|s.replay|..] + [record.value];
      assert u in us + [u];
      KnownWhenAppended(t.replay, record.value);
      forall v | v in us && Possible(s, v) && EventIdentity(v).Some?
        ensures KnownReplay(log, ReplayFor(s.facts, v).value).Some?
      {
        KnownStays(t.replay, [record.value], ReplayFor(s.facts, v).value);
      }
    }
  }

  // ---- any order ----

  lemma PrefixClaims(s: State, us: seq<Update>, n: nat)
    requires Claims(s, us) && n <= |us|
    ensures Claims(s, us[..n])
  {
    hide Sound, Coherent, CaptureOnly;
    assert forall u :: u in us[..n] ==> u in us;
  }

  /** After any capture claims, in the order given, the facts are exactly those the claims fix. */
  lemma {:induction false} CapturesFix(s: State, us: seq<Update>)
    requires Claims(s, us)
    ensures var t := Run(s, Observations(us));
      Observed(s, us, t) && Sound(t) && Coherent(t)
  {
    if us == [] {
      assert Observations(us) == [];
      assert s.replay[|s.replay|..] == [];
    } else {
      hide Sound, Coherent, Observed, CaptureOnly, Step;
      var n := |us| - 1;
      var rest := us[..n];
      var t := Run(s, Observations(rest));
      var c := Observe(Some(us[n]));
      PrefixClaims(s, us, n);
      CapturesFix(s, rest);
      assert rest + [us[n]] == us;
      assert Observations(us)[..n] == Observations(rest);
      assert Observations(us)[n] == c;
      ObserveOne(s, rest, us[n], t);
      AfterDevelops(t, c);
      if Step(t, c).Ok? {
        StepCoherent(t, c);
      }
    }
  }

  lemma StepOfObserve(s: State, u: Update)
    ensures Step(s, Observe(Some(u))) == StepObserve(s, Some(u))
  {
    hide StepObserve;
  }

  /** Every possible claim is covered in any order: by the recorded total, or by an event that every possible claim
      under its identity reports at least as high. */
  ghost predicate Settled(s: State, us: seq<Update>) {
    forall u :: u in us && Possible(s, u) ==>
      Paid(u) <= s.facts.capturedFunds || exists v :: Anchors(s, us, v, Paid(u))
  }

  ghost predicate Anchors(s: State, us: seq<Update>, v: Update, amount: Money) {
    && v in us
    && Possible(s, v)
    && forall w :: w in us && Possible(s, w) && (w == v || SameEvent(v, w)) ==> amount <= Paid(w)
  }

  /** The facts two orders are compared on. */
  ghost predicate SameResult(t: PaymentFacts, w: PaymentFacts) {
    && SameMoney(t, w)
    && t.status == w.status
    && t.reconciliationRequired == w.reconciliationRequired
  }

  function Result(s: State, us: seq<Update>): PaymentFacts {
    Run(s, Observations(us)).facts
  }

  /** The first possible claim under the identity of the one at `m`. */
  lemma {:induction false} FirstUnder(s: State, us: seq<Update>, m: nat) returns (k: nat)
    requires m < |us| && Possible(s, us[m])
    ensures First(s, us, k) && (us[k] == us[m] || SameEvent(us[m], us[k]))
  {
    hide Possible;
    if j: nat :| j < m && Possible(s, us[j]) && SameEvent(us[j], us[m]) {
      k := FirstUnder(s, us, j);
    } else {
      k := m;
    }
  }

  lemma SettledIsGreatest(s: State, us: seq<Update>, total: Money)
    requires Settled(s, us) && GreatestFirst(s, us, total)
    ensures Greatest(s, us, total)
  {
    hide Possible, SameEvent;
    forall u | u in us && Possible(s, u)
      ensures Paid(u) <= total
    {
      if Paid(u) > s.facts.capturedFunds {
        var v :| Anchors(s, us, v, Paid(u));
        var m :| 0 <= m < |us| && us[m] == v;
        var k := FirstUnder(s, us, m);
      }
    }
    if total != s.facts.capturedFunds {
      var k :| First(s, us, k) && Paid(us[k]) == total;
      assert us[k] in us;
    }
  }

  lemma SameSettled(s: State, us: seq<Update>, vs: seq<Update>)
    requires Settled(s, us) && forall u :: u in us <==> u in vs
    ensures Settled(s, vs)
  {
    hide Possible, SameEvent;
    forall u | u in vs && Possible(s, u) && Paid(u) > s.facts.capturedFunds
      ensures exists v :: Anchors(s, vs, v, Paid(u))
    {
      var v :| Anchors(s, us, v, Paid(u));
      assert Anchors(s, vs, v, Paid(u));
    }
  }

  /** Any reordering and any repetition of settled claims, possible or not, ends with the same captured total,
      authorization, status and reconciliation requirement. */
  lemma SettledOrderIsIrrelevant(s: State, us: seq<Update>, vs: seq<Update>)
    requires Claims(s, us) && Settled(s, us) && SameElements(us, vs)
    ensures SameResult(Result(s, us), Result(s, vs))
  {
    hide Sound, Coherent, Run, Fresh, CaptureOnly, ProjectStatus, Settled, GreatestFirst, Greatest;
    CapturesFix(s, us);
    CapturesFix(s, vs);
    var t, w := Result(s, us), Result(s, vs);
    SameSettled(s, us, vs);
    SettledIsGreatest(s, us, t.capturedFunds);
    SettledIsGreatest(s, vs, w.capturedFunds);
    SameGreatest(s, us, vs, t.capturedFunds, w.capturedFunds);
    SameClaims(s, us, vs);
    ProjectionIgnores(ViewOf(t).(status := s.facts.status), ViewOf(w).(status := s.facts.status), s.facts.status.RefundStarted?);
  }

  // ---- when order matters ----

  predicate Lower(s: State, u: Update, amount: Money) {
    Possible(s, u) && Paid(u) < amount
  }

  /** The claims below `amount`, or the others, in their order. */
  function Part(s: State, us: seq<Update>, amount: Money, lower: bool): seq<Update> {
    if us == [] then []
    else (if Lower(s, us[0], amount) == lower then [us[0]] else []) + Part(s, us[1..], amount, lower)
  }

  lemma {:induction false} PartsAreAll(s: State, us: seq<Update>, amount: Money)
    ensures multiset(Part(s, us, amount, true)) + multiset(Part(s, us, amount, false)) == multiset(us)
  {
    hide Lower;
    if us != [] {
      PartsAreAll(s, us[1..], amount);
      assert us == [us[0]] + us[1..];
      var lower := Lower(s, us[0], amount);
      assert Part(s, us, amount, lower) == [us[0]] + Part(s, us[1..], amount, lower);
      assert Part(s, us, amount, !lower) == Part(s, us[1..], amount, !lower);
    }
  }

  lemma {:induction false} PartHolds(s: State, us: seq<Update>, amount: Money, lower: bool, u: Update)
    ensures u in Part(s, us, amount, lower) <==> u in us && Lower(s, u, amount) == lower
  {
    hide Lower;
    if us != [] {
      PartHolds(s, us[1..], amount, lower, u);
      assert us == [us[0]] + us[1..];
    }
  }

  /** With a claim that nothing covers first, the total reaches it. */
  lemma HighFirst(s: State, us: seq<Update>, u: Update, total: Money)
    requires Possible(s, u) && GreatestFirst(s, [u] + us, total)
    ensures Paid(u) <= total
  {
    assert First(s, [u] + us, 0);
  }

  lemma IndexInFront(front: seq<Update>, rest: seq<Update>, u: Update) returns (j: nat)
    requires u in front
    ensures j < |front| && (front + rest)[j] == u
  {
    j :| j < |front| && front[j] == u;
  }

  /** With every lower claim before it, the total stays below: each higher claim reuses an identity. */
  lemma LowFirst(s: State, us: seq<Update>, amount: Money, total: Money)
    requires s.facts.capturedFunds < amount && forall v :: !Anchors(s, us, v, amount)
    requires GreatestFirst(s, Part(s, us, amount, true) + Part(s, us, amount, false), total)
    ensures total < amount
  {
    hide Possible;
    var low := Part(s, us, amount, true);
    var order := low + Part(s, us, amount, false);
    if total != s.facts.capturedFunds && total >= amount {
      var k :| First(s, order, k) && Paid(order[k]) == total;
      var v := order[k];
      assert v in order;
      PartHolds(s, us, amount, true, v);
      PartHolds(s, us, amount, false, v);
      assert !Anchors(s, us, v, amount);
      var w :| w in us && Possible(s, w) && (w == v || SameEvent(v, w)) && Paid(w) < amount;
      PartHolds(s, us, amount, true, w);
      var j := IndexInFront(low, Part(s, us, amount, false), w);
    }
  }

  lemma Others(us: seq<Update>, u: Update) returns (rest: seq<Update>)
    requires u in us
    ensures multiset([u] + rest) == multiset(us)
  {
    var k :| 0 <= k < |us| && us[k] == u;
    rest := us[..k] + us[k + 1..];
    assert us == us[..k] + [u] + us[k + 1..];
  }

  /** Claims that are not settled can be put in two orders that end with different captured totals. */
  lemma OrderMatters(s: State, us: seq<Update>) returns (high: seq<Update>, low: seq<Update>)
    requires Claims(s, us) && !Settled(s, us)
    ensures multiset(high) == multiset(us) == multiset(low)
    ensures Result(s, low).capturedFunds < Result(s, high).capturedFunds
  {
    hide Sound, Coherent, Run, Fresh, CaptureOnly, ProjectStatus, GreatestFirst, Anchors, Possible;
    var u :| u in us && Possible(s, u)
      && !(Paid(u) <= s.facts.capturedFunds || exists v :: Anchors(s, us, v, Paid(u)));
    var amount := Paid(u);
    var rest := Others(us, u);
    high := [u] + rest;
    low := Part(s, us, amount, true) + Part(s, us, amount, false);
    PartsAreAll(s, us, amount);
    ReorderedClaims(s, us, high);
    ReorderedClaims(s, us, low);
    CapturesFix(s, high);
    CapturesFix(s, low);
    HighFirst(s, rest, u, Result(s, high).capturedFunds);
    LowFirst(s, us, amount, Result(s, low).capturedFunds);
  }

  lemma ReorderedClaims(s: State, us: seq<Update>, vs: seq<Update>)
    requires multiset(us) == multiset(vs)
    ensures forall u :: u in us <==> u in vs
    ensures Claims(s, us) ==> Claims(s, vs)
  {
    hide Sound, Coherent, CaptureOnly;
    assert forall u :: u in us <==> u in multiset(us);
    assert forall u :: u in vs <==> u in multiset(vs);
  }

  ghost predicate SameElements(us: seq<Update>, vs: seq<Update>) {
    forall u :: u in us <==> u in vs
  }

  /** The order of capture claims is irrelevant exactly when the claims are settled, whether orders are permutations
      or may also repeat claims. */
  lemma CaptureOrderIsIrrelevant(s: State, us: seq<Update>)
    requires Claims(s, us)
    ensures Settled(s, us) <==>
      forall vs :: multiset(vs) == multiset(us) ==> SameResult(Result(s, us), Result(s, vs))
    ensures Settled(s, us) <==>
      forall vs :: SameElements(us, vs) ==> SameResult(Result(s, us), Result(s, vs))
  {
    hide Claims, Settled, Result;
    if Settled(s, us) {
      forall vs | SameElements(us, vs)
        ensures SameResult(Result(s, us), Result(s, vs))
      {
        SettledOrderIsIrrelevant(s, us, vs);
      }
      forall vs | multiset(vs) == multiset(us)
        ensures SameElements(us, vs)
      {
        ReorderedClaims(s, us, vs);
      }
    } else {
      var high, low := OrderMatters(s, us);
      ReorderedClaims(s, us, high);
      ReorderedClaims(s, us, low);
      assert SameElements(us, high) && SameElements(us, low);
      assert !(SameResult(Result(s, us), Result(s, high)) && SameResult(Result(s, us), Result(s, low)));
    }
  }

  /** Claims that use each event identity for one content only are settled, whatever totals they state. */
  lemma UnreusedIdentitiesSettle(s: State, us: seq<Update>)
    requires forall u, v :: u in us && v in us ==> !Clash(s, u, v)
    ensures Settled(s, us)
  {
    hide Possible, ContentOf;
    forall u | u in us && Possible(s, u)
      ensures Anchors(s, us, u, Paid(u))
    {
      forall w | w in us && Possible(s, w) && SameEvent(u, w)
        ensures Paid(w) == Paid(u)
      {
        assert !Clash(s, u, w);
        SameContentClaims(u, w);
      }
    }
  }

  /** A prepared payment of ten. */
  function PreparedPayment(): State {
    State(PaymentFacts("payment", 10.0, "backend", 0.0, 0.0, 0.0, Prepared, None, FraudUnknown, "", false, map[], []), [], [])
  }

  function CaptureEvent(identity: string, paid: Money): Update {
    CaptureClaim(paid).(providerEventId := Some(identity))
  }

  /** One event identity delivered with two totals: whichever came first stays. */
  lemma ReusedIdentityKeepsTheFirst(first: Money, second: Money)
    requires 0.0 < first <= 10.0 && 0.0 < second <= 10.0 && first != second
    ensures var s := PreparedPayment();
      var us := [CaptureEvent("event", first), CaptureEvent("event", second)];
      Initial(s) && Coherent(s) && Claims(s, us) && Result(s, us).capturedFunds == first
  {
    hide Sound, Run, Fixed, ProjectStatus;
    var s := PreparedPayment();
    var us := [CaptureEvent("event", first), CaptureEvent("event", second)];
    InitialSound(s);
    CapturesFix(s, us);
    assert Fixed(s, us, Result(s, us));
    FixedTotal(s, us, Result(s, us));
    assert First(s, us, 0);
    assert SameEvent(us[0], us[1]) && !First(s, us, 1);
  }

  /** The order of two deliveries matters when a provider reuses an event identity for another total. */
  lemma ReusedIdentityOrderMatters()
    ensures var s := PreparedPayment();
      var five, seven := CaptureEvent("event", 5.0), CaptureEvent("event", 7.0);
      && Initial(s) && Coherent(s) && Claims(s, [five, seven])
      && Result(s, [five, seven]).capturedFunds == 5.0
      && Result(s, [seven, five]).capturedFunds == 7.0
  {
    hide Claims, Coherent, Result;
    ReusedIdentityKeepsTheFirst(5.0, 7.0);
    ReusedIdentityKeepsTheFirst(7.0, 5.0);
  }

  lemma FixedTotal(s: State, us: seq<Update>, g: PaymentFacts)
    requires Fixed(s, us, g)
    ensures GreatestFirst(s, us, g.capturedFunds)
  {
    hide GreatestFirst, ProjectStatus;
  }

  lemma SameGreatest(s: State, us: seq<Update>, vs: seq<Update>, a: Money, b: Money)
    requires forall u :: u in us <==> u in vs
    requires Greatest(s, us, a) && Greatest(s, vs, b)
    ensures a == b
  {
    hide Possible;
  }

  lemma SameClaims(s: State, us: seq<Update>, vs: seq<Update>)
    requires forall u :: u in us <==> u in vs
    ensures AnyPossible(s, us) <==> AnyPossible(s, vs)
    ensures AnyDisputed(s, us) <==> AnyDisputed(s, vs)
  {
    hide Possible, Disputed, Clash;
  }

  lemma ProjectionIgnores(v: View, w: View, inProgress: bool)
    requires v.amountRequired == w.amountRequired && v.amountPaid == w.amountPaid && v.amountRefunded == w.amountRefunded
    requires v.amountLocked == w.amountLocked && v.status == w.status
    ensures ProjectStatus(v, inProgress, false) == ProjectStatus(w, inProgress, false)
  {
  }
}
