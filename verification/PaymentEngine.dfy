/** The state engine as it runs: a mutable payment, nested metadata that is mutated in place, rollback
    by deep copy, and a set that caches the list of applied event identities. The methods are proved
    against the functions of module `StateEngine`. */
module PaymentEngine {
  import opened Wrappers
  import opened Records
  import opened StateEngine
  import opened Rules

  function Elements(ids: seq<string>): set<string> {
    set id | id in ids
  }

  /** A list object; its identity matters to the cache. */
  class IdList {
    var ids: seq<string>

    constructor (ids: seq<string>)
      ensures this.ids == ids
    {
      this.ids := ids;
    }
  }

  /** The metadata dictionary; `applied` is its `applied_event_ids` entry, if it has one. */
  class ProviderData {
    var entries: Metadata
    var applied: IdList?

    constructor (entries: Metadata, applied: IdList?)
      ensures this.entries == entries && this.applied == applied
    {
      this.entries := entries;
      this.applied := applied;
    }
  }

  /** A list object paired with a set view of it. */
  class EventCache {
    const list: IdList
    var members: set<string>

    constructor (list: IdList, members: set<string>)
      ensures this.list == list && this.members == members
    {
      this.list := list;
      this.members := members;
    }
  }

  // ---- when a cached set answers as the list would ----

  /** The set a duplicate check consults, given the cached set of this very list, if any. */
  function Consulted(cached: Option<set<string>>, ids: seq<string>): set<string> {
    if cached.Some? && |cached.value| == |ids| then cached.value else Elements(ids)
  }

  /** After the list was edited in place behind the engine's back, every duplicate check is answered
      as the list would exactly when the edit changed the length away from the number of identities
      known before, or kept the same identities. */
  lemma EditIsSeen(before: seq<string>, after: seq<string>)
    ensures (forall id :: id in Consulted(Some(Elements(before)), after) <==> id in after)
       <==> |Elements(before)| != |after| || Elements(before) == Elements(after)
  {
  }

  /** The comment that external mutation rebuilds the cache overstates it: replacing one identity
      by another in place keeps the length, and is not seen. */
  lemma ReplacedInPlaceIsMissed()
    ensures var consulted := Consulted(Some(Elements(["a"])), ["b"]);
      "a" in consulted && "b" !in consulted
  {
    assert "a" in ["a"];
    assert Elements(["a"]) == {"a"};
  }

  predicate KnownEvent(u: Update, ids: seq<string>) {
    EventIdentity(u).Some? && EventIdentity(u).value in ids
  }

  function WithEvent(ids: seq<string>, u: Update): seq<string> {
    if EventIdentity(u).Some? then ids + [EventIdentity(u).value] else ids
  }

  class Payment {
    var amountRequired: Money
    var amountPaid: Money
    var amountRefunded: Money
    var amountLocked: Money
    var status: PaymentStatus
    var externalId: Option<string>
    var fraudStatus: FraudStatus
    var fraudMessage: string
    var providerData: ProviderData?
    var cache: EventCache?

    function Entries(): Metadata
      reads this, providerData
    {
      if providerData == null then map[] else providerData.entries
    }

    function AppliedList(): IdList?
      reads this, providerData
    {
      if providerData == null then null else providerData.applied
    }

    function AppliedIds(): seq<string>
      reads this, providerData, AppliedList()
    {
      if AppliedList() == null then [] else AppliedList().ids
    }

    function Current(): View
      reads this, providerData
    {
      View(amountRequired, amountPaid, amountRefunded, amountLocked, status, externalId, fraudStatus, fraudMessage, Entries())
    }

    /** Whenever the cache would be trusted, it holds exactly the identities of its list. */
    ghost predicate Valid()
      reads this, cache, if cache == null then null else cache.list
    {
      cache != null && |cache.members| == |cache.list.ids| ==> cache.members == Elements(cache.list.ids)
    }

    constructor (v: View)
      ensures Current() == v && AppliedIds() == [] && Valid()
      ensures fresh(providerData) && cache == null && AppliedList() == null
    {
      amountRequired, amountPaid, amountRefunded, amountLocked := v.amountRequired, v.amountPaid, v.amountRefunded, v.amountLocked;
      status, externalId, fraudStatus, fraudMessage := v.status, v.externalId, v.fraudStatus, v.fraudMessage;
      var data := new ProviderData(v.providerData, null);
      providerData := data;
      cache := null;
    }

    method EnsureProviderData() returns (data: ProviderData)
      requires Valid()
      modifies this`providerData
      ensures data == providerData && Valid()
      ensures providerData == (if old(providerData) == null then providerData else old(providerData))
      ensures old(providerData) == null ==> fresh(providerData)
      ensures Current() == old(Current()) && AppliedList() == old(AppliedList())
    {
      if providerData == null {
        providerData := new ProviderData(map[], null);
      }
      data := providerData;
    }

    /** The stored list and a set view of it, rebuilt when it is not the cached list or has another
        length. */
    method AppliedEventIds() returns (applied: IdList, view: EventCache)
      requires Valid()
      modifies this`providerData, this`cache, providerData
      ensures applied == AppliedList() && view == cache && cache.list == applied
      ensures cache.members == Elements(applied.ids)
      ensures old(AppliedList()) != null ==> applied == old(AppliedList())
      ensures old(AppliedList()) == null ==> fresh(applied)
      ensures old(providerData) == null ==> fresh(providerData)
      ensures old(providerData) != null ==> providerData == old(providerData)
      ensures cache == old(cache) || fresh(cache)
      ensures Current() == old(Current()) && AppliedIds() == old(AppliedIds())
    {
      var data := EnsureProviderData();
      if data.applied == null {
        data.applied := new IdList([]);
      }
      applied := data.applied;
      if cache == null || cache.list != applied || |cache.members| != |applied.ids| {
        cache := new EventCache(applied, Elements(applied.ids));
      }
      view := cache;
    }

    /** Record an identity; a known one is reported and nothing changes. */
    method RecordProviderEvent(id: Option<string>) returns (isNew: bool)
      requires Valid()
      modifies this`providerData, this`cache, providerData, AppliedList(), cache
      ensures Valid()
      ensures isNew == (id.None? || id == Some("") || id.value !in old(AppliedIds()))
      ensures AppliedIds() == if isNew && id.Some? && id != Some("") then old(AppliedIds()) + [id.value] else old(AppliedIds())
      ensures Current() == old(Current())
      ensures providerData == old(providerData) || fresh(providerData)
      ensures AppliedList() == old(AppliedList()) || fresh(AppliedList())
      ensures cache == old(cache) || fresh(cache)
    {
      if id.None? || id == Some("") {
        return true;
      }
      var applied, view := AppliedEventIds();
      if id.value in view.members {
        return false;
      }
      applied.ids := applied.ids + [id.value];
      view.members := view.members + {id.value};
      assert Elements(applied.ids) == view.members;
      return true;
    }

    // ---- what the owner of the payment may do ----

    /** Replacing the whole metadata, or the list in it, never leaves a cache that would answer
        wrongly. */
    method ReplaceProviderData(data: ProviderData?)
      requires Valid()
      modifies this`providerData
      ensures Valid() && providerData == data
    {
      providerData := data;
    }

    method ReplaceList(list: IdList?)
      requires Valid() && providerData != null
      modifies providerData`applied
      ensures Valid() && AppliedList() == list
    {
      providerData.applied := list;
    }

    /** Editing the cached list itself leaves the cache usable exactly when the edit shows in the
        length or keeps the identities. */
    method EditList(after: seq<string>)
      requires cache != null && cache.list == AppliedList() && cache.members == Elements(cache.list.ids)
      modifies AppliedList()
      ensures Valid() <==> |Elements(old(AppliedIds()))| != |after| || Elements(old(AppliedIds())) == Elements(after)
      ensures AppliedIds() == after
    {
      providerData.applied.ids := after;
    }

    // ---- events ----

    method SetPaidAmount(paid: Money)
      modifies this`amountPaid, this`amountLocked
      ensures Current() == WithPaid(old(Current()), paid)
    {
      var previous := amountPaid;
      var next := Max(previous, paid);
      var increment := next - previous;
      amountPaid := next;
      if increment > 0.0 && amountLocked != 0.0 {
        amountLocked := Max(0.0, amountLocked - increment);
      }
    }

    /** One payment event; a refused transition changes nothing. */
    method ApplyPaymentEvent(u: Update) returns (r: Result<(), Error>)
      modifies this`amountPaid, this`amountRefunded, this`amountLocked, this`status
      ensures var expected := ApplyEvent(old(Current()), u);
        && r.Ok? == expected.Ok?
        && (r.Err? ==> r.error == expected.error)
        && Current() == if expected.Ok? then expected.value else old(Current())
    {
      if u.paymentEvent.None? {
        return Ok(());
      }
      hide ProjectStatus, WithPaid, Refundable, CaptureRecordable, UnresolvedRefund;
      match u.paymentEvent.value {
      case PreparedEvent =>
        if !status.New? { return Err(InvalidTransition); }
        status := Prepared;
      case LockedEvent =>
        if status !in {New, Prepared, PreAuth} || u.lockedAmount.None? { return Err(InvalidTransition); }
        amountLocked := Max(amountLocked, u.lockedAmount.value);
        status := PreAuth;
      case ChargeRequested =>
        if !CaptureRecordable(Current()) { return Err(InvalidTransition); }
        if amountPaid > 0.0 { return Ok(()); }
        if !(amountLocked > 0.0 || status.InCharge?) { return Err(InvalidTransition); }
        status := InCharge;
      case PaymentCaptured =>
        var refundInProgress := UnresolvedRefund(Current());
        if u.paidAmount.None? { return Err(InvalidTransition); }
        SetPaidAmount(u.paidAmount.value);
        status := ProjectStatus(Current(), refundInProgress, false);
      case FailedEvent =>
        if status.Failed? { return Ok(()); }
        if amountPaid > 0.0 || amountRefunded > 0.0 || status !in {New, Prepared, PreAuth, InCharge} {
          return Err(InvalidTransition);
        }
        status := Failed;
      case RefundRequested =>
        if !(Refundable(Current()) > 0.0) { return Err(InvalidTransition); }
        status := RefundStarted;
      case RefundConfirmed =>
        if amountPaid <= 0.0 || u.refundedAmount.None? { return Err(InvalidTransition); }
        amountRefunded := Max(amountRefunded, u.refundedAmount.value);
        status := ProjectStatus(Current(), false, false);
      case RefundCancelled =>
        if !(UnresolvedRefund(Current()) || Refundable(Current()) > 0.0) { return Err(InvalidTransition); }
        status := ProjectStatus(Current(), false, false);
      case LockReleased =>
        if !(amountLocked > 0.0) { return Err(InvalidTransition); }
        amountLocked := 0.0;
        status := ProjectStatus(Current(), UnresolvedRefund(Current()), true);
      }
      return Ok(());
    }

    method ApplyFraud(u: Update) returns (r: Result<(), Error>)
      modifies this`fraudStatus
      ensures var expected := ApplyFraudEvent(old(Current()), u);
        && r.Ok? == expected.Ok?
        && (r.Err? ==> r.error == expected.error)
        && Current() == if expected.Ok? then expected.value else old(Current())
    {
      match u.fraudEvent {
      case None => return Ok(());
      case Some(Review) =>
        if fraudStatus !in {FraudUnknown, FraudCheck} { return Err(InvalidTransition); }
        fraudStatus := FraudCheck;
      case Some(Accept) =>
        if fraudStatus !in {FraudUnknown, FraudCheck, FraudAccepted} { return Err(InvalidTransition); }
        fraudStatus := FraudAccepted;
      case Some(Reject) =>
        if fraudStatus !in {FraudUnknown, FraudCheck, FraudRejected} { return Err(InvalidTransition); }
        fraudStatus := FraudRejected;
      }
      return Ok(());
    }

    // ---- updates and rollback ----

    /** A deep copy of the metadata: new dictionary, new list, same contents. */
    method CopyProviderData() returns (copy: ProviderData?)
      ensures copy == null <==> providerData == null
      ensures copy != null ==>
        && fresh(copy)
        && copy.entries == providerData.entries
        && (copy.applied == null <==> providerData.applied == null)
        && (copy.applied != null ==> fresh(copy.applied) && copy.applied.ids == providerData.applied.ids)
    {
      if providerData == null {
        return null;
      }
      var list := null;
      if providerData.applied != null {
        list := new IdList(providerData.applied.ids);
      }
      copy := new ProviderData(providerData.entries, list);
    }

    method MergeProviderData(entries: Metadata, list: IdList?)
      requires Valid()
      modifies this`providerData, providerData
      ensures Valid()
      ensures Current() == old(Current()).(providerData := old(Entries()) + entries)
      ensures AppliedList() == if list == null then old(AppliedList()) else list
      ensures providerData == old(providerData) || fresh(providerData)
    {
      if entries == map[] && list == null {
        assert Entries() + map[] == Entries();
        return;
      }
      var data := EnsureProviderData();
      data.entries := data.entries + entries;
      if list != null {
        data.applied := list;
      }
    }

    method SetEnvelope(u: Update, list: IdList?)
      requires Valid()
      modifies this`externalId, this`fraudMessage, this`providerData, providerData
      ensures Valid()
      ensures Current() == WithEnvelope(old(Current()), u)
      ensures AppliedList() == if list == null then old(AppliedList()) else list
      ensures providerData == old(providerData) || fresh(providerData)
    {
      if u.externalId.Some? {
        externalId := u.externalId;
      }
      if u.fraudMessage.Some? {
        fraudMessage := u.fraudMessage.value;
      }
      MergeProviderData(u.providerData, list);
    }

    /** Validate and apply, in place, an update that is known to be new. */
    method ApplyNewUpdate(u: Update, list: IdList?) returns (r: Result<(), Error>)
      requires Valid()
      modifies this`amountPaid, this`amountRefunded, this`amountLocked, this`status, this`externalId, this`fraudStatus,
               this`fraudMessage, this`providerData, providerData
      ensures Valid()
      ensures var expected := ApplyUpdate(old(Current()), u);
        && r.Ok? == expected.Ok?
        && (r.Err? ==> r.error == expected.error)
        && (r.Ok? ==> Current() == expected.value && AppliedList() == if list == null then old(AppliedList()) else list)
      ensures providerData == old(providerData) || fresh(providerData)
    {
      hide ApplyEvent, ApplyFraudEvent, UpdateAmountsValid, WithEnvelope;
      if !UpdateAmountsValid(Current(), u) {
        return Err(InvalidTransition);
      }
      SetEnvelope(u, list);
      var event := ApplyPaymentEvent(u);
      if event.Err? {
        return event;
      }
      r := ApplyFraud(u);
    }

    /** Take every field back to a snapshot, with the metadata in the copy's new objects. */
    method Restore(snapshot: View, copy: ProviderData?)
      requires Valid() && amountRequired == snapshot.amountRequired
      requires snapshot.providerData == if copy == null then map[] else copy.entries
      modifies this`amountPaid, this`amountRefunded, this`amountLocked, this`status, this`externalId, this`fraudStatus,
               this`fraudMessage, this`providerData
      ensures Valid()
      ensures Current() == snapshot
      ensures if copy == null then fresh(providerData) && AppliedList() == null else providerData == copy
    {
      amountPaid, amountRefunded, amountLocked := snapshot.amountPaid, snapshot.amountRefunded, snapshot.amountLocked;
      status, externalId := snapshot.status, snapshot.externalId;
      fraudStatus, fraudMessage := snapshot.fraudStatus, snapshot.fraudMessage;
      if copy == null {
        providerData := new ProviderData(map[], null);
      } else {
        providerData := copy;
      }
    }

    /** Apply a new update, or take everything back. */
    method ApplyOrRestore(u: Update, list: IdList?, copy: ProviderData?) returns (r: Result<(), Error>)
      requires Valid() && Entries() == if copy == null then map[] else copy.entries
      requires copy != null ==> copy != providerData
      modifies this`amountPaid, this`amountRefunded, this`amountLocked, this`status, this`externalId, this`fraudStatus,
               this`fraudMessage, this`providerData, providerData
      ensures Valid()
      ensures var expected := ApplyUpdate(old(Current()), u);
        if expected.Err? then
          && r == Err(expected.error)
          && Current() == old(Current())
          && (if copy == null then fresh(providerData) && AppliedList() == null else providerData == copy)
        else
          && r.Ok?
          && Current() == expected.value
          && AppliedList() == (if list == null then old(AppliedList()) else list)
          && (providerData == old(providerData) || fresh(providerData))
    {
      hide ApplyUpdate, Valid, Elements;
      var snapshot := Current();
      r := ApplyNewUpdate(u, list);
      if r.Err? {
        Restore(snapshot, copy);
      }
    }

    /** One whole update. `list` is the list object that the update's metadata carries under
        `applied_event_ids`, if any. A known event identity changes nothing. A refused update restores
        every field and the contents of the nested metadata, in new objects. */
    method ApplyPaymentUpdate(u: Update, list: IdList?) returns (r: Result<(), Error>)
      requires Valid()
      modifies this, providerData, AppliedList(), cache
      ensures Valid()
      ensures KnownEvent(u, old(AppliedIds())) ==>
        r.Ok? && Current() == old(Current()) && AppliedIds() == old(AppliedIds())
      ensures !KnownEvent(u, old(AppliedIds())) ==>
        match ApplyUpdate(old(Current()), u)
        case Err(e) =>
          && r == Err(e)
          && Current() == old(Current())
          && AppliedIds() == old(AppliedIds())
          && fresh(providerData)
          && (AppliedList() != null ==> fresh(AppliedList()))
        case Ok(v) =>
          && r.Ok?
          && Current() == v
          && (if list == null
              then AppliedIds() == WithEvent(old(AppliedIds()), u)
              else AppliedList() == list)
      ensures providerData == old(providerData) || fresh(providerData)
      ensures cache == old(cache) || fresh(cache)
      ensures AppliedList() == old(AppliedList()) || AppliedList() == list || fresh(AppliedList())
    {
      hide ApplyUpdate, Valid, Elements;
      var copy := CopyProviderData();
      var isNew := RecordProviderEvent(u.providerEventId);
      if !isNew {
        return Ok(());
      }
      r := ApplyOrRestore(u, list, copy);
    }
  }

  // ---- facts through the engine ----

  method ApplyTo(view: Payment, u: Update) returns (r: Result<(), Error>)
    requires view.Valid() && EventIdentity(u).None?
    modifies view, view.providerData, view.AppliedList(), view.cache
    ensures view.Valid()
    ensures match ApplyUpdate(old(view.Current()), u)
            case Err(e) => r == Err(e)
            case Ok(v) => r.Ok? && view.Current() == v
    ensures view.providerData == old(view.providerData) || fresh(view.providerData)
    ensures view.cache == old(view.cache) || fresh(view.cache)
    ensures view.AppliedList() == old(view.AppliedList()) || view.AppliedList() == null || fresh(view.AppliedList())
  {
    hide ApplyUpdate;
    r := view.ApplyPaymentUpdate(u, null);
  }

  method RunCaptureTotal(view: Payment, update: Update) returns (r: Result<(), Error>)
    requires view.Valid()
    modifies view, view.providerData, view.AppliedList(), view.cache
    ensures view.Valid()
    ensures view.providerData == old(view.providerData) || fresh(view.providerData)
    ensures view.cache == old(view.cache) || fresh(view.cache)
    ensures view.AppliedList() == old(view.AppliedList()) || view.AppliedList() == null || fresh(view.AppliedList())
    ensures match ApplyCaptureTotal(old(view.Current()), update)
            case Err(e) => r == Err(e)
            case Ok(v) => r.Ok? && view.Current() == v
  {
    hide ApplyUpdate;
    if update.paidAmount.None? {
      return Ok(());
    }
    r := ApplyTo(view, CaptureClaim(update.paidAmount.value));
  }

  method RunRefundTotal(view: Payment, update: Update) returns (r: Result<(), Error>)
    requires view.Valid()
    modifies view, view.providerData, view.AppliedList(), view.cache
    ensures view.Valid()
    ensures view.providerData == old(view.providerData) || fresh(view.providerData)
    ensures view.cache == old(view.cache) || fresh(view.cache)
    ensures view.AppliedList() == old(view.AppliedList()) || view.AppliedList() == null || fresh(view.AppliedList())
    ensures match ApplyRefundTotal(old(view.Current()), update)
            case Err(e) => r == Err(e)
            case Ok(v) => r.Ok? && view.Current() == v
  {
    hide ApplyUpdate;
    if update.refundedAmount.None?
       || (update.refundedAmount.value <= view.amountRefunded && update.paymentEvent != Some(RefundConfirmed))
    {
      return Ok(());
    }
    r := ApplyTo(view, RefundClaim(update.refundedAmount.value));
  }

  /** The money totals first, then what remains of the update. */
  method RunEngine(view: Payment, update: Update) returns (r: Result<(), Error>)
    requires view.Valid()
    modifies view, view.providerData, view.AppliedList(), view.cache
    ensures match ApplyToView(old(view.Current()), update)
            case Err(e) => r == Err(e)
            case Ok(v) => r.Ok? && view.Current() == v
  {
    hide ApplyUpdate, ApplyCaptureTotal, ApplyRefundTotal, RemainingEvent;
    r := RunCaptureTotal(view, update);
    if r.Err? {
      return;
    }
    r := RunRefundTotal(view, update);
    if r.Err? {
      return;
    }
    r := ApplyTo(view, update.(providerEventId := None, paymentEvent := RemainingEvent(view.Current(), update),
                               paidAmount := None, refundedAmount := None));
  }

  /** Facts through the mutable engine: a fresh `Payment` takes the fields of the facts, receives the
      update in place, and gives its fields to the new facts. */
  method RunEngineOverFacts(facts: PaymentFacts, claimed: Update) returns (r: Result<PaymentFacts, Error>)
    ensures r == ApplyToFacts(facts, claimed)
  {
    hide ApplyToView, WithoutStaleHold;
    var view := new Payment(ViewOf(facts));
    var update := WithoutStaleHold(facts, claimed);
    var applied := RunEngine(view, update);
    if applied.Err? {
      return Err(applied.error);
    }
    var result := FactsOf(view.Current(), facts);
    if facts.status.RefundStarted? && update.paymentEvent !in {Some(RefundConfirmed), Some(RefundCancelled)} {
      result := result.(status := RefundStarted);
    }
    if result.capturedFunds > facts.capturedFunds && (facts.refundedFunds > 0.0 || facts.status.RefundStarted?) {
      result := result.(reconciliationRequired := true);
    }
    return Ok(result);
  }
}
