/**
 * The Stripe webhook endpoint: signature check, dispatch on the event type, and the three
 * handlers that reconcile a Profile row with a checkout, a failed invoice payment or a
 * deleted subscription.
 */
module Webhook {
  import opened Wrappers
  import opened JsText
  import opened Http
  import opened Profiles

  /**
   * `event.data.object`. The route reads it through unchecked casts, so one record carries the
   * fields any handler reads: `metadata` and `subscription` (a checkout session or an invoice)
   * and `id` (a subscription).
   */
  datatype EventObject = EventObject(
    metadata: Option<map<string, string>>,
    subscription: Option<string>,
    id: string)

  /** A Stripe event whose signature has been checked. */
  datatype Event = Event(kind: string, payload: EventObject)

  /** Whether each Prisma call a handler makes throws. */
  datatype StoreFaults = StoreFaults(lookupFails: bool, updateFails: bool)

  const NoFaults := StoreFaults(false, false)

  const CheckoutSessionCompleted := "checkout.session.completed"
  const InvoicePaymentFailed := "invoice.payment_failed"
  const CustomerSubscriptionDeleted := "customer.subscription.deleted"

  /** `stripe.webhooks.constructEvent(body, signature, secret)`: the event, or the message it throws. */
  type ConstructEvent = (string, string, string) -> Result<Event, string>

  /** `metadata?.[key]` */
  function MetadataValue(metadata: Option<map<string, string>>, key: string): (r: Option<string>)
    ensures r.Some? <==> metadata.Some? && key in metadata.value
  {
    match metadata
    case None => None
    case Some(m) => if key in m then Some(m[key]) else None
  }

  /** `session.metadata?.clerkUserId` */
  function ClerkUserId(session: EventObject): Option<string> {
    MetadataValue(session.metadata, "clerkUserId")
  }

  /** `session.metadata?.planType || null` */
  function PlanType(session: EventObject): Option<string> {
    var plan := MetadataValue(session.metadata, "planType");
    if IsTruthy(plan) then plan else None
  }

  /** The fields the checkout handler writes. */
  function CheckoutData(session: EventObject): ProfileData {
    ProfileData(Some(true), Some(PlanType(session)), Some(session.subscription))
  }

  /** The field the payment-failure handler writes. */
  const PaymentFailedData := ProfileData(Some(false), None, None)

  /** The fields the deletion handler writes. */
  const SubscriptionDeletedData := ProfileData(Some(false), Some(None), Some(None))

  // ---------------------------------------------------------------------------------------
  // What each handler does to the table
  // ---------------------------------------------------------------------------------------

  /** The checkout handler writes a row: the session names a user who has a row, and the write succeeds. */
  predicate Activates(t: Table, session: EventObject, faults: StoreFaults) {
    IsTruthy(ClerkUserId(session)) && !faults.updateFails && ClerkUserId(session).value in t
  }

  /**
   * The table after `handleCheckoutSessionCompleted(session)`. The named user's row becomes
   * active with the session's subscription id (possibly null) and plan (null when absent or
   * empty); every other row, and that row's email, stay as they were. No user id, no row for
   * it, or a failed write: nothing changes.
   */
  function AfterCheckout(t: Table, session: EventObject, faults: StoreFaults): (r: Table)
    ensures r.Keys == t.Keys
    ensures forall k :: k in t && Some(k) != ClerkUserId(session) ==> r[k] == t[k]
    ensures !Activates(t, session, faults) ==> r == t
    ensures Activates(t, session, faults) ==>
      var uid := ClerkUserId(session).value;
      && r[uid].email == t[uid].email
      && r[uid].subscriptionActive
      && r[uid].subscriptionTier == PlanType(session)
      && r[uid].stripeSubscriptionId == session.subscription
  {
    if Activates(t, session, faults) then
      var uid := ClerkUserId(session).value;
      t[uid := ApplyData(t[uid], CheckoutData(session))]
    else
      t
  }

  /**
   * The payment-failure handler writes a row: the invoice names a subscription, the lookup
   * succeeds and returns a row with a non-empty user id, and the write succeeds.
   */
  predicate FailsPayment(t: Table, invoice: EventObject, faults: StoreFaults, found: Option<string>) {
    && IsTruthy(invoice.subscription) && !faults.lookupFails
    && found.Some? && found.value != "" && found.value in t && !faults.updateFails
  }

  /**
   * The table after `handleInvoicePaymentFailed(invoice)`, given the row `found` that
   * `findFirst` returned. Only that row's `subscriptionActive` becomes false; its tier and
   * subscription id, and every other row, are kept.
   */
  function AfterPaymentFailed(t: Table, invoice: EventObject, faults: StoreFaults, found: Option<string>): (r: Table)
    ensures r.Keys == t.Keys
    ensures forall k :: k in t && Some(k) != found ==> r[k] == t[k]
    ensures forall k :: k in t ==>
      && r[k].email == t[k].email
      && r[k].subscriptionTier == t[k].subscriptionTier
      && r[k].stripeSubscriptionId == t[k].stripeSubscriptionId
    ensures FailsPayment(t, invoice, faults, found) ==> !r[found.value].subscriptionActive
    ensures !FailsPayment(t, invoice, faults, found) ==> r == t
  {
    if FailsPayment(t, invoice, faults, found) then
      t[found.value := ApplyData(t[found.value], PaymentFailedData)]
    else
      t
  }

  /** The deletion handler writes a row: the lookup succeeds with a non-empty user id and the write succeeds. */
  predicate Cancels(t: Table, faults: StoreFaults, found: Option<string>) {
    !faults.lookupFails && found.Some? && found.value != "" && found.value in t && !faults.updateFails
  }

  /**
   * The table after `handleCustomerSubscriptionDeleted(subscription)`, given the row `found`
   * that `findFirst` returned: that row is left inactive with no tier and no subscription id;
   * its email and every other row are kept.
   */
  function AfterSubscriptionDeleted(t: Table, faults: StoreFaults, found: Option<string>): (r: Table)
    ensures r.Keys == t.Keys
    ensures forall k :: k in t && Some(k) != found ==> r[k] == t[k]
    ensures Cancels(t, faults, found) ==>
      r[found.value] == Profile(t[found.value].email, false, None, None)
    ensures !Cancels(t, faults, found) ==> r == t
  {
    if Cancels(t, faults, found) then
      t[found.value := ApplyData(t[found.value], SubscriptionDeletedData)]
    else
      t
  }

  /** The subscription id the handler for `e` looks a row up by, if it gets that far. */
  function LookupKey(e: Event): (sid: Option<string>)
    ensures sid.Some? ==> e.kind == InvoicePaymentFailed || e.kind == CustomerSubscriptionDeleted
  {
    if e.kind == InvoicePaymentFailed && IsTruthy(e.payload.subscription) then e.payload.subscription
    else if e.kind == CustomerSubscriptionDeleted then Some(e.payload.id)
    else None
  }

  /** The table after the route dispatched the verified event `e`. Other event types change nothing. */
  function Dispatch(t: Table, e: Event, faults: StoreFaults, found: Option<string>): (r: Table)
    ensures r.Keys == t.Keys
    ensures e.kind !in {CheckoutSessionCompleted, InvoicePaymentFailed, CustomerSubscriptionDeleted} ==> r == t
  {
    if e.kind == CheckoutSessionCompleted then AfterCheckout(t, e.payload, faults)
    else if e.kind == InvoicePaymentFailed then AfterPaymentFailed(t, e.payload, faults, found)
    else if e.kind == CustomerSubscriptionDeleted then AfterSubscriptionDeleted(t, faults, found)
    else t
  }

  // ---------------------------------------------------------------------------------------
  // The route and its handlers
  // ---------------------------------------------------------------------------------------

  /** `handleCheckoutSessionCompleted`: every store error is caught and logged. */
  method HandleCheckoutSessionCompleted(store: ProfileStore, session: EventObject, faults: StoreFaults)
    modifies store
    ensures store.profiles == AfterCheckout(old(store.profiles), session, faults)
  {
    var userId := ClerkUserId(session);
    if !IsTruthy(userId) {
      return;  // "No user ID"
    }
    var subscriptionId := session.subscription;
    // The second guard tests the user id again, not the subscription id.
    if !IsTruthy(userId) {
      return;  // "No sub ID"
    }
    var data := ProfileData(Some(true), Some(PlanType(session)), Some(subscriptionId));
    var _ := store.Update(userId.value, data, faults.updateFails);
  }

  /** `handleInvoicePaymentFailed`; `found` is the key `findFirst` returned. */
  method HandleInvoicePaymentFailed(store: ProfileStore, invoice: EventObject, faults: StoreFaults)
    returns (ghost found: Option<string>)
    modifies store
    ensures IsTruthy(invoice.subscription) && !faults.lookupFails ==>
      FindsFirst(old(store.profiles), invoice.subscription.value, found)
    ensures store.profiles == AfterPaymentFailed(old(store.profiles), invoice, faults, found)
  {
    found := None;
    var subscriptionId := invoice.subscription;
    if !IsTruthy(subscriptionId) {
      return;  // "Subscription ID not found in invoice."
    }
    var lookup := store.FindFirstBySubscription(subscriptionId.value, faults.lookupFails);
    if lookup.Err? {
      return;  // "Prisma Query Error"
    }
    var profile := lookup.value;
    found := profile;
    if profile.None? || profile.value == "" {
      return;  // "No profile found for this subscription ID."
    }
    var _ := store.Update(profile.value, PaymentFailedData, faults.updateFails);
  }

  /** `handleCustomerSubscriptionDeleted`; `found` is the key `findFirst` returned. */
  method HandleCustomerSubscriptionDeleted(store: ProfileStore, subscription: EventObject, faults: StoreFaults)
    returns (ghost found: Option<string>)
    modifies store
    ensures !faults.lookupFails ==> FindsFirst(old(store.profiles), subscription.id, found)
    ensures store.profiles == AfterSubscriptionDeleted(old(store.profiles), faults, found)
  {
    found := None;
    var lookup := store.FindFirstBySubscription(subscription.id, faults.lookupFails);
    if lookup.Err? {
      return;  // "Prisma Query Error"
    }
    var profile := lookup.value;
    found := profile;
    if profile.None? || profile.value == "" {
      return;  // "No profile found for this subscription ID."
    }
    var _ := store.Update(profile.value, SubscriptionDeletedData, faults.updateFails);
  }

  /** `constructEvent` throws whenever the signature header is empty. */
  ghost predicate RejectsUnsigned(constructEvent: ConstructEvent) {
    forall body, secret :: constructEvent(body, "", secret).Err?
  }

  /**
   * `POST /api/webhook`. A request whose signature does not verify gets 400 with the error's
   * message and reaches no handler; a verified one is dispatched and acknowledged with 200 `{}`,
   * whatever the handler met (no row, a store error), because the handlers catch everything.
   */
  method Post(store: ProfileStore, body: string, signature: Option<string>, secret: string,
              constructEvent: ConstructEvent, faults: StoreFaults)
    returns (response: Response, ghost found: Option<string>)
    modifies store
    ensures constructEvent(body, signature.GetOr(""), secret).Err? ==>
      && response == Response(400, ErrorBody(constructEvent(body, signature.GetOr(""), secret).error))
      && store.profiles == old(store.profiles)
    ensures signature.None? && RejectsUnsigned(constructEvent) ==>
      response.status == 400 && store.profiles == old(store.profiles)
    ensures constructEvent(body, signature.GetOr(""), secret).Ok? ==>
      var e := constructEvent(body, signature.GetOr(""), secret).value;
      && response == Response(200, Empty)
      && (LookupKey(e).Some? && !faults.lookupFails ==> FindsFirst(old(store.profiles), LookupKey(e).value, found))
      && store.profiles == Dispatch(old(store.profiles), e, faults, found)
  {
    found := None;
    var verified := constructEvent(body, signature.GetOr(""), secret);
    if verified.Err? {
      return Response(400, ErrorBody(verified.error)), found;
    }
    var event := verified.value;
    if event.kind == CheckoutSessionCompleted {
      HandleCheckoutSessionCompleted(store, event.payload, faults);
    } else if event.kind == InvoicePaymentFailed {
      found := HandleInvoicePaymentFailed(store, event.payload, faults);
    } else if event.kind == CustomerSubscriptionDeleted {
      found := HandleCustomerSubscriptionDeleted(store, event.payload, faults);
    }
    // Any other event type is only logged ("Unhandled event type").
    response := Response(200, Empty);
  }
}
