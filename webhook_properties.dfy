/**
 * Properties of the webhook reconciler over the Profile table: replays of an event, misses,
 * how the rows matched by a subscription id evolve, the "active rows have a plan" invariant, and a full
 * subscription lifecycle.
 */
module WebhookProperties {
  import opened Wrappers
  import opened Profiles
  import opened Webhook

  /** No two different keys in `ks`. */
  predicate AtMostOne(ks: set<string>) {
    forall a, b :: a in ks && b in ks ==> a == b
  }

  /**
   * Stripe delivers events at least once. Delivering a checkout event again leaves the table
   * as the first delivery left it when that one took effect, and otherwise acts as a first
   * delivery.
   */
  lemma CheckoutReplay(t: Table, session: EventObject, f1: StoreFaults, f2: StoreFaults)
    ensures AfterCheckout(AfterCheckout(t, session, f1), session, f2) ==
      if Activates(t, session, f1) then AfterCheckout(t, session, f1) else AfterCheckout(t, session, f2)
  {
  }

  /**
   * A failed payment keeps the row's subscription id, so every subscription id is matched by
   * the same rows afterwards; a later deletion event still finds the row.
   */
  lemma PaymentFailureKeepsMatches(
    t: Table, invoice: EventObject, faults: StoreFaults, found: Option<string>, sid: string)
    ensures Matching(AfterPaymentFailed(t, invoice, faults, found), sid) == Matching(t, sid)
  {
  }

  /**
   * Replaying a payment failure that took effect changes nothing more, when at most one row
   * carries the subscription id (with several, `findFirst` may pick another row next time).
   */
  lemma {:induction false} PaymentFailureReplay(
    t: Table, invoice: EventObject, f1: StoreFaults, found1: Option<string>,
    f2: StoreFaults, found2: Option<string>)
    requires FailsPayment(t, invoice, f1, found1)
    requires FindsFirst(t, invoice.subscription.value, found1)
    requires AtMostOne(Matching(t, invoice.subscription.value))
    requires FindsFirst(AfterPaymentFailed(t, invoice, f1, found1), invoice.subscription.value, found2)
    ensures AfterPaymentFailed(AfterPaymentFailed(t, invoice, f1, found1), invoice, f2, found2)
         == AfterPaymentFailed(t, invoice, f1, found1)
  {
    var sid := invoice.subscription.value;
    PaymentFailureKeepsMatches(t, invoice, f1, found1, sid);
    assert found2 == found1;
    ApplyDataIdempotent(t[found1.value], PaymentFailedData);
  }

  /** A deletion that took effect removes exactly the updated row from those matching the id. */
  lemma DeletionClearsMatch(t: Table, sid: string, faults: StoreFaults, found: Option<string>)
    requires FindsFirst(t, sid, found) && Cancels(t, faults, found)
    ensures Matching(AfterSubscriptionDeleted(t, faults, found), sid) == Matching(t, sid) - {found.value}
  {
  }

  /**
   * Replaying a deletion that took effect is a no-op when at most one row carried the
   * subscription id: no row matches any more, so the replay is a resolution miss.
   */
  lemma {:induction false} DeletionReplayIsNoop(
    t: Table, subscription: EventObject, f1: StoreFaults, found1: Option<string>,
    f2: StoreFaults, found2: Option<string>)
    requires FindsFirst(t, subscription.id, found1) && Cancels(t, f1, found1)
    requires AtMostOne(Matching(t, subscription.id))
    requires FindsFirst(AfterSubscriptionDeleted(t, f1, found1), subscription.id, found2)
    ensures AfterSubscriptionDeleted(AfterSubscriptionDeleted(t, f1, found1), f2, found2)
         == AfterSubscriptionDeleted(t, f1, found1)
  {
    DeletionClearsMatch(t, subscription.id, f1, found1);
    assert Matching(AfterSubscriptionDeleted(t, f1, found1), subscription.id) == {};
  }

  /**
   * A payment-failure or deletion event whose subscription id no row carries is acknowledged
   * without touching the table.
   */
  lemma UnmatchedEventIsNoop(t: Table, e: Event, faults: StoreFaults, found: Option<string>)
    requires LookupKey(e).Some? && Matching(t, LookupKey(e).value) == {}
    requires FindsFirst(t, LookupKey(e).value, found)
    ensures Dispatch(t, e, faults, found) == t
  {
  }

  /**
   * Payment failure and deletion only ever switch rows off, so they keep the invariant that
   * an active row has a tier and a subscription id; a checkout keeps it when its session
   * carries both a plan and a subscription id.
   */
  lemma HandlersKeepActiveHasPlan(
    t: Table, e: Event, faults: StoreFaults, found: Option<string>)
    requires ActiveHasPlan(t)
    requires e.kind == CheckoutSessionCompleted ==>
      PlanType(e.payload).Some? && e.payload.subscription.Some?
    ensures ActiveHasPlan(Dispatch(t, e, faults, found))
  {
  }

  /**
   * As written, the checkout handler does not keep that invariant: a session without a plan
   * type, or without a subscription (the handler's second guard re-tests the user id, not the
   * subscription id), activates the row all the same.
   */
  lemma CheckoutCanBreakActiveHasPlan(email: string)
    ensures var t := map["user_1" := NewProfile(email)];
      var session := EventObject(Some(map["clerkUserId" := "user_1"]), None, "cs_1");
      var r := AfterCheckout(t, session, NoFaults);
      && ActiveHasPlan(t)
      && r["user_1"] == Profile(email, true, None, None)
      && !ActiveHasPlan(r)
  {
  }

  /**
   * A checkout, a failed payment and a cancellation for one subscription take a freshly
   * created row through Active and PastDue back to where it started: the whole table ends
   * as it began.
   */
  lemma {:induction false} SubscriptionLifecycle(
    t: Table, uid: string, email: string, sid: string, tier: string,
    found1: Option<string>, found2: Option<string>)
    requires uid != "" && sid != "" && tier != ""
    requires uid in t && t[uid] == NewProfile(email)
    requires Matching(t, sid) == {}
    ensures
      var checkout := EventObject(Some(map["clerkUserId" := uid, "planType" := tier]), Some(sid), "cs");
      var t1 := AfterCheckout(t, checkout, NoFaults);
      var t2 := AfterPaymentFailed(t1, EventObject(None, Some(sid), "in"), NoFaults, found1);
      var t3 := AfterSubscriptionDeleted(t2, NoFaults, found2);
      && t1[uid] == Profile(email, true, Some(tier), Some(sid))
      && (FindsFirst(t1, sid, found1) ==> t2[uid] == Profile(email, false, Some(tier), Some(sid)))
      && (FindsFirst(t1, sid, found1) && FindsFirst(t2, sid, found2) ==>
            t3[uid] == NewProfile(email) && t3 == t)
  {
    var checkout := EventObject(Some(map["clerkUserId" := uid, "planType" := tier]), Some(sid), "cs");
    var invoice := EventObject(None, Some(sid), "in");
    assert ClerkUserId(checkout) == Some(uid);
    assert MetadataValue(checkout.metadata, "planType") == Some(tier);
    var t1 := AfterCheckout(t, checkout, NoFaults);
    assert t1 == t[uid := Profile(email, true, Some(tier), Some(sid))];
    assert Matching(t1, sid) == {uid} by {
      forall k ensures k in Matching(t1, sid) <==> k == uid {
        if k != uid && k in t {
          assert k !in Matching(t, sid);
        }
      }
    }
    if FindsFirst(t1, sid, found1) {
      assert found1 == Some(uid);
      var t2 := AfterPaymentFailed(t1, invoice, NoFaults, found1);
      assert FailsPayment(t1, invoice, NoFaults, found1);
      assert t2 == t[uid := Profile(email, false, Some(tier), Some(sid))];
      if FindsFirst(t2, sid, found2) {
        PaymentFailureKeepsMatches(t1, invoice, NoFaults, found1, sid);
        assert found2 == Some(uid);
        var t3 := AfterSubscriptionDeleted(t2, NoFaults, found2);
        assert t3 == t[uid := NewProfile(email)];
      }
    }
  }
}
