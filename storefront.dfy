/**
 * The page-level operations built on the record store: the subscription
 * form's lookup-or-create of the customer followed by saving the
 * subscription, the customer portal's lookup, and the pause, resume and
 * cancel actions.
 */
module Storefront {
  import opened Wrappers
  import opened Seqs
  import opened Catalog
  import opened Delivery
  import opened Records

  /** The fields read from the subscription form. */
  datatype SubscriptionForm = SubscriptionForm(
    product: string,
    frequency: string,
    email: string,
    phone: string,
    address: Address)

  /** What the customer portal gathers: the customer and their subscriptions. */
  datatype PortalView = PortalView(customer: Customer, subscriptions: seq<Subscription>)

  /**
   * Handles a submitted subscription form up to the payment step: reuses the
   * customer with the form's email or saves a new one, then saves a
   * subscription for that customer priced from the subscription price table.
   * `customerId` and `subscriptionId` are the ids the clock would give.
   */
  method SubmitSubscription(db: Database, form: SubscriptionForm, customerId: Id, subscriptionId: Id, now: Instant)
    returns (customer: Customer, subscription: Subscription)
    modifies db
    ensures old(db.GetCustomerByEmail(form.email)).Some? ==>
      customer == old(db.GetCustomerByEmail(form.email)).value && db.customers == old(db.customers)
    ensures old(db.GetCustomerByEmail(form.email)).None? ==>
      && customer == Customer(customerId, form.email, form.phone, form.address, now)
      && db.customers == old(db.customers) + [customer]
    ensures subscription == Subscription(subscriptionId, customer.id, form.product, form.frequency,
                                         SubscriptionPrice(form.product), form.address, StatusActive,
                                         CalculateNextDelivery(form.frequency, now), now, None)
    ensures db.subscriptions == old(db.subscriptions) + [subscription]
    ensures db.orders == old(db.orders)
    ensures db.GetCustomerByEmail(form.email) == Some(customer)
    ensures db.GetCustomerSubscriptions(customer.id) == old(db.GetCustomerSubscriptions(customer.id)) + [subscription]
  {
    var found := db.GetCustomerByEmail(form.email);
    if found.Some? {
      customer := found.value;
    } else {
      ghost var before := db.customers;
      // The object literal has no id or creation time; SaveCustomer assigns both.
      customer := db.SaveCustomer(Customer("", form.email, form.phone, form.address, now), customerId, now);
      FindIndexAppend(before, customer, HasEmail(form.email));
    }
    ghost var subsBefore := db.subscriptions;
    // The object literal has no id, status, next delivery or creation time; SaveSubscription assigns them.
    subscription := db.SaveSubscription(
      Subscription("", customer.id, form.product, form.frequency, SubscriptionPrice(form.product),
                   form.address, "", now, now, None),
      subscriptionId, now);
    FilterAppend(subsBefore, subscription, OwnedBy(customer.id));
  }

  /** The customer with `email` and their subscriptions, or None ("Customer not found"). */
  function LoadCustomerPortal(db: Database, email: string): (r: Option<PortalView>)
    reads db
    ensures r.None? <==> forall i :: 0 <= i < |db.customers| ==> db.customers[i].email != email
    ensures r.Some? ==> r.value.customer.email == email && r.value.customer in db.customers
    ensures r.Some? ==> forall s :: s in r.value.subscriptions <==>
      s in db.subscriptions && s.customerId == r.value.customer.id
    ensures r.Some? ==> Some(r.value.customer) == db.GetCustomerByEmail(email)
    ensures r.Some? ==> r.value.subscriptions == db.GetCustomerSubscriptions(r.value.customer.id)
  {
    match db.GetCustomerByEmail(email)
    case None => None
    case Some(c) => Some(PortalView(c, db.GetCustomerSubscriptions(c.id)))
  }

  /** Pauses the first subscription with id `subscriptionId`; `notified` says whether one was found. */
  method PauseSubscription(db: Database, subscriptionId: Id, now: Instant) returns (notified: bool)
    modifies db
    ensures notified <==> !NoMatch(old(db.subscriptions), HasId(subscriptionId))
    ensures !notified ==> db.subscriptions == old(db.subscriptions)
    ensures notified ==>
      exists k :: && FirstMatch(old(db.subscriptions), HasId(subscriptionId), k)
                  && db.subscriptions == old(db.subscriptions)[k := old(db.subscriptions)[k].(status := StatusPaused, updatedAt := Some(now))]
    ensures db.customers == old(db.customers) && db.orders == old(db.orders)
  {
    var r := db.UpdateSubscriptionStatus(subscriptionId, StatusPaused, now);
    notified := r.Some?;
  }

  /** Makes the first subscription with id `subscriptionId` active again; `notified` says whether one was found. */
  method ResumeSubscription(db: Database, subscriptionId: Id, now: Instant) returns (notified: bool)
    modifies db
    ensures notified <==> !NoMatch(old(db.subscriptions), HasId(subscriptionId))
    ensures !notified ==> db.subscriptions == old(db.subscriptions)
    ensures notified ==>
      exists k :: && FirstMatch(old(db.subscriptions), HasId(subscriptionId), k)
                  && db.subscriptions == old(db.subscriptions)[k := old(db.subscriptions)[k].(status := StatusActive, updatedAt := Some(now))]
    ensures db.customers == old(db.customers) && db.orders == old(db.orders)
  {
    var r := db.UpdateSubscriptionStatus(subscriptionId, StatusActive, now);
    notified := r.Some?;
  }

  /** Cancels the first subscription with id `subscriptionId`; `notified` says whether one was found. */
  method CancelSubscription(db: Database, subscriptionId: Id, now: Instant) returns (notified: bool)
    modifies db
    ensures notified <==> !NoMatch(old(db.subscriptions), HasId(subscriptionId))
    ensures !notified ==> db.subscriptions == old(db.subscriptions)
    ensures notified ==>
      exists k :: && FirstMatch(old(db.subscriptions), HasId(subscriptionId), k)
                  && db.subscriptions == old(db.subscriptions)[k := old(db.subscriptions)[k].(status := StatusCancelled, updatedAt := Some(now))]
    ensures db.customers == old(db.customers) && db.orders == old(db.orders)
  {
    var r := db.UpdateSubscriptionStatus(subscriptionId, StatusCancelled, now);
    notified := r.Some?;
  }

  /**
   * The worked example: a new customer subscribes to a face cord quarterly on
   * a store with no customers or subscriptions. Exactly one customer and one
   * active subscription result, priced at 359 dollars and due three months
   * after `now`.
   */
  method FaceCordQuarterlyScenario(db: Database, address: Address, now: Instant)
    returns (customer: Customer, subscription: Subscription)
    requires db.customers == [] && db.subscriptions == []
    modifies db
    ensures db.customers == [customer] && db.subscriptions == [subscription]
    ensures customer.email == "a@example.com" && customer.id == "c1"
    ensures subscription.customerId == "c1" && subscription.status == StatusActive
    ensures subscription.price == Some(35900)
    ensures MonthCount(subscription.nextDelivery) == MonthCount(now) + 3
  {
    var form := SubscriptionForm("facecord", "quarterly", "a@example.com", "412-555-0100", address);
    customer, subscription := SubmitSubscription(db, form, "c1", "s1", now);
  }
}
