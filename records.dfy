/**
 * The record store: customers, subscriptions and orders held in memory.
 * Saving stamps a record with an id and fixed fields and appends it; the only
 * later change is a subscription's status. Ids and timestamps come from the
 * caller, since the store reads them off the clock; ids are opaque and two
 * records may share one.
 */
module Records {
  import opened Wrappers
  import opened Seqs
  import opened Delivery

  type Id = string

  datatype Address = Address(street: string, city: string, state: string, zip: string)

  datatype Customer = Customer(id: Id, email: string, phone: string, address: Address, createdAt: Instant)

  datatype Subscription = Subscription(
    id: Id,
    customerId: Id,
    product: string,
    frequency: string,
    price: Option<nat>,
    address: Address,
    status: string,
    nextDelivery: Instant,
    createdAt: Instant,
    updatedAt: Option<Instant>)

  /** An order; its payload is whatever the caller supplies, here a product key and a quantity. */
  datatype Order = Order(id: Id, product: string, quantity: nat, status: string, createdAt: Instant)

  const StatusActive := "active"
  const StatusPaused := "paused"
  const StatusCancelled := "cancelled"
  const StatusPending := "pending"

  /** The test `find` applies in a lookup by email. */
  function HasEmail(email: string): Customer -> bool {
    (c: Customer) => c.email == email
  }

  /** The test `find` applies in a lookup by subscription id. */
  function HasId(id: Id): Subscription -> bool {
    (s: Subscription) => s.id == id
  }

  /** The test `filter` applies to select a customer's subscriptions. */
  function OwnedBy(customerId: Id): Subscription -> bool {
    (s: Subscription) => s.customerId == customerId
  }

  class Database {
    var customers: seq<Customer>
    var subscriptions: seq<Subscription>
    var orders: seq<Order>

    /** A store holding the collections read back from storage. */
    constructor (customers: seq<Customer>, subscriptions: seq<Subscription>, orders: seq<Order>)
      ensures this.customers == customers
      ensures this.subscriptions == subscriptions
      ensures this.orders == orders
    {
      this.customers := customers;
      this.subscriptions := subscriptions;
      this.orders := orders;
    }

    /** Stamps `customer` with an id and creation time and appends it. */
    method SaveCustomer(customer: Customer, id: Id, now: Instant) returns (saved: Customer)
      modifies this
      ensures saved == customer.(id := id, createdAt := now)
      ensures customers == old(customers) + [saved]
      ensures subscriptions == old(subscriptions) && orders == old(orders)
      ensures forall email :: old(GetCustomerByEmail(email)).Some? ==>
        GetCustomerByEmail(email) == old(GetCustomerByEmail(email))
    {
      saved := customer.(id := id, createdAt := now);
      forall email | FindIndex(customers, HasEmail(email)).Some?
        ensures FindIndex(customers + [saved], HasEmail(email)) == FindIndex(customers, HasEmail(email))
      {
        FindIndexExtend(customers, [saved], HasEmail(email), FindIndex(customers, HasEmail(email)).value);
      }
      customers := customers + [saved];
    }

    /**
     * Stamps `subscription` with an id and creation time, sets its status to
     * active whatever it was, schedules its next delivery, and appends it.
     */
    method SaveSubscription(subscription: Subscription, id: Id, now: Instant) returns (saved: Subscription)
      modifies this
      ensures saved == subscription.(id := id, createdAt := now, status := StatusActive,
                                     nextDelivery := CalculateNextDelivery(subscription.frequency, now))
      ensures saved.status == StatusActive && Before(now, saved.nextDelivery)
      ensures subscriptions == old(subscriptions) + [saved]
      ensures customers == old(customers) && orders == old(orders)
    {
      saved := subscription.(id := id, createdAt := now, status := StatusActive,
                             nextDelivery := CalculateNextDelivery(subscription.frequency, now));
      subscriptions := subscriptions + [saved];
    }

    /** Stamps `order` with an id and creation time, sets its status to pending whatever it was, and appends it. */
    method SaveOrder(order: Order, id: Id, now: Instant) returns (saved: Order)
      modifies this
      ensures saved == order.(id := id, createdAt := now, status := StatusPending)
      ensures orders == old(orders) + [saved]
      ensures customers == old(customers) && subscriptions == old(subscriptions)
    {
      saved := order.(id := id, createdAt := now, status := StatusPending);
      orders := orders + [saved];
    }

    /** The first customer whose email equals `email`, or None when there is none. */
    function GetCustomerByEmail(email: string): (r: Option<Customer>)
      reads this
      ensures r.None? <==> forall i :: 0 <= i < |customers| ==> customers[i].email != email
      ensures r.Some? ==> r.value.email == email
      ensures r.Some? ==> exists i :: FirstMatch(customers, HasEmail(email), i) && customers[i] == r.value
    {
      match FindIndex(customers, HasEmail(email))
      case Some(i) => Some(customers[i])
      case None => None
    }

    /** The subscriptions owned by `customerId`, in the order they were saved. */
    function GetCustomerSubscriptions(customerId: Id): (r: seq<Subscription>)
      reads this
      ensures forall i :: 0 <= i < |r| ==> r[i].customerId == customerId
      ensures forall s :: s in r <==> s in subscriptions && s.customerId == customerId
    {
      var cs := subscriptions;
      forall s ensures s in Filter(cs, OwnedBy(customerId)) <==> s in cs && s.customerId == customerId {
        FilterMembership(cs, OwnedBy(customerId), s);
      }
      Filter(cs, OwnedBy(customerId))
    }

    /**
     * Sets the status and update time of the first subscription with id
     * `subscriptionId`; an unknown id changes nothing and yields None.
     */
    method UpdateSubscriptionStatus(subscriptionId: Id, status: string, now: Instant) returns (r: Option<Subscription>)
      modifies this
      ensures customers == old(customers) && orders == old(orders)
      ensures r.None? <==> NoMatch(old(subscriptions), HasId(subscriptionId))
      ensures r.None? ==> subscriptions == old(subscriptions)
      ensures r.Some? ==>
        exists k :: && FirstMatch(old(subscriptions), HasId(subscriptionId), k)
                    && r.value == old(subscriptions)[k].(status := status, updatedAt := Some(now))
                    && subscriptions == old(subscriptions)[k := r.value]
      ensures forall c :: |GetCustomerSubscriptions(c)| == |old(GetCustomerSubscriptions(c))|
    {
      match FindIndex(subscriptions, HasId(subscriptionId))
      case None =>
        r := None;
      case Some(k) =>
        var updated := subscriptions[k].(status := status, updatedAt := Some(now));
        forall c ensures |Filter(subscriptions[k := updated], OwnedBy(c))| == |Filter(subscriptions, OwnedBy(c))| {
          FilterUpdate(subscriptions, k, updated, OwnedBy(c));
        }
        subscriptions := subscriptions[k := updated];
        r := Some(updated);
    }
  }
}
