/**
 * The record store as the pipeline sees it: an exact-match lookup of users by key and an
 * order-preserving selection of orders by owner. A collection may be faulty, in which case
 * every query on it throws.
 */
module Gateway {
  import opened Model

  /** Users keyed by `_id`, orders in the collection's own order, and each collection's fault if any. */
  datatype Store = Store(
    users: map<string, User>,
    orders: seq<Order>,
    usersFault: Option<string>,
    ordersFault: Option<string>)

  /** `find(eq("_id", key)).first()` read as an `Optional`: the user stored under key, if any. */
  function FindUser(store: Store, key: string): (r: Outcome<Option<User>>)
    ensures r.Failure? <==> store.usersFault.Some?
    ensures r.Failure? ==> r.error == StoreUnavailable(store.usersFault.value)
    ensures r.Success? ==> (r.value.Some? <==> key in store.users)
    ensures r.Success? && r.value.Some? ==> r.value.value == store.users[key]
  {
    match store.usersFault
    case Some(m) => Failure(StoreUnavailable(m))
    case None => Success(if key in store.users then Some(store.users[key]) else None)
  }

  /** The same query as a stream of documents: zero or one user, or the collection's fault. */
  function UserDocs(store: Store, key: string): (r: Outcome<seq<User>>)
    ensures r.Failure? <==> store.usersFault.Some?
    ensures r.Failure? ==> r.error == StoreUnavailable(store.usersFault.value)
    ensures r.Success? ==> |r.value| <= 1 && (r.value == [] <==> key !in store.users)
    ensures r.Success? && key in store.users ==> r.value == [store.users[key]]
  {
    match store.usersFault
    case Some(m) => Failure(StoreUnavailable(m))
    case None => Success(if key in store.users then [store.users[key]] else [])
  }

  /** `users.size() == 0 ? Optional.empty() : Optional.of(users.get(0))`. */
  function FirstOrNone(users: seq<User>): (r: Option<User>)
    ensures r.None? <==> users == []
    ensures r.Some? ==> r.value == users[0]
  {
    if |users| == 0 then None else Some(users[0])
  }

  /** Collecting the document stream and taking its head gives the same answer as the direct lookup. */
  lemma UserDocsAgreeWithFindUser(store: Store, key: string)
    ensures FindUser(store, key) == UserDocs(store, key).Bind(users => Success(FirstOrNone(users)))
  {
  }

  /** `find(eq("username", username))`: the orders owned by username, in the collection's order. */
  function OrdersOf(orders: seq<Order>, username: string): (r: seq<Order>)
    ensures |r| <= |orders|
    ensures forall o :: o in r ==> o in orders && o.username == username
  {
    if orders == [] then []
    else if orders[0].username == username then [orders[0]] + OrdersOf(orders[1..], username)
    else OrdersOf(orders[1..], username)
  }

  /** Selection distributes over concatenation, so it never reorders the orders it keeps. */
  lemma {:induction false} OrdersOfAppend(a: seq<Order>, b: seq<Order>, username: string)
    ensures OrdersOf(a + b, username) == OrdersOf(a, username) + OrdersOf(b, username)
  {
    if a == [] {
      assert a + b == b;
    } else {
      assert (a + b)[0] == a[0];
      assert (a + b)[1..] == a[1..] + b;
      OrdersOfAppend(a[1..], b, username);
    }
  }

  /** Every order owned by username is kept as often as it occurs, and no other order is kept. */
  lemma {:induction false} OrdersOfCount(orders: seq<Order>, username: string, o: Order)
    ensures multiset(OrdersOf(orders, username))[o] ==
              if o.username == username then multiset(orders)[o] else 0
  {
    if orders != [] {
      OrdersOfCount(orders[1..], username, o);
      assert orders == [orders[0]] + orders[1..];
      assert multiset(orders) == multiset([orders[0]]) + multiset(orders[1..]);
    }
  }

  /** A collection holding only username's orders is returned whole. */
  lemma {:induction false} OrdersOfKeepsOwned(orders: seq<Order>, username: string)
    requires forall i :: 0 <= i < |orders| ==> orders[i].username == username
    ensures OrdersOf(orders, username) == orders
  {
    if orders != [] {
      OrdersOfKeepsOwned(orders[1..], username);
      assert orders == [orders[0]] + orders[1..];
    }
  }

  /** The order query as a stream of documents: the selected orders, or the collection's fault. */
  function OrderDocs(store: Store, username: string): (r: Outcome<seq<Order>>)
    ensures r.Failure? <==> store.ordersFault.Some?
    ensures r.Failure? ==> r.error == StoreUnavailable(store.ordersFault.value)
    ensures r.Success? ==> r.value == OrdersOf(store.orders, username)
  {
    match store.ordersFault
    case Some(m) => Failure(StoreUnavailable(m))
    case None => Success(OrdersOf(store.orders, username))
  }
}
