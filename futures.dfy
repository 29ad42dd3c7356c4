/**
 * The future-based back-end: each store query is a supplier run on a fixed thread pool that
 * completes a `CompletableFuture`; `logIn` and `processOrdersOf` are `thenApply` chains over the
 * completed values, `thenCompose` runs the order query only after a successful login, and
 * `whenComplete` reports the terminal outcome and shuts the pool down after the last run.
 */
module Futures {
  import opened Model
  import opened Util
  import opened Gateway
  import opened Sink
  import Pipeline

  /** The thread pool: whether it has been shut down, and the queries it has run, in order. */
  class Executor {
    var isShutdown: bool
    var tasks: seq<Pipeline.Query>

    constructor()
      ensures !isShutdown && tasks == []
    {
      isShutdown := false;
      tasks := [];
    }

    /** `execute`: run one task on the pool. */
    method Execute(task: Pipeline.Query)
      requires !isShutdown
      modifies this
      ensures !isShutdown && tasks == old(tasks) + [task]
    {
      tasks := tasks + [task];
    }

    /** `shutdown`: accept no further tasks. */
    method Shutdown()
      modifies this
      ensures isShutdown && tasks == old(tasks)
    {
      isShutdown := true;
    }
  }

  /** A future that is completed at most once, normally or exceptionally. */
  class CompletableFuture<T> {
    var state: Option<Outcome<T>>

    constructor()
      ensures state == None
    {
      state := None;
    }

    /** `complete`: completes with value unless already completed; says whether this call did it. */
    method Complete(value: T) returns (transitioned: bool)
      modifies this
      ensures transitioned <==> old(state).None?
      ensures state == if transitioned then Some(Success(value)) else old(state)
    {
      transitioned := state.None?;
      if transitioned {
        state := Some(Success(value));
      }
    }

    /** `completeExceptionally`: completes with error unless already completed. */
    method CompleteExceptionally(error: Error) returns (transitioned: bool)
      modifies this
      ensures transitioned <==> old(state).None?
      ensures state == if transitioned then Some(Failure(error)) else old(state)
    {
      transitioned := state.None?;
      if transitioned {
        state := Some(Failure(error));
      }
    }
  }

  /** A supplier: the store query it performs and what calling it yields, a value or an exception. */
  datatype Supplier<T> = Supplier(query: Pipeline.Query, get: Outcome<T>)

  /**
   * `provideResultAsync`: run the supplier on the pool and complete a fresh future, exactly
   * once, with its value or with the exception it threw.
   */
  method ProvideResultAsync<T>(supplier: Supplier<T>, executor: Executor)
    returns (future: CompletableFuture<T>)
    requires !executor.isShutdown
    modifies executor
    ensures fresh(future) && future.state == Some(supplier.get)
    ensures !executor.isShutdown && executor.tasks == old(executor.tasks) + [supplier.query]
  {
    future := new CompletableFuture();
    executor.Execute(supplier.query);
    var completed: bool;
    match supplier.get {
      case Success(v) =>
        completed := future.Complete(v);
      case Failure(e) =>
        completed := future.CompleteExceptionally(e);
    }
    assert completed;
  }

  /**
   * `_findOrdersByUsername`: walk the order collection's cursor into a list, keeping the orders
   * of username in cursor order; a faulty collection throws.
   */
  method LookUpOrders(store: Store, username: string) returns (r: Outcome<seq<Order>>)
    ensures r == OrderDocs(store, username)
  {
    if store.ordersFault.Some? {
      return Failure(StoreUnavailable(store.ordersFault.value));
    }
    var cursor := store.orders;
    var docs: seq<Order> := [];
    var i := 0;
    while i < |cursor|
      invariant 0 <= i <= |cursor|
      invariant docs == OrdersOf(cursor[..i], username)
    {
      var doc := cursor[i];
      if doc.username == username {
        docs := docs + [doc];
      }
      OrdersOfStep(cursor, i, username);
      i := i + 1;
    }
    assert cursor[..i] == cursor;
    r := Success(docs);
  }

  /** Selecting from one more element of the cursor extends the selection by that element if it matches. */
  lemma OrdersOfStep(cursor: seq<Order>, i: nat, username: string)
    requires i < |cursor|
    ensures OrdersOf(cursor[..i + 1], username) ==
              OrdersOf(cursor[..i], username) + (if cursor[i].username == username then [cursor[i]] else [])
  {
    assert cursor[..i + 1] == cursor[..i] + [cursor[i]];
    OrdersOfAppend(cursor[..i], [cursor[i]], username);
    assert [cursor[i]][1..] == [];
  }

  /** `findUserByName`: the user lookup (`_findUserByName`) as a supplier on the pool. */
  method FindUserByName(store: Store, name: string, executor: Executor)
    returns (future: CompletableFuture<Option<User>>)
    requires !executor.isShutdown
    modifies executor
    ensures fresh(future) && future.state == Some(FindUser(store, name))
    ensures !executor.isShutdown
    ensures executor.tasks == old(executor.tasks) + [Pipeline.UserLookup(name)]
  {
    future := ProvideResultAsync(Supplier(Pipeline.UserLookup(name), FindUser(store, name)), executor);
  }

  /** `findOrdersByUsername`: the order lookup (`_findOrdersByUsername`) as a supplier on the pool. */
  method FindOrdersByUsername(store: Store, username: string, executor: Executor)
    returns (future: CompletableFuture<seq<Order>>)
    requires !executor.isShutdown
    modifies executor
    ensures fresh(future) && future.state == Some(OrderDocs(store, username))
    ensures !executor.isShutdown
    ensures executor.tasks == old(executor.tasks) + [Pipeline.OrdersLookup(username)]
  {
    var orders := LookUpOrders(store, username);
    future := ProvideResultAsync(Supplier(Pipeline.OrdersLookup(username), orders), executor);
  }

  /** `logIn`: two `thenApply` steps over the completed user lookup. */
  function LogIn(found: Outcome<Option<User>>, credentials: Credentials): Outcome<string> {
    found
      .Bind(optUser => CheckUserLoggedIn(optUser, credentials))
      .Bind((user: User) => Success(user.name))
  }

  /** `processOrdersOf`: one `thenApply` step over the completed order lookup. */
  function ProcessOrdersOf(fetched: Outcome<seq<Order>>, username: string): Outcome<Result> {
    fetched.Bind(orders => Success(Result(username, orders)))
  }

  /** The future-based login is the pipeline's login. */
  lemma LogInReduces(store: Store, credentials: Credentials)
    ensures LogIn(FindUser(store, credentials.username), credentials) ==
              Pipeline.LogIn(store, credentials).outcome
  {
  }

  /** The future-based order stage is the pipeline's order stage. */
  lemma ProcessOrdersOfReduces(store: Store, username: string)
    ensures ProcessOrdersOf(OrderDocs(store, username), username) ==
              Pipeline.ProcessOrdersOf(store, username).outcome
  {
  }

  /** The query class: its pool, the console, and the store behind its DAO. */
  class Shop {
    const store: Store
    const executor: Executor
    const console: Console

    /**
     * The demonstration: three runs, only the last flagged as last. The pool is shut down
     * exactly once, after the third run's outcome has been reported.
     */
    constructor(store: Store, lisa: string)
      ensures this.store == store && fresh(executor) && fresh(console)
      ensures executor.isShutdown
      ensures var cs := Pipeline.DemoCredentials(lisa);
        console.lines == [Report(Pipeline.Run(store, cs[0]).outcome),
                          Report(Pipeline.Run(store, cs[1]).outcome),
                          Report(Pipeline.Run(store, cs[2]).outcome)]
      ensures var cs := Pipeline.DemoCredentials(lisa);
        executor.tasks == Pipeline.Run(store, cs[0]).queries + Pipeline.Run(store, cs[1]).queries
                          + Pipeline.Run(store, cs[2]).queries
    {
      this.store := store;
      executor := new Executor();
      console := new Console();
      new;
      var cs := Pipeline.DemoCredentials(lisa);
      ECommerceStatistics(cs[0], false);
      ECommerceStatistics(cs[1], false);
      ECommerceStatistics(cs[2], true);
    }

    /**
     * `eCommerceStatistics`: `logIn`, then `thenCompose(processOrdersOf)`, then `whenComplete`.
     * The pool runs exactly the pipeline's queries, the console gets exactly one line for the
     * pipeline's outcome, and the pool is shut down exactly when this run is flagged as last.
     */
    method ECommerceStatistics(credentials: Credentials, isLastInvocation: bool)
      requires !executor.isShutdown
      modifies executor, console
      ensures executor.tasks == old(executor.tasks) + Pipeline.Run(store, credentials).queries
      ensures console.lines == old(console.lines) + [Report(Pipeline.Run(store, credentials).outcome)]
      ensures executor.isShutdown == isLastInvocation
    {
      LogInReduces(store, credentials);
      Pipeline.LogInOutcome(store, credentials);
      var userFuture := FindUserByName(store, credentials.username, executor);
      var loggedIn := LogIn(userFuture.state.value, credentials);
      var outcome: Outcome<Result>;
      match loggedIn {
        case Failure(e) =>
          Pipeline.RunShortCircuits(store, credentials);
          outcome := Failure(e);
        case Success(username) =>
          ProcessOrdersOfReduces(store, username);
          var ordersFuture := FindOrdersByUsername(store, username, executor);
          outcome := ProcessOrdersOf(ordersFuture.state.value, username);
      }
      WhenComplete(outcome, isLastInvocation);
    }

    /** The `whenComplete` handler: display the result or report the failure, then maybe shut down. */
    method WhenComplete(outcome: Outcome<Result>, isLastInvocation: bool)
      modifies executor, console
      ensures console.lines == old(console.lines) + [Report(outcome)]
      ensures executor.tasks == old(executor.tasks)
      ensures executor.isShutdown == (old(executor.isShutdown) || isLastInvocation)
    {
      match outcome {
        case Success(result) => console.Display(result);
        case Failure(error) => console.ReportError(error);
      }
      if isLastInvocation {
        executor.Shutdown();
      }
    }
  }
}
