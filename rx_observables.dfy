/**
 * The Rx-observable back-end: the user query's zero-or-one documents are collected into a
 * list and turned into an optional user, the order query's documents into a list of orders;
 * `logIn` and `processOrdersOf` are `map` chains, joined by `flatMap`, and a single-count latch
 * holds the caller until the subscriber has seen the terminal event.
 */
module RxObservables {
  import opened Model
  import opened Util
  import opened Gateway
  import opened Sink
  import opened Rx
  import Pipeline

  /** `findUserByName`: `first()`, `toList()`, then empty list to `Optional.empty()`, else its head. */
  function FindUserByName(store: Store, name: string): Observable<Option<User>> {
    Map(ToList(FromCursor(UserDocs(store, name))), users => Success(FirstOrNone(users)))
  }

  /** `findOrdersByUsername`: every matching order document, collected into one list. */
  function FindOrdersByUsername(store: Store, username: string): Observable<seq<Order>> {
    ToList(FromCursor(OrderDocs(store, username)))
  }

  /** `logIn`: authenticate the optional user, then emit the user's name. */
  function LogIn(store: Store, credentials: Credentials): Observable<string> {
    var checked := Map(FindUserByName(store, credentials.username),
                       optUser => CheckUserLoggedIn(optUser, credentials));
    Map(checked, (user: User) => Success(user.name))
  }

  /** `processOrdersOf`: emit `Result(username, orders)` for the collected orders. */
  function ProcessOrdersOf(store: Store, username: string): Observable<Result> {
    Map(FindOrdersByUsername(store, username), orders => Success(Result(username, orders)))
  }

  /** The chain `eCommerceStatistics` subscribes to: `logIn(credentials).flatMap(processOrdersOf)`. */
  function Statistics(store: Store, credentials: Credentials): Observable<Result> {
    FlatMap(LogIn(store, credentials), username => ProcessOrdersOf(store, username))
  }

  /** The list-to-optional lookup emits exactly the direct lookup's answer. */
  lemma FindUserByNameReduces(store: Store, name: string)
    ensures FindUserByName(store, name) == Single(FindUser(store, name))
  {
    ToListFromCursor(UserDocs(store, name));
    MapSingle(UserDocs(store, name), users => Success(FirstOrNone(users)));
    UserDocsAgreeWithFindUser(store, name);
  }

  /** The observable login emits the pipeline login's name, or its failure alone. */
  lemma LogInReduces(store: Store, credentials: Credentials)
    ensures LogIn(store, credentials) == Single(Pipeline.LogIn(store, credentials).outcome)
  {
    var found := FindUser(store, credentials.username);
    var check := optUser => CheckUserLoggedIn(optUser, credentials);
    FindUserByNameReduces(store, credentials.username);
    MapSingle(found, check);
    MapSingle(found.Bind(check), (user: User) => Success(user.name));
  }

  /** The observable order stage emits the pipeline's order stage outcome. */
  lemma ProcessOrdersOfReduces(store: Store, username: string)
    ensures ProcessOrdersOf(store, username) == Single(Pipeline.ProcessOrdersOf(store, username).outcome)
  {
    ToListFromCursor(OrderDocs(store, username));
    MapSingle(OrderDocs(store, username), orders => Success(Result(username, orders)));
  }

  /**
   * The whole chain emits the pipeline run's result then completes, or emits only the run's
   * failure; orders are fetched only for a name a successful login emitted.
   */
  lemma StatisticsReduces(store: Store, credentials: Credentials)
    ensures Statistics(store, credentials) == Single(Pipeline.Run(store, credentials).outcome)
  {
    var login := Pipeline.LogIn(store, credentials).outcome;
    LogInReduces(store, credentials);
    FlatMapSingle(login, username => ProcessOrdersOf(store, username));
    if login.Success? {
      ProcessOrdersOfReduces(store, login.value);
    }
  }

  /**
   * `eCommerceStatistics`: subscribe with a latch of one and wait on it. The console gets
   * exactly the line of the pipeline's outcome, and the latch is released when the call returns.
   */
  method ECommerceStatistics(store: Store, credentials: Credentials, console: Console)
    returns (latch: CountDownLatch)
    modifies console
    ensures fresh(latch) && latch.count == 0
    ensures console.lines == old(console.lines) + [Report(Pipeline.Run(store, credentials).outcome)]
  {
    latch := new CountDownLatch(1);
    StatisticsReduces(store, credentials);
    LinesOfSingle(Pipeline.Run(store, credentials).outcome);
    Subscribe(Statistics(store, credentials), console, latch);
  }

  /** The demonstration: the three runs one after another, each awaited before the next. */
  method Demonstrate(store: Store, lisa: string, console: Console)
    modifies console
    ensures var cs := Pipeline.DemoCredentials(lisa);
      console.lines == old(console.lines) + [Report(Pipeline.Run(store, cs[0]).outcome),
                                             Report(Pipeline.Run(store, cs[1]).outcome),
                                             Report(Pipeline.Run(store, cs[2]).outcome)]
  {
    var cs := Pipeline.DemoCredentials(lisa);
    var latch := ECommerceStatistics(store, cs[0], console);
    latch := ECommerceStatistics(store, cs[1], console);
    latch := ECommerceStatistics(store, cs[2], console);
  }
}
