/**
 * The reactive-streams back-end: the store answers with publishers of raw documents, which
 * `toObservable` turns into observables; `logIn` itself collects the zero-or-one user
 * documents into a list, turns it into an optional user, authenticates and emits the name.
 */
module RxStreams {
  import opened Model
  import opened Util
  import opened Gateway
  import opened Sink
  import opened Rx
  import Pipeline
  import RxObservables

  /** `toObservable(findUserByName(name))`: the zero-or-one user documents. */
  function FindUserByName(store: Store, name: string): Observable<User> {
    FromCursor(UserDocs(store, name))
  }

  /** `toObservable(findOrdersByUsername(username))`: the matching order documents, in store order. */
  function FindOrdersByUsername(store: Store, username: string): Observable<Order> {
    FromCursor(OrderDocs(store, username))
  }

  /** `logIn`: documents to list, list to optional user, authenticate, emit the name. */
  function LogIn(store: Store, credentials: Credentials): Observable<string> {
    var users := ToList(FindUserByName(store, credentials.username));
    var optUser := Map(users, (us: seq<User>) => Success(FirstOrNone(us)));
    var user := Map(optUser, o => CheckUserLoggedIn(o, credentials));
    Map(user, (u: User) => Success(u.name))
  }

  /** `processOrdersOf`: every order document to an `Order`, collected, then `Result(username, orders)`. */
  function ProcessOrdersOf(store: Store, username: string): Observable<Result> {
    Map(ToList(FindOrdersByUsername(store, username)), orders => Success(Result(username, orders)))
  }

  /** The chain `eCommerceStatistics` subscribes to: `logIn(credentials).flatMap(processOrdersOf)`. */
  function Statistics(store: Store, credentials: Credentials): Observable<Result> {
    FlatMap(LogIn(store, credentials), username => ProcessOrdersOf(store, username))
  }

  /** The stream login emits the pipeline login's name, or its failure alone. */
  lemma LogInReduces(store: Store, credentials: Credentials)
    ensures LogIn(store, credentials) == Single(Pipeline.LogIn(store, credentials).outcome)
  {
    var docs := UserDocs(store, credentials.username);
    var toOptional := (us: seq<User>) => Success(FirstOrNone(us));
    var check := o => CheckUserLoggedIn(o, credentials);
    ToListFromCursor(docs);
    MapSingle(docs, toOptional);
    UserDocsAgreeWithFindUser(store, credentials.username);
    var found := FindUser(store, credentials.username);
    MapSingle(found, check);
    MapSingle(found.Bind(check), (u: User) => Success(u.name));
  }

  /** The stream order stage emits the pipeline's order stage outcome. */
  lemma ProcessOrdersOfReduces(store: Store, username: string)
    ensures ProcessOrdersOf(store, username) == Single(Pipeline.ProcessOrdersOf(store, username).outcome)
  {
    ToListFromCursor(OrderDocs(store, username));
    MapSingle(OrderDocs(store, username), orders => Success(Result(username, orders)));
  }

  /**
   * The whole chain emits the pipeline run's result then completes, or emits only the run's
   * failure, and so emits exactly what the observable back-end emits.
   */
  lemma StatisticsReduces(store: Store, credentials: Credentials)
    ensures Statistics(store, credentials) == Single(Pipeline.Run(store, credentials).outcome)
    ensures Statistics(store, credentials) == RxObservables.Statistics(store, credentials)
  {
    var login := Pipeline.LogIn(store, credentials).outcome;
    LogInReduces(store, credentials);
    FlatMapSingle(login, username => ProcessOrdersOf(store, username));
    if login.Success? {
      ProcessOrdersOfReduces(store, login.value);
    }
    RxObservables.StatisticsReduces(store, credentials);
  }

  /**
   * `eCommerceStatistics`: subscribe with display, report-and-count-down and count-down
   * callbacks, then wait on the latch. The console gets exactly the line of the pipeline's
   * outcome, and the latch is released when the call returns.
   */
  method ECommerceStatistics(store: Store, credentials: Credentials, console: Console)
    returns (latch: CountDownLatch)
    modifies console
    ensures fresh(latch) && latch.count == 0
    ensures console.lines == old(console.lines) + [Report(Pipeline.Run(store, credentials).outcome)]
  {
    latch := new CountDownLatch(1);
    StatisticsReduces(store, credentials);
    LinesOfSingle(Pipeline.Run(store, credentials).outcome);
    Subscribe(Statistics(store, credentials), console, latch);
  }

  /** The demonstration: the three runs one after another, each awaited before the next. */
  method Demonstrate(store: Store, lisa: string, console: Console)
    modifies console
    ensures var cs := Pipeline.DemoCredentials(lisa);
      console.lines == old(console.lines) + [Report(Pipeline.Run(store, cs[0]).outcome),
                                             Report(Pipeline.Run(store, cs[1]).outcome),
                                             Report(Pipeline.Run(store, cs[2]).outcome)]
  {
    var cs := Pipeline.DemoCredentials(lisa);
    var latch := ECommerceStatistics(store, cs[0], console);
    latch := ECommerceStatistics(store, cs[1], console);
    latch := ECommerceStatistics(store, cs[2], console);
  }
}
