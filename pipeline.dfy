/**
 * The two-stage query pipeline, once, independent of any asynchronous library: look up the
 * user by the supplied username, authenticate, take the name, look up that user's orders,
 * and combine them into a `Result`. Each stage records the store queries it issued, so that
 * "the order query never runs after a failed login" is a statement about the model.
 */
module Pipeline {
  import opened Model
  import opened Util
  import opened Gateway

  /** A query issued to the store. */
  datatype Query = UserLookup(key: string) | OrdersLookup(username: string)

  /** A stage's outcome together with the store queries it issued, in order. */
  datatype Traced<T> = Traced(outcome: Outcome<T>, queries: seq<Query>)

  /** `thenCompose` / `flatMap`: the next stage runs only on success; a failure passes through. */
  function Then<T, U>(stage: Traced<T>, next: T -> Traced<U>): Traced<U> {
    match stage.outcome
    case Failure(e) => Traced(Failure(e), stage.queries)
    case Success(v) => var s := next(v); Traced(s.outcome, stage.queries + s.queries)
  }

  /** `thenApply` / `map` with a step that may throw: no query is issued. */
  function Apply<T, U>(stage: Traced<T>, step: T -> Outcome<U>): Traced<U> {
    Traced(stage.outcome.Bind(step), stage.queries)
  }

  /** Whatever the next stage would do, a failed stage short-circuits it. */
  lemma ThenShortCircuits<T, U>(stage: Traced<T>, next: T -> Traced<U>)
    requires stage.outcome.Failure?
    ensures Then(stage, next) == Traced(Failure(stage.outcome.error), stage.queries)
  {
  }

  /** A successful stage runs the next one: its outcome is the next stage's, its queries come after the first stage's. */
  lemma ThenContinues<T, U>(stage: Traced<T>, next: T -> Traced<U>)
    requires stage.outcome.Success?
    ensures Then(stage, next) ==
              Traced(next(stage.outcome.value).outcome, stage.queries + next(stage.outcome.value).queries)
  {
  }

  /** Composition of stages is associative, so the chain may be grouped either way. */
  lemma ThenAssociative<T, U, V>(stage: Traced<T>, f: T -> Traced<U>, g: U -> Traced<V>)
    ensures Then(Then(stage, f), g) == Then(stage, x => Then(f(x), g))
  {
    if stage.outcome.Success? {
      var s := f(stage.outcome.value);
      if s.outcome.Success? {
        var t := g(s.outcome.value);
        assert stage.queries + s.queries + t.queries == stage.queries + (s.queries + t.queries);
      }
    }
  }

  /**
   * A `thenApply` step followed by `thenCompose` is the step lifted to a stage that issues no
   * query, then composed: `logIn`'s two `thenApply` steps fuse with the `thenCompose` of a run.
   */
  lemma ApplyThenFuses<T, U, V>(stage: Traced<T>, step: T -> Outcome<U>, next: U -> Traced<V>)
    ensures Then(Apply(stage, step), next) == Then(stage, x => Then(Traced(step(x), []), next))
  {
    if stage.outcome.Success? {
      var s := step(stage.outcome.value);
      if s.Success? {
        var t := next(s.value);
        assert stage.queries + ([] + t.queries) == stage.queries + t.queries;
      }
    }
  }

  /** fetchOne: the user lookup by key. */
  function FetchUser(store: Store, key: string): Traced<Option<User>> {
    Traced(FindUser(store, key), [UserLookup(key)])
  }

  /** fetchMany: the order lookup by owner. */
  function FetchOrders(store: Store, username: string): Traced<seq<Order>> {
    Traced(OrderDocs(store, username), [OrdersLookup(username)])
  }

  /** `logIn`: look the user up, authenticate, and yield the user's name. */
  function LogIn(store: Store, credentials: Credentials): Traced<string> {
    var found := FetchUser(store, credentials.username);
    var user := Apply(found, optUser => CheckUserLoggedIn(optUser, credentials));
    Apply(user, (u: User) => Success(u.name))
  }

  /** `processOrdersOf`: fetch the orders of username and combine them into a `Result`. */
  function ProcessOrdersOf(store: Store, username: string): Traced<Result> {
    Apply(FetchOrders(store, username), orders => Success(Result(username, orders)))
  }

  /** One run of the pipeline: `logIn(credentials)` then, on success, `processOrdersOf(name)`. */
  function Run(store: Store, credentials: Credentials): Traced<Result> {
    Then(LogIn(store, credentials), username => ProcessOrdersOf(store, username))
  }

  /**
   * Login issues exactly one user lookup, succeeds with the supplied username exactly when the
   * store answers and the stored record authenticates, and otherwise carries the store's fault
   * or the authenticator's failure unchanged.
   */
  lemma LogInOutcome(store: Store, credentials: Credentials)
    ensures LogIn(store, credentials).queries == [UserLookup(credentials.username)]
    ensures LogIn(store, credentials).outcome.Success? <==>
              store.usersFault.None? && credentials.username in store.users
              && Authenticates(store.users[credentials.username], credentials)
    ensures LogIn(store, credentials).outcome.Success? ==>
              LogIn(store, credentials).outcome.value == credentials.username
    ensures store.usersFault.Some? ==>
              LogIn(store, credentials).outcome == Failure(StoreUnavailable(store.usersFault.value))
    ensures store.usersFault.None? && LogIn(store, credentials).outcome.Failure? ==>
              LogIn(store, credentials).outcome.error ==
                CheckUserLoggedIn(FindUser(store, credentials.username).value, credentials).error
  {
  }

  /** `processOrdersOf(u)` issues one order query and yields `Result(u, orders)` for exactly u's orders. */
  lemma ProcessOrdersOfOutcome(store: Store, username: string)
    ensures ProcessOrdersOf(store, username).queries == [OrdersLookup(username)]
    ensures ProcessOrdersOf(store, username).outcome ==
              if store.ordersFault.Some? then Failure(StoreUnavailable(store.ordersFault.value))
              else Success(Result(username, OrdersOf(store.orders, username)))
  {
  }

  /** A failed login ends the run with the login's failure; the order query is never issued. */
  lemma RunShortCircuits(store: Store, credentials: Credentials)
    requires LogIn(store, credentials).outcome.Failure?
    ensures Run(store, credentials) ==
              Traced(Failure(LogIn(store, credentials).outcome.error), [UserLookup(credentials.username)])
  {
    LogInOutcome(store, credentials);
  }

  /**
   * A run succeeds exactly when login succeeds and the order query answers; its result then
   * names the authenticated user and holds exactly that user's orders, in store order.
   */
  lemma RunSucceeds(store: Store, credentials: Credentials)
    ensures Run(store, credentials).outcome.Success? <==>
              LogIn(store, credentials).outcome.Success? && store.ordersFault.None?
    ensures Run(store, credentials).outcome.Success? ==>
              Run(store, credentials).outcome.value ==
                Result(credentials.username, OrdersOf(store.orders, credentials.username))
    ensures LogIn(store, credentials).outcome.Success? ==>
              Run(store, credentials).queries ==
                [UserLookup(credentials.username), OrdersLookup(credentials.username)]
    ensures LogIn(store, credentials).outcome.Success? && store.ordersFault.Some? ==>
              Run(store, credentials).outcome == Failure(StoreUnavailable(store.ordersFault.value))
  {
    LogInOutcome(store, credentials);
    ProcessOrdersOfOutcome(store, credentials.username);
  }

  /** Every order query a run issues is for the name a successful login returned. */
  lemma OrdersQueriedOnlyAfterLogIn(store: Store, credentials: Credentials)
    ensures forall q :: q in Run(store, credentials).queries && q.OrdersLookup? ==>
              LogIn(store, credentials).outcome == Success(q.username)
  {
    LogInOutcome(store, credentials);
    ProcessOrdersOfOutcome(store, credentials.username);
  }

  /** Two runs for different usernames never share an order: no run sees another user's data. */
  lemma NoCrossRunLeakage(store: Store, c1: Credentials, c2: Credentials)
    requires c1.username != c2.username
    requires Run(store, c1).outcome.Success? && Run(store, c2).outcome.Success?
    ensures forall o :: o in Run(store, c1).outcome.value.orders ==>
              o !in Run(store, c2).outcome.value.orders
  {
    RunSucceeds(store, c1);
    RunSucceeds(store, c2);
  }

  /** `String.toUpperCase` on the ASCII letters. */
  function ToUpperCase(s: string): (r: string)
    ensures |r| == |s|
    ensures forall i :: 0 <= i < |r| ==> !('a' <= r[i] <= 'z')
    ensures forall i :: 0 <= i < |s| && !('a' <= s[i] <= 'z') ==> r[i] == s[i]
    ensures forall i :: 0 <= i < |s| && 'a' <= s[i] <= 'z' ==> r[i] == (s[i] as int - 32) as char
  {
    seq(|s|, i requires 0 <= i < |s| => if 'a' <= s[i] <= 'z' then (s[i] as int - 32) as char else s[i])
  }

  /** A name with a lower-case letter differs from its upper-cased form: the lookup key changes. */
  lemma UpperCaseDiffers(s: string, i: nat)
    requires i < |s| && 'a' <= s[i] <= 'z'
    ensures ToUpperCase(s) != s
  {
    assert ToUpperCase(s)[i] != s[i];
  }

  /** The three invocations of the demonstration: right password, wrong password, upper-cased name. */
  function DemoCredentials(lisa: string): seq<Credentials> {
    [Credentials(lisa, "password"), Credentials(lisa, "bad_password"),
     Credentials(ToUpperCase(lisa), "password")]
  }

  /**
   * With the wrong password, the run fails at the password check when the record stored under
   * the name carries that same name, and already at the name check otherwise.
   */
  lemma WrongPasswordRun(store: Store, lisa: string)
    requires store.usersFault.None? && lisa in store.users
    requires store.users[lisa].password != "bad_password"
    ensures Run(store, DemoCredentials(lisa)[1]).outcome ==
              Failure(Denied(if store.users[lisa].name == lisa then BadPassword(lisa)
                             else IncorrectUsername(lisa)))
  {
    RunShortCircuits(store, DemoCredentials(lisa)[1]);
  }

  /**
   * Against a store holding `lisa/password` and nothing under the upper-cased key, the three
   * invocations end in a result with all of lisa's orders, a bad-password failure, and an
   * unknown-user failure.
   */
  lemma DemoRuns(store: Store, lisa: string)
    requires store.usersFault.None? && store.ordersFault.None?
    requires lisa in store.users && store.users[lisa] == User(lisa, "password")
    requires ToUpperCase(lisa) !in store.users
    ensures Run(store, DemoCredentials(lisa)[0]).outcome ==
              Success(Result(lisa, OrdersOf(store.orders, lisa)))
    ensures Run(store, DemoCredentials(lisa)[1]).outcome == Failure(Denied(BadPassword(lisa)))
    ensures Run(store, DemoCredentials(lisa)[2]).outcome ==
              Failure(Denied(UserUnknown(ToUpperCase(lisa))))
  {
    var cs := DemoCredentials(lisa);
    RunSucceeds(store, cs[0]);
    LogInOutcome(store, cs[0]);
    WrongPasswordRun(store, lisa);
    RunShortCircuits(store, cs[2]);
  }
}
