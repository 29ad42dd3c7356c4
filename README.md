# Verified model of the shop query pipeline

The shop's query demo logs a user in and then shows that user's orders. It looks the user up in the
users collection by `_id` and checks the record against the supplied credentials with
`Util.checkUserLoggedIn`. If that succeeds, it takes the user's name, fetches the orders whose
`username` is that name, and builds a `Result(name, orders)`. The same two-stage pipeline is written
three times, on three asynchronous libraries: `CompletableFuture` stages on a fixed thread pool
(`QueryJ04bCompletionStageCompleteRefactored`), RxJava observables from the Rx MongoDB driver
(`QueryJ07aRxObservables`), and reactive-streams publishers turned into observables
(`QueryJ08RxStreamsWithObservables`).

The model states the pipeline once, in `Pipeline`. It is a chain of stages over an `Outcome` (a
value or a failure). Each stage also records the store queries it issued, so the model can state
that the order query never runs after a failed login. Each back-end is then shown to reduce to
that chain:

- `Futures` is imperative, like its source. It has a thread-pool class and a `CompletableFuture` class
  that completes once. It has `provideResultAsync`, and the order lookup is a loop that walks the cursor.
  Its `eCommerceStatistics` method is proved to run exactly the pipeline's queries and print exactly
  the pipeline's outcome. It shuts the pool down exactly when the run is flagged as last.
- `Rx` gives the operators (`map` with a throwing function, `toList`, `flatMap`) on the signals an
  observable delivers. It also has the count-down latch and the subscriber.
- `RxObservables` and `RxStreams` prove that their chains emit exactly `Single(Run(...).outcome)`.
  Each run therefore prints one line, and its latch is released when the call returns.

The modules are:

- `Model`: the records `User`, `Credentials`, `Order` and `Result`, the authenticator's three
  failures with their messages, `Error` and `Outcome`.
- `Util`: the authenticator.
- `Gateway`: the store. Users are a `map` keyed by `_id`. Orders are a `seq` in collection order.
  Each collection may carry a fault that every query on it throws.
- `Sink`: the console.

Two behaviours of the code are worth stating. The result carries `user.name`, which a successful
check makes equal to the supplied username; nothing is normalized. The third demo login passes the
upper-cased name, and the code looks up `_id` under that upper-cased key. It therefore fails as
"User unknown" unless a record is stored under that key (`Pipeline.DemoRuns`), and as "Incorrect
username" when a record stored there carries another name.

## Model

| member | source | states |
|---|---|---|
| `Util.CheckUserLoggedIn` | src/main/java/shopJava/util/Util.java:10-23 | succeeds exactly when a user is present and its name and password equal the credentials, case-sensitively, and then returns the record unchanged; otherwise the first failing check decides: absent gives UserUnknown, a name mismatch gives IncorrectUsername, and a matching name with the wrong password gives BadPassword. Each failure carries the supplied username |
| `Model.AuthError.Message` | src/main/java/shopJava/util/Util.java:12-21 | the three exception messages, each a fixed prefix followed by the supplied username; its contract is `Model.MessageIdentifiesFailure` and `Util.FailureMessageNamesCheck` |
| `Model.MessageIdentifiesFailure` | src/main/java/shopJava/util/Util.java:12-21 | two failure messages are equal exactly when the failures are equal, so a message identifies the failed check and the username |
| `Util.FailureMessageNamesCheck` | src/main/java/shopJava/util/Util.java:12-21 | a failed check's message is "User unknown: " + username exactly when no user was found. It is "Incorrect username: " + username exactly when the name differs. It is "Bad password supplied for user: " + username exactly when the name matches |
| `Gateway.FindUser` | src/main/java/shopJava/queries/QueryJ04bCompletionStageCompleteRefactored.java:52-57 | empty exactly when no user is stored under the key, otherwise the stored user; a faulty users collection fails with its fault |
| `Gateway.UserDocs` | src/main/java/shopJava/queries/QueryJ08RxStreamsWithObservables.java:45-49 | the `first()` query streams exactly the user stored under the key, or nothing when the key is absent; a faulty users collection fails with its fault |
| `Gateway.FirstOrNone` | src/main/java/shopJava/queries/QueryJ07aRxObservables.java:51 | a list of size 0 gives empty, any other list gives its first element |
| `Gateway.UserDocsAgreeWithFindUser` | src/main/java/shopJava/queries/QueryJ07aRxObservables.java:45-51 | collecting the zero-or-one documents and taking the head gives the same answer as `Optional.ofNullable(first())` |
| `Gateway.OrdersOf` | src/main/java/shopJava/queries/QueryJ04bCompletionStageCompleteRefactored.java:59-65 | the selected orders all come from the collection, all belong to the username, and are no more than the collection holds |
| `Gateway.OrdersOfAppend` | src/main/java/shopJava/queries/QueryJ04bCompletionStageCompleteRefactored.java:60-62 | selection distributes over concatenation, so the store's order is kept |
| `Gateway.OrdersOfCount` | src/main/java/shopJava/queries/QueryJ04bCompletionStageCompleteRefactored.java:60-62 | each of the user's orders is kept as many times as it occurs; no other order is kept |
| `Gateway.OrdersOfKeepsOwned` | src/main/java/shopJava/queries/QueryJ04bCompletionStageCompleteRefactored.java:60-62 | a collection holding only the user's orders is returned whole |
| `Gateway.OrderDocs` | src/main/java/shopJava/queries/QueryJ08RxStreamsWithObservables.java:51-54 | the order query yields exactly the selected orders, or fails with the orders collection's fault |
| `Pipeline.Then` | src/main/java/shopJava/queries/QueryJ04bCompletionStageCompleteRefactored.java:111-112 | `thenCompose`: the next stage runs only on success and its queries follow the first stage's; its contract is `Pipeline.ThenShortCircuits`, `Pipeline.ThenContinues` and `Pipeline.ThenAssociative` |
| `Pipeline.Apply` | src/main/java/shopJava/queries/QueryJ04bCompletionStageCompleteRefactored.java:97-98 | `thenApply` with a step that may throw, issuing no query; its contract is `Pipeline.ApplyThenFuses` |
| `Model.Outcome.Bind` | src/main/java/shopJava/queries/QueryJ04bCompletionStageCompleteRefactored.java:97-98 | a step that may throw, applied to a successful value, with a failure passed through; its contract is `Model.BindAssociative` and `Rx.MapSingle` |
| `Pipeline.FetchUser` | src/main/java/shopJava/queries/QueryJ04bCompletionStageCompleteRefactored.java:68-71 | the user lookup as a stage that records its one query; its contract is `Pipeline.LogInOutcome` |
| `Pipeline.FetchOrders` | src/main/java/shopJava/queries/QueryJ04bCompletionStageCompleteRefactored.java:73-76 | the order lookup as a stage that records its one query; its contract is `Pipeline.ProcessOrdersOfOutcome` |
| `Pipeline.ThenContinues` | src/main/java/shopJava/queries/QueryJ04bCompletionStageCompleteRefactored.java:112 | after a successful stage, `thenCompose` yields the next stage's outcome, and the next stage's queries follow the first stage's |
| `Pipeline.ThenShortCircuits` | src/main/java/shopJava/queries/QueryJ04bCompletionStageCompleteRefactored.java:112 | a failed stage passes its failure through `thenCompose`, whatever the next stage is, and issues no further query |
| `Model.BindAssociative` | src/main/java/shopJava/queries/QueryJ04bCompletionStageCompleteRefactored.java:95-98 | two `thenApply` steps that may throw, applied one after the other, equal their composition applied once |
| `Pipeline.ThenAssociative` | src/main/java/shopJava/queries/QueryJ04bCompletionStageCompleteRefactored.java:111-112 | `thenCompose` is associative: composing stages gives the same outcome and the same queries however the chain is grouped |
| `Pipeline.ApplyThenFuses` | src/main/java/shopJava/queries/QueryJ04bCompletionStageCompleteRefactored.java:95-112 | a `thenApply` step followed by `thenCompose` equals composing with the step lifted to a stage that issues no query, so `logIn`'s `thenApply` steps fuse into the run's `thenCompose` chain |
| `Pipeline.LogIn` | src/main/java/shopJava/queries/QueryJ04bCompletionStageCompleteRefactored.java:95-100 | the generic `logIn`: one user lookup, the check, then the name; its contract is `Pipeline.LogInOutcome` |
| `Pipeline.ProcessOrdersOf` | src/main/java/shopJava/queries/QueryJ04bCompletionStageCompleteRefactored.java:102-105 | the generic `processOrdersOf`: one order lookup, then `Result(username, orders)`; its contract is `Pipeline.ProcessOrdersOfOutcome` |
| `Pipeline.Run` | src/main/java/shopJava/queries/QueryJ04bCompletionStageCompleteRefactored.java:111-112 | one run, `logIn` then `thenCompose(processOrdersOf)`; its contract is `Pipeline.RunSucceeds`, `Pipeline.RunShortCircuits` and `Pipeline.OrdersQueriedOnlyAfterLogIn` |
| `Pipeline.LogInOutcome` | src/main/java/shopJava/queries/QueryJ04bCompletionStageCompleteRefactored.java:95-98 | login issues one user lookup. It succeeds, with the supplied username, exactly when the store answers and the stored record authenticates. Otherwise it carries the store's fault or the check's failure unchanged |
| `Pipeline.ProcessOrdersOfOutcome` | src/main/java/shopJava/queries/QueryJ04bCompletionStageCompleteRefactored.java:102-105 | `processOrdersOf(u)` issues one order query and yields `Result(u, orders)` with exactly u's orders, or the store's fault |
| `Pipeline.RunShortCircuits` | src/main/java/shopJava/queries/QueryJ04bCompletionStageCompleteRefactored.java:111-118 | after a failed login the run ends with the login's failure; only the user lookup was issued |
| `Pipeline.RunSucceeds` | src/main/java/shopJava/queries/QueryJ04bCompletionStageCompleteRefactored.java:111-115 | a run succeeds exactly when login succeeds and the order query answers. The result then names the authenticated user and holds exactly that user's orders, in store order. The queries are the user lookup and then the order lookup for that name. When login succeeds but the orders collection is faulty, the run ends with that fault unchanged |
| `Pipeline.OrdersQueriedOnlyAfterLogIn` | src/main/java/shopJava/queries/QueryJ04bCompletionStageCompleteRefactored.java:111-112 | every order query of a run is for the name that a successful login returned |
| `Pipeline.NoCrossRunLeakage` | src/main/java/shopJava/queries/QueryJ04bCompletionStageCompleteRefactored.java:102-105 | successful runs for two different usernames share no order |
| `Pipeline.ToUpperCase` | src/main/java/shopJava/queries/QueryJ04bCompletionStageCompleteRefactored.java:131 | upper-casing keeps the length, turns each ASCII lower-case letter into its upper-case counterpart, leaves no lower-case letter and changes nothing else |
| `Pipeline.UpperCaseDiffers` | src/main/java/shopJava/queries/QueryJ04bCompletionStageCompleteRefactored.java:131 | a name with a lower-case letter differs from its upper-cased form, so the third demo run looks up another key |
| `Pipeline.WrongPasswordRun` | src/main/java/shopJava/queries/QueryJ08RxStreamsWithObservables.java:95 | the wrong-password run fails with BadPassword when the stored record's name equals the supplied name, and with IncorrectUsername otherwise |
| `Pipeline.DemoCredentials` | src/main/java/shopJava/queries/QueryJ04bCompletionStageCompleteRefactored.java:127-131 | the constructor's three credentials: right password, wrong password, upper-cased name; its contract is `Pipeline.DemoRuns` |
| `Pipeline.DemoRuns` | src/main/java/shopJava/queries/QueryJ04bCompletionStageCompleteRefactored.java:127-131 | with `lisa/password` stored and nothing under the upper-cased key, the three runs give: lisa's orders; BadPassword(lisa); UserUnknown of the upper-cased name |
| `Sink.Report` | src/main/java/shopJava/queries/QueryJ04bCompletionStageCompleteRefactored.java:113-118 | a run's outcome becomes exactly one console line: the result shown on success, the failure reported on failure |
| `Sink.Console.Display` | src/main/java/shopJava/queries/QueryJ07aRxObservables.java:84-86 | displaying a result appends exactly one line showing it |
| `Sink.Console.ReportError` | src/main/java/shopJava/queries/QueryJ07aRxObservables.java:87-88 | reporting a failure appends exactly one line carrying it |
| `Futures.Executor.Execute` | src/main/java/shopJava/queries/QueryJ04bCompletionStageCompleteRefactored.java:82 | the pool runs the task once and stays open |
| `Futures.Executor.Shutdown` | src/main/java/shopJava/queries/QueryJ04bCompletionStageCompleteRefactored.java:120 | the pool is shut down and has run no further task |
| `Futures.CompletableFuture.Complete` | src/main/java/shopJava/queries/QueryJ04bCompletionStageCompleteRefactored.java:84 | completes with the value only if not yet completed, and reports whether this call completed it |
| `Futures.CompletableFuture.CompleteExceptionally` | src/main/java/shopJava/queries/QueryJ04bCompletionStageCompleteRefactored.java:86 | completes with the failure only if not yet completed, and reports whether this call completed it |
| `Futures.ProvideResultAsync` | src/main/java/shopJava/queries/QueryJ04bCompletionStageCompleteRefactored.java:78-91 | the supplier runs once on the pool, and a fresh future completes once: with the supplier's value, or exceptionally with what it threw |
| `Futures.LookUpOrders` | src/main/java/shopJava/queries/QueryJ04bCompletionStageCompleteRefactored.java:59-66 | walking the cursor into a list gives exactly the user's orders in store order, or the collection's fault |
| `Futures.FindUserByName` | src/main/java/shopJava/queries/QueryJ04bCompletionStageCompleteRefactored.java:68-71 | the future completes with the user lookup's answer after one user query on the pool |
| `Futures.FindOrdersByUsername` | src/main/java/shopJava/queries/QueryJ04bCompletionStageCompleteRefactored.java:73-76 | the future completes with the order lookup's answer after one order query on the pool |
| `Futures.LogIn` | src/main/java/shopJava/queries/QueryJ04bCompletionStageCompleteRefactored.java:95-100 | the two `thenApply` steps over the completed user lookup; its contract is `Futures.LogInReduces` |
| `Futures.ProcessOrdersOf` | src/main/java/shopJava/queries/QueryJ04bCompletionStageCompleteRefactored.java:102-105 | the `thenApply` step over the completed order lookup; its contract is `Futures.ProcessOrdersOfReduces` |
| `Futures.LogInReduces` | src/main/java/shopJava/queries/QueryJ04bCompletionStageCompleteRefactored.java:95-98 | the `thenApply` login over the completed lookup equals the pipeline's login |
| `Futures.ProcessOrdersOfReduces` | src/main/java/shopJava/queries/QueryJ04bCompletionStageCompleteRefactored.java:102-105 | the `thenApply` order stage equals the pipeline's order stage |
| `Futures.Shop.ECommerceStatistics` | src/main/java/shopJava/queries/QueryJ04bCompletionStageCompleteRefactored.java:107-123 | the pool runs exactly the pipeline run's queries, so no order query follows a failed login. The console gets exactly one line, for the run's outcome. The pool is shut down exactly when the run is flagged as last |
| `Futures.Shop.WhenComplete` | src/main/java/shopJava/queries/QueryJ04bCompletionStageCompleteRefactored.java:113-122 | takes exactly one branch, display or report; shuts the pool down only for the last run |
| `Futures.Shop.constructor` | src/main/java/shopJava/queries/QueryJ04bCompletionStageCompleteRefactored.java:125-132 | the three demo runs print their three outcomes in order, the pool runs their queries in order, and the pool is shut down at the end |
| `Rx.Map` | src/main/java/shopJava/queries/QueryJ07aRxObservables.java:66-67 | items are mapped in order up to the first that the function rejects. That rejection becomes the error and later items are dropped. If none is rejected, the source's terminal event is kept |
| `Rx.FlatMap` | src/main/java/shopJava/queries/QueryJ07aRxObservables.java:81-82 | a source without items never consults the continuation and keeps its terminal event. One item then completion gives the continuation's stream. Completion needs every inner stream to complete |
| `Rx.MapSingle` | src/main/java/shopJava/queries/QueryJ07aRxObservables.java:66-67 | mapping a stream of at most one item binds its outcome |
| `Rx.FromCursor` | src/main/java/shopJava/queries/QueryJ08RxStreamsWithObservables.java:59 | a cursor as a stream: every document then completion, or the fault alone; its contract is `Rx.ToListFromCursor` |
| `Rx.ToList` | src/main/java/shopJava/queries/QueryJ07aRxObservables.java:59 | `toList` emits one list of everything on completion, or only the error; its contract is `Rx.ToListFromCursor` |
| `Rx.ToListFromCursor` | src/main/java/shopJava/queries/QueryJ07aRxObservables.java:54-59 | `toList` of a cursor emits one list of all its documents, or only the fault |
| `Rx.FlatMapSingle` | src/main/java/shopJava/queries/QueryJ07aRxObservables.java:81-82 | `flatMap` over at most one item gives the continuation's stream on success, or the failure alone |
| `Rx.LinesOfSingle` | src/main/java/shopJava/queries/QueryJ07aRxObservables.java:83-94 | a stream of at most one result prints exactly its outcome's line |
| `Rx.CountDownLatch.CountDown` | src/main/java/shopJava/queries/QueryJ07aRxObservables.java:89 | decrements the count and stops at zero |
| `Rx.Subscribe` | src/main/java/shopJava/queries/QueryJ07aRxObservables.java:83-94 | every item is shown in order and the error, if any, is reported. Only the single terminal event counts the latch down, and it does so once |
| `RxObservables.FindUserByName` | src/main/java/shopJava/queries/QueryJ07aRxObservables.java:45-52 | `first()`, `toList()`, then empty list to empty optional, else its head; its contract is `RxObservables.FindUserByNameReduces` |
| `RxObservables.FindOrdersByUsername` | src/main/java/shopJava/queries/QueryJ07aRxObservables.java:54-60 | the matching orders collected into one list; its contract is `RxObservables.ProcessOrdersOfReduces` |
| `RxObservables.LogIn` | src/main/java/shopJava/queries/QueryJ07aRxObservables.java:64-68 | check the optional user, then emit the name; its contract is `RxObservables.LogInReduces` |
| `RxObservables.ProcessOrdersOf` | src/main/java/shopJava/queries/QueryJ07aRxObservables.java:70-73 | emit `Result(username, orders)` for the collected orders; its contract is `RxObservables.ProcessOrdersOfReduces` |
| `RxObservables.Statistics` | src/main/java/shopJava/queries/QueryJ07aRxObservables.java:81-82 | `logIn(credentials).flatMap(processOrdersOf)`; its contract is `RxObservables.StatisticsReduces` |
| `RxObservables.FindUserByNameReduces` | src/main/java/shopJava/queries/QueryJ07aRxObservables.java:45-52 | the list-to-optional lookup emits exactly the direct lookup's answer |
| `RxObservables.LogInReduces` | src/main/java/shopJava/queries/QueryJ07aRxObservables.java:64-68 | the observable login emits the pipeline login's name, or only its failure |
| `RxObservables.ProcessOrdersOfReduces` | src/main/java/shopJava/queries/QueryJ07aRxObservables.java:70-73 | the observable order stage emits `Result(u, orders)` for exactly u's orders, or only the fault |
| `RxObservables.StatisticsReduces` | src/main/java/shopJava/queries/QueryJ07aRxObservables.java:81-82 | the `flatMap` chain emits the pipeline run's result then completes, or emits only its failure |
| `RxObservables.ECommerceStatistics` | src/main/java/shopJava/queries/QueryJ07aRxObservables.java:75-97 | the console gets exactly the run's outcome line, and the latch is released on return |
| `RxObservables.Demonstrate` | src/main/java/shopJava/queries/QueryJ07aRxObservables.java:99-106 | the three demo runs print their three outcomes in order |
| `RxStreams.FindUserByName` | src/main/java/shopJava/queries/QueryJ08RxStreamsWithObservables.java:45-49 | the zero-or-one user documents as a stream; its contract is `RxStreams.LogInReduces` |
| `RxStreams.FindOrdersByUsername` | src/main/java/shopJava/queries/QueryJ08RxStreamsWithObservables.java:51-54 | the matching order documents as a stream, in store order; its contract is `RxStreams.ProcessOrdersOfReduces` |
| `RxStreams.LogIn` | src/main/java/shopJava/queries/QueryJ08RxStreamsWithObservables.java:58-65 | documents to list, list to optional, check, then the name; its contract is `RxStreams.LogInReduces` |
| `RxStreams.ProcessOrdersOf` | src/main/java/shopJava/queries/QueryJ08RxStreamsWithObservables.java:67-72 | order documents collected, then `Result(username, orders)`; its contract is `RxStreams.ProcessOrdersOfReduces` |
| `RxStreams.Statistics` | src/main/java/shopJava/queries/QueryJ08RxStreamsWithObservables.java:80-81 | `logIn(credentials).flatMap(processOrdersOf)`; its contract is `RxStreams.StatisticsReduces` |
| `RxStreams.LogInReduces` | src/main/java/shopJava/queries/QueryJ08RxStreamsWithObservables.java:58-65 | documents, list, optional, check and name together emit the pipeline login's name, or only its failure |
| `RxStreams.ProcessOrdersOfReduces` | src/main/java/shopJava/queries/QueryJ08RxStreamsWithObservables.java:67-72 | the stream order stage emits `Result(u, orders)` for exactly u's orders in order, or only the fault |
| `RxStreams.StatisticsReduces` | src/main/java/shopJava/queries/QueryJ08RxStreamsWithObservables.java:80-81 | the chain emits what the pipeline run gives, and exactly what the observable back-end emits |
| `RxStreams.ECommerceStatistics` | src/main/java/shopJava/queries/QueryJ08RxStreamsWithObservables.java:74-89 | the console gets exactly the run's outcome line, and the latch is released on return |
| `RxStreams.Demonstrate` | src/main/java/shopJava/queries/QueryJ08RxStreamsWithObservables.java:91-98 | the three demo runs print their three outcomes in order |

## Left out

- MongoDB client construction, databases and collections, and the `find(eq(...))`, `first()` and `into` calls are abstracted. The users collection is a map keyed by `_id`, and the orders collection is a sequence filtered by owner.
- BSON decoding and the `User(Document)` and `Order(Document)` constructors are not modelled: a document is the record it decodes to. `shopJava.model` and `shopJava.util.Constants` are not part of this model, so the demo's `LISA` is a parameter.
- Store faults are one fault per collection. Every query on a faulty collection fails before yielding any document. A cursor that fails part-way through is not modelled.
- Thread-pool scheduling, Rx schedulers and blocking in `latch.await()` are not modelled. Runs execute one after another, and each run completes before the next starts, which is what the two-second sleeps between runs rely on.
- `Util.sleep` and `Thread.sleep` are left out: they are timing only.
- Console output and `Result.display()` are left out. A console line records what is shown or reported, not its text. The header `--- Calculating eCommerce statistings for user ...` that each run prints first is not recorded, so "one line" per run means the one recorded outcome line.
- `Futures.Executor.Execute`: requires a pool that is not shut down, and so do `Futures.ProvideResultAsync`, `Futures.FindUserByName` and `Futures.FindOrdersByUsername`, which submit through it. Java throws a `RejectedExecutionException` instead; that exception is not modelled.
- `Futures.Shop.ECommerceStatistics`: requires a pool that is not shut down. The `RejectedExecutionException` that Java throws for a task submitted after shutdown is not modelled. The demonstration never submits one; the constructor's proof shows this.
- `Futures.Shop.ECommerceStatistics`: the failure it reports is the cause. Java wraps it in a `CompletionException` before `whenComplete` sees it.
- The thrown `RuntimeException(IllegalAccessException(...))` is modelled as an `AuthError` value that keeps its message text. Exception classes and `toString` are not modelled.
- `Rx.FlatMap` runs inner streams one after another. RxJava's `flatMap` merges concurrently subscribed inner streams. The two agree here because login emits at most one name (`RxObservables.LogInReduces`).
- `Pipeline.ToUpperCase` upper-cases ASCII letters only. Java's `toUpperCase` is Unicode- and locale-aware.
- In the source, the thread pool is a static field created when the class loads. In the model, `Futures.Shop` owns it.
