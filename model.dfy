/** The shop's records and the value-or-failure outcome that every stage of a query run produces. */
module Model {

  datatype Option<+T> = None | Some(value: T)

  /** A stored user. The store keys it by `_id`, which need not equal `name`. */
  datatype User = User(name: string, password: string)

  /** What a login attempt supplies. */
  datatype Credentials = Credentials(username: string, password: string)

  /** An order document: its owner, and everything else as one opaque payload. */
  datatype Order = Order(username: string, payload: string)

  /** What a successful run hands to the console: the authenticated name and that user's orders. */
  datatype Result = Result(username: string, orders: seq<Order>)

  /** The three ways the authenticator rejects a login; each carries the username that was supplied. */
  datatype AuthError =
    | UserUnknown(username: string)
    | IncorrectUsername(username: string)
    | BadPassword(username: string)
  {
    /** The message of the `IllegalAccessException` the authenticator throws. */
    function Message(): string {
      match this
      case UserUnknown(u) => "User unknown: " + u
      case IncorrectUsername(u) => "Incorrect username: " + u
      case BadPassword(u) => "Bad password supplied for user: " + u
    }
  }

  /** A failure that ends a run: a rejected login, or the exception a store query threw. */
  datatype Error =
    | Denied(reason: AuthError)
    | StoreUnavailable(message: string)

  /** A completed computation: its value, or the failure it completed with. */
  datatype Outcome<+T> = Success(value: T) | Failure(error: Error)
  {
    /** Apply a step that may itself fail to a successful value; a failure passes through unchanged. */
    function Bind<U>(step: T -> Outcome<U>): Outcome<U> {
      match this
      case Success(v) => step(v)
      case Failure(e) => Failure(e)
    }
  }

  /** Binding two steps one after the other is binding their composition: a chain may be grouped either way. */
  lemma BindAssociative<T, U, V>(outcome: Outcome<T>, f: T -> Outcome<U>, g: U -> Outcome<V>)
    ensures outcome.Bind(f).Bind(g) == outcome.Bind(x => f(x).Bind(g))
  {
  }

  /** A failure message tells which check failed and for which supplied username. */
  lemma MessageIdentifiesFailure(a: AuthError, b: AuthError)
    ensures a.Message() == b.Message() <==> a == b
  {
    if a.Message() == b.Message() {
      var m := a.Message();
      // The first character tells the three messages apart.
      assert m[0] == b.Message()[0];
      assert a.UserUnknown? ==> m[14..] == a.username && b.Message()[14..] == b.username;
      assert a.IncorrectUsername? ==> m[20..] == a.username && b.Message()[20..] == b.username;
      assert a.BadPassword? ==> m[32..] == a.username && b.Message()[32..] == b.username;
    }
  }
}
