/** The console a run reports to: one line per displayed result or reported failure. */
module Sink {
  import opened Model

  /** What reaches the console: a displayed result (`Result.display()`) or a reported failure. */
  datatype Line = Shown(result: Result) | ErrorReported(error: Error)

  /** The line a run's terminal outcome puts on the console. */
  function Report(outcome: Outcome<Result>): (line: Line)
    ensures line.Shown? <==> outcome.Success?
    ensures line.Shown? ==> line.result == outcome.value
    ensures line.ErrorReported? ==> line.error == outcome.error
  {
    match outcome
    case Success(r) => Shown(r)
    case Failure(e) => ErrorReported(e)
  }

  class Console {
    var lines: seq<Line>

    constructor()
      ensures lines == []
    {
      lines := [];
    }

    /** `result.display()` */
    method Display(result: Result)
      modifies this
      ensures lines == old(lines) + [Shown(result)]
    {
      lines := lines + [Shown(result)];
    }

    /** `System.err.println(t.toString())` */
    method ReportError(error: Error)
      modifies this
      ensures lines == old(lines) + [ErrorReported(error)]
    {
      lines := lines + [ErrorReported(error)];
    }
  }
}
