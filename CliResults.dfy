/**
 * `CliResult`: the one value the command-line tool reports. Its constructor is private, so
 * every result comes from `success` or `failure`; the content is a type parameter here.
 */
module CliResults {
  import opened Wrappers

  datatype CliResultType = Success | Failure

  datatype CliResult<C> = CliResult(resultType: CliResultType, session: Option<string>, content: Option<C>)

  /** `CliResult.success(session, content)`. */
  function SuccessResult<C>(session: Option<string>, content: Option<C>): (r: CliResult<C>)
    ensures r.resultType == Success && r.session == session && r.content == content
  {
    CliResult(Success, session, content)
  }

  /** `CliResult.failure(content)`: an error result never carries a session. */
  function FailureResult<C>(content: Option<C>): (r: CliResult<C>)
    ensures r.resultType == Failure && r.session == None && r.content == content
  {
    CliResult(Failure, None, content)
  }

  /** The results the two factories can build. */
  ghost predicate FromFactory<C>(r: CliResult<C>) {
    r == SuccessResult(r.session, r.content) || r == FailureResult(r.content)
  }

  /** A result comes from a factory exactly when it is not an error with a session. */
  lemma FactoryShapes<C>(r: CliResult<C>)
    ensures FromFactory(r) <==> (r.resultType == Failure ==> r.session == None)
  {
  }

  /** The types of a result and their names in the output. */
  function ResultTypeName(t: CliResultType): (name: string)
    ensures name == "SUCCESS" <==> t == Success
    ensures name == "ERROR" <==> t == Failure
  {
    match t
    case Success => "SUCCESS"
    case Failure => "ERROR"
  }
}
