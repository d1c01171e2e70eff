/** Go error values as the worker produces and inspects them, the `host.Error`
    type of app/repositories/containerHost/errors.go, go.uber.org/multierr's
    Combine, and the HTTP status codes the worker answers with. */
module Errors {

  datatype Option<+T> = None | Some(value: T)

  /** A Go `error` value, by dynamic type. */
  datatype Error =
    | Message(text: string)                        // errors.New / fmt.Errorf: known by its text only
    | HostError(StatusCode: int, message: string)  // host.Error
    | Combined(errors: seq<Error>)                 // multierr's error of two or more failures

  /** A Go `(T, error)` pair where exactly one side is meaningful. */
  datatype Result<+T> = Ok(value: T) | Fail(error: Error)

  const StatusForbidden := 403
  const StatusBadRequest := 400
  const StatusConflict := 409
  const StatusInternalServerError := 500
  const StatusServiceUnavailable := 503

  /** The text `err.Error()` returns. A combined error joins its parts with "; ". */
  function Text(e: Error): string
    decreases e, 1
  {
    match e
    case Message(t) => t
    case HostError(_, m) => m
    case Combined(es) => JoinTexts(es)
  }

  function JoinTexts(es: seq<Error>): string
    decreases es, 0
  {
    if es == [] then ""
    else if |es| == 1 then Text(es[0])
    else Text(es[0]) + "; " + JoinTexts(es[1..])
  }

  /** fmt.Errorf(prefix + "%v", e): a new plain error whose text embeds e's. */
  function Errorf(prefix: string, e: Error): (r: Error)
    ensures r.Message? && Text(r) == prefix + Text(e)
  {
    Message(prefix + Text(e))
  }

  /** newError(message, status): a host.Error that reports `message` and carries `status`. */
  function NewError(message: string, status: int): (e: Error)
    ensures e.HostError? && e.StatusCode == status
    ensures Text(e) == message
  {
    HostError(status, message)
  }

  /** ErrHostExists: the conflict the LXD driver reports for a taken container name. */
  const ErrHostExists: Error := NewError("container host aleady exists", StatusConflict)

  lemma ErrHostExistsIsConflict()
    ensures ErrHostExists.HostError?
    ensures ErrHostExists.StatusCode == 409
    ensures Text(ErrHostExists) == "container host aleady exists"
  {
  }

  /** The non-nil errors of `errs`, in order. */
  function Failures(errs: seq<Option<Error>>): (fs: seq<Error>)
    ensures |fs| <= |errs|
    ensures |fs| == 0 <==> forall i :: 0 <= i < |errs| ==> errs[i].None?
    ensures forall e :: e in fs <==> exists i :: 0 <= i < |errs| && errs[i] == Some(e)
  {
    if errs == [] then []
    else
      var rest := Failures(errs[1..]);
      assert forall i :: 0 < i < |errs| ==> errs[i] == errs[1..][i - 1];
      match errs[0]
      case None => rest
      case Some(e) => [e] + rest
  }

  /** multierr.Combine: nil when every argument is nil, the single failure itself
      when there is exactly one, otherwise one error holding all of them in order. */
  function Combine(errs: seq<Option<Error>>): (r: Option<Error>)
    ensures r.None? <==> forall i :: 0 <= i < |errs| ==> errs[i].None?
    ensures |Failures(errs)| == 1 ==> r == Some(Failures(errs)[0])
    ensures |Failures(errs)| >= 2 ==> r == Some(Combined(Failures(errs)))
  {
    var fs := Failures(errs);
    if |fs| == 0 then None
    else if |fs| == 1 then Some(fs[0])
    else Some(Combined(fs))
  }
}
