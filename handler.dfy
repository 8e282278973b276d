/**
 * The decisions of bmx_handler in mod_bmx.c: which requests it serves
 * and which status each one gets.
 */
module Handler {
  import opened Wrappers
  import opened Bmx
  import opened QueryParser

  const BmxHandlerName := "bmx-handler"

  /** The parts of a request_rec the handler reads. */
  datatype Request = Request(handler: Option<string>, methodNumber: int, headerOnly: bool, args: Option<string>)

  /** The handler's status and the query it ran the query hooks with, if it ran them. */
  datatype Outcome = Outcome(status: int, hooksRanWith: Option<Query>)

  /** The request is for this handler: no handler name set, or exactly "bmx-handler". */
  predicate ForBmx(r: Request) {
    r.handler.None? || r.handler.value == BmxHandlerName
  }

  /**
   * bmx_handler. `runHooks` stands for bmx_run_query_hook with the
   * plain-text printer, giving the hooks' combined result for a query.
   */
  function Handle(r: Request, runHooks: Query -> int): (o: Outcome)
    ensures o.status == DECLINED <==> !ForBmx(r) || r.methodNumber != M_GET
    ensures o.hooksRanWith.Some? <==>
              ForBmx(r) && r.methodNumber == M_GET && !r.headerOnly && QueryOf(r.args).Some?
    ensures o.hooksRanWith.Some? ==> o.hooksRanWith == QueryOf(r.args)
    ensures o.status == HTTP_BAD_REQUEST <==>
              ForBmx(r) && r.methodNumber == M_GET && !r.headerOnly && QueryOf(r.args).None?
    ensures o.status == HTTP_INTERNAL_SERVER_ERROR <==>
              o.hooksRanWith.Some? && runHooks(o.hooksRanWith.value) != OK
    ensures o.status == OK <==>
              ForBmx(r) && r.methodNumber == M_GET &&
              (r.headerOnly || (o.hooksRanWith.Some? && runHooks(o.hooksRanWith.value) == OK))
  {
    if !ForBmx(r) then Outcome(DECLINED, None)
    else if r.methodNumber != M_GET then Outcome(DECLINED, None)
    else if r.headerOnly then Outcome(OK, None)
    else match QueryOf(r.args)
      case None => Outcome(HTTP_BAD_REQUEST, None)
      case Some(q) =>
        if runHooks(q) != OK then Outcome(HTTP_INTERNAL_SERVER_ERROR, Some(q))
        else Outcome(OK, Some(q))
  }

  /** A malformed query string on a GET to the handler is a bad request. */
  lemma MalformedIsBadRequest(r: Request, runHooks: Query -> int)
    requires ForBmx(r) && r.methodNumber == M_GET && !r.headerOnly
    requires r.args.Some?
    requires r.args.value != [] && r.args.value != AllQuery && !WellFormed(r.args.value)
    ensures Handle(r, runHooks).status == HTTP_BAD_REQUEST
  {
    EinvalIffMalformed(r.args.value);
  }
}
