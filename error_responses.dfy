/** The handler's translation of a service error into an HTTP status and JSON body. */
module ErrorResponses {
  import opened Common
  import opened AppErrors

  datatype Response = Response(status: nat, body: string)

  /**
   * NotFound is tested first and answers 404 with the error text, then
   * InvalidInput answers 400 with the error text; anything else is a 500
   * whose body hides the text.
   */
  function HandleError(e: Error): (r: Response)
    ensures r.status in {400, 404, 500}
    ensures r.status == 404 <==> IsNotFound(e)
    ensures r.status == 400 <==> IsInvalidInput(e) && !IsNotFound(e)
    ensures r.status == 500 <==> !IsNotFound(e) && !IsInvalidInput(e)
    ensures r.status != 500 ==> r.body == Text(e)
    ensures r.status == 500 ==> r.body == "internal server error"
  {
    if IsNotFound(e) then Response(404, Text(e))
    else if IsInvalidInput(e) then Response(400, Text(e))
    else Response(500, "internal server error")
  }

  /** Since an error has one kind, an InvalidInput error always answers 400. */
  lemma {:induction false} InvalidInputIsBadRequest(e: Error)
    requires IsInvalidInput(e)
    ensures HandleError(e) == Response(400, Text(e))
  {
    if IsNotFound(e) {
      KindUnique(e, NotFound, InvalidInput);
      assert false;
    }
  }

  /** Wrapping with context never changes the status; only the text grows. */
  lemma WrapKeepsStatus(e: Error, context: string)
    ensures HandleError(Wrap(Some(e), context).value).status == HandleError(e).status
  {
    WrapPreservesIs(e, context, Sentinel(NotFound));
    WrapPreservesIs(e, context, Sentinel(InvalidInput));
  }

  /** The constructors' errors reach the client as 404 and 400 with their text. */
  lemma ConstructorStatuses(resource: string, id: string, message: string)
    ensures HandleError(WrapNotFound(resource, id)).status == 404
    ensures HandleError(WrapInvalidInput(message)) == Response(400, message + ": invalid input")
  {
  }
}
