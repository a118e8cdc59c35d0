/** Where the two builds of the builder part ways at completion. */
module Variants {
  import opened HttpResponse
  import DistRequest
  import SrcRequest

  /** With a handler registered and a status below 400, the distribution build calls `onSuccess`, the source build `onError`. */
  lemma RegisteredHandlerBelow400(status: int, responseText: string, id: nat, debug: bool)
    requires status < 400
    ensures CallSuccess(Response(responseText, status)) in DistRequest.DistCompletion(4, status, responseText, Handler(id))
    ensures CallError(Response(responseText, status)) in SrcRequest.SrcCompletion(4, status, responseText, Handler(id), debug)
    ensures CallSuccess(Response(responseText, status)) !in SrcRequest.SrcCompletion(4, status, responseText, Handler(id), debug)
  {
  }

  /** Without a handler and with a status of at least 400, the distribution build calls `onSuccess`; the source build calls nothing. */
  lemma UnhandledFailure(status: int, responseText: string, debug: bool)
    requires status >= 400
    ensures CallSuccess(Response(responseText, status)) in DistRequest.DistCompletion(4, status, responseText, NoHandler)
    ensures Callbacks(SrcRequest.SrcCompletion(4, status, responseText, NoHandler, debug)) == []
  {
  }

  /** With a function handler and a status of at least 400, both builds call exactly `onError`. */
  lemma HandledFailureAgrees(status: int, responseText: string, id: nat, debug: bool)
    requires status >= 400
    ensures Callbacks(DistRequest.DistCompletion(4, status, responseText, Handler(id))) == [CallError(Response(responseText, status))]
    ensures Callbacks(SrcRequest.SrcCompletion(4, status, responseText, Handler(id), debug)) == [CallError(Response(responseText, status))]
  {
    assert DistRequest.DistCompletion(4, status, responseText, Handler(id)) == [Log] + [CallError(Response(responseText, status))];
    CallbacksAppend([Log], [CallError(Response(responseText, status))]);
    SrcRequest.HandlerSuppressesSuccess(status, responseText, id, debug);
  }
}
