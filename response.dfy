/**
  `KasimirHttpResponse` and what happens when a request completes: the
  callbacks that fire and the diagnostic side effects around them.
 */
module HttpResponse {

  /**
    The immutable response handed to one callback: the raw body and the status
    code.  The back-reference to the originating request is not modelled.
   */
  datatype Response = Response(body: string, status: int) {

    /** `getBody()`: the body as received, unchanged. */
    function GetBody(): (b: string)
      ensures b == body
    {
      body
    }

    /** `isOk()`: `status === 200`, exact equality rather than the 2xx range. */
    function IsOk(): (ok: bool)
      ensures ok <==> status == 200
    {
      status == 200
    }
  }

  /** Only 200 is ok: every other 2xx status is not. */
  lemma OnlyStatus200IsOk(body: string, status: int)
    requires 200 <= status < 300 && status != 200
    ensures !Response(body, status).IsOk()
  {
  }

  /**
    The value stored by `withOnError`: `null` (never set), a function (`id`
    stands for its identity), or some other non-null value.
   */
  datatype OnErrorValue = NoHandler | Handler(id: nat) | NotAFunction

  /**
    One observable effect of the completion handler, in the order it happens.
    `Log`, `Warn` and `Alert` stand for `console.log`, `console.warn` and
    `alert` (their messages are not modelled); `TypeErrorThrown` is the
    exception raised by calling a non-function.
   */
  datatype Effect =
    | Log
    | Warn
    | Alert
    | CallSuccess(response: Response)
    | CallError(response: Response)
    | TypeErrorThrown

  predicate IsCallback(e: Effect) {
    e.CallSuccess? || e.CallError?
  }

  /** The callbacks among `effects`, in order. */
  function Callbacks(effects: seq<Effect>): (r: seq<Effect>)
    ensures |r| <= |effects|
    ensures forall e :: e in r <==> e in effects && IsCallback(e)
    decreases |effects|
  {
    if effects == [] then []
    else if IsCallback(effects[0]) then [effects[0]] + Callbacks(effects[1..])
    else Callbacks(effects[1..])
  }

  /** The callbacks of consecutive effects are those of each part, consecutively. */
  lemma {:induction false} CallbacksAppend(a: seq<Effect>, b: seq<Effect>)
    ensures Callbacks(a + b) == Callbacks(a) + Callbacks(b)
    decreases |a|
  {
    if a != [] {
      assert (a + b)[1..] == a[1..] + b;
      CallbacksAppend(a[1..], b);
    } else {
      assert a + b == b;
    }
  }

  /** The effects without the alerts. */
  function WithoutAlerts(effects: seq<Effect>): (r: seq<Effect>)
    ensures |r| <= |effects|
    ensures forall e :: e in r <==> e in effects && e != Alert
    decreases |effects|
  {
    if effects == [] then []
    else if effects[0] == Alert then WithoutAlerts(effects[1..])
    else [effects[0]] + WithoutAlerts(effects[1..])
  }
}
