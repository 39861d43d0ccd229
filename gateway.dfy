/**
 * The relay's calls to the payment gateway and the replies its routes send.
 * Each helper wraps one gateway request in its own try/catch and falls back to
 * a fixed value when the request fails; each route wraps its helper in a second
 * try/catch whose catch branch, as a consequence, is never taken.
 */
module Gateway {
  import opened Wrappers
  import opened Decimal

  /**
   * What one request to the gateway produced: the response body, or a failure
   * (connection refused, non-2xx status, or any other rejection of the request).
   */
  datatype Outcome<T> = Responded(body: T) | Failed

  /** How a call to one of the relay's helpers completed: with a value, or by throwing. */
  datatype Completion<T> = Returned(value: T) | Threw

  /** The gateway's balance body: the raw balance as an integer and its decimal precision. */
  datatype BalanceBody = BalanceBody(balance: int, decimal: nat)

  /** The body posted to the gateway's `/order`. */
  datatype PayRequest = PayRequest(amount: real, orderid: string, params: PayParams)

  datatype PayParams = PayParams(name: string, desc: string, snapshot: string, other: Option<string>)

  /** The gateway's answer to `/order`; the relay reads only `frontend`. */
  datatype PayResult = PayResult(amount: real, declmal: nat, expire: nat, orderid: string, frontend: string, id: nat)

  /** A JSON reply's `data` member. */
  datatype Data = Text(text: string) | Number(number: real)

  /** What a route sends: a JSON object `{status, data?}`, or a raw page body. */
  datatype Reply = Json(status: bool, data: Option<Data>) | Page(body: string, html: bool)

  /**
   * balanceOf(): the gateway's balance scaled down by its decimal precision
   * (`parseInt(balance) / 10^decimal`), and 0 when the request fails. It never throws.
   */
  function BalanceOf(outcome: Outcome<BalanceBody>): (c: Completion<real>)
    ensures c.Returned?
    ensures outcome.Failed? ==> c.value == 0.0
    ensures outcome.Responded? ==> c.value * (Pow10(outcome.body.decimal) as real) == outcome.body.balance as real
  {
    match outcome
    case Responded(body) => Returned(body.balance as real / Pow10(body.decimal) as real)
    case Failed => Returned(0.0)
  }

  /**
   * The body requestPay posts: the order's amount and id, and its name,
   * description, snapshot (the empty string when none is given, as with
   * `snapshot || ''`) and extra parameters.
   */
  function PayRequestBody(name: string, desc: string, amount: real, orderid: string,
                          snapshot: Option<string>, params: Option<string>): (body: PayRequest)
    ensures body.orderid == orderid && body.amount == amount
    ensures body.params.name == name && body.params.desc == desc && body.params.other == params
    ensures snapshot.None? ==> body.params.snapshot == ""
    ensures snapshot.Some? ==> body.params.snapshot == snapshot.value
  {
    PayRequest(amount, orderid, PayParams(name, desc, match snapshot case None => "" case Some(s) => s, params))
  }

  /** requestPay(): the gateway's payment-page address, and '' when the request fails. It never throws. */
  function RequestPay(outcome: Outcome<PayResult>): (c: Completion<string>)
    ensures c.Returned?
    ensures outcome.Failed? ==> c.value == ""
    ensures outcome.Responded? ==> c.value == outcome.body.frontend
  {
    match outcome
    case Responded(result) => Returned(result.frontend)
    case Failed => Returned("")
  }

  /**
   * checkPay(): the `status` the gateway reports for the order, and `true` when
   * the request fails (failing open, so that the payment page is not closed).
   * It never throws.
   */
  function CheckPay(outcome: Outcome<bool>): (c: Completion<bool>)
    ensures c.Returned?
    ensures outcome.Failed? ==> c.value
    ensures outcome.Responded? ==> c.value == outcome.body
  {
    match outcome
    case Responded(status) => Returned(status)
    case Failed => Returned(true)
  }

  /** updatePay(): the payment page the gateway serves, and '' when the request fails. It never throws. */
  function UpdatePay(outcome: Outcome<string>): (c: Completion<string>)
    ensures c.Returned?
    ensures outcome.Failed? ==> c.value == ""
    ensures outcome.Responded? ==> c.value == outcome.body
  {
    match outcome
    case Responded(page) => Returned(page)
    case Failed => Returned("")
  }

  /** The `/transaction` route: the notice is only logged, and the reply is always `{status: true}`. */
  function TransactionReply(): (r: Reply)
    ensures r.Json? && r.status && r.data.None?
  {
    Json(true, None)
  }

  /** The `/createOrder` route's reply to what requestPay did: `{status: true, data}`, or `{status: true}` from its catch. */
  function CreateOrderReply(c: Completion<string>): (r: Reply)
    ensures r.Json? && r.status
    ensures r.data.Some? <==> c.Returned?
    ensures c.Returned? ==> r.data.value == Text(c.value)
  {
    match c
    case Returned(frontend) => Json(true, Some(Text(frontend)))
    case Threw => Json(true, None)
  }

  /** The `/balance` route's reply: `{status: true, data}`, or `{status: false}` from its catch. */
  function BalanceReply(c: Completion<real>): (r: Reply)
    ensures r.Json?
    ensures r.status <==> c.Returned?
    ensures r.data.Some? <==> c.Returned?
    ensures c.Returned? ==> r.data.value == Number(c.value)
  {
    match c
    case Returned(balance) => Json(true, Some(Number(balance)))
    case Threw => Json(false, None)
  }

  /**
   * The `/pay` route's reply: the page with its Content-Type set to text/html,
   * or an empty body from its catch. Express's `res.send` gives a string body
   * the Content-Type text/html when none is set, so both are served as HTML.
   */
  function PayReply(c: Completion<string>): (r: Reply)
    ensures r.Page? && r.html
    ensures c.Returned? ==> r.body == c.value
    ensures c.Threw? ==> r.body == ""
  {
    match c
    case Returned(page) => Page(page, true)
    case Threw => Page("", true)
  }

  /** The `/check` route's reply: `{status: result}`, or `{status: true}` from its catch. */
  function CheckReply(c: Completion<bool>): (r: Reply)
    ensures r.Json? && r.data.None?
    ensures r.status <==> c.Threw? || c.value
  {
    match c
    case Returned(status) => Json(status, None)
    case Threw => Json(true, None)
  }

  /**
   * The `/balance` route end to end: since balanceOf swallows every failure,
   * the route's own catch is never reached and the reply always has status true;
   * a failed gateway request shows up as a balance of 0, not as `{status: false}`.
   */
  function BalanceRoute(outcome: Outcome<BalanceBody>): (r: Reply)
    ensures r.Json? && r.status && r.data.Some? && r.data.value.Number?
    ensures outcome.Failed? ==> r.data.value.number == 0.0
    ensures outcome.Responded? ==> r.data.value.number == BalanceOf(outcome).value
  {
    BalanceReply(BalanceOf(outcome))
  }

  /**
   * The `/pay` route end to end: the gateway's page served as text/html, and an
   * empty text/html page when the gateway request fails; the route's catch is
   * never reached.
   */
  function PayRoute(outcome: Outcome<string>): (r: Reply)
    ensures r.Page? && r.html
    ensures r.body == if outcome.Responded? then outcome.body else ""
  {
    PayReply(UpdatePay(outcome))
  }

  /**
   * The `/check` route end to end: the gateway's status, and `{status: true}`
   * when the gateway request fails; the route's catch is never reached.
   */
  function CheckRoute(outcome: Outcome<bool>): (r: Reply)
    ensures r.Json? && r.data.None?
    ensures r.status <==> outcome.Failed? || outcome.body
  {
    CheckReply(CheckPay(outcome))
  }

  /**
   * The `/createOrder` reply end to end: always `{status: true}` with the
   * payment-page address as data, which is '' when the gateway request fails;
   * the route's catch is never reached.
   */
  function CreateOrderRoute(outcome: Outcome<PayResult>): (r: Reply)
    ensures r.Json? && r.status && r.data.Some? && r.data.value.Text?
    ensures r.data.value.text == if outcome.Responded? then outcome.body.frontend else ""
  {
    CreateOrderReply(RequestPay(outcome))
  }

  /**
   * On a failed gateway request every route answers with its own fixed
   * fallback, and the fallbacks differ: `/check` fails open with status true,
   * `/balance` reports 0 with status true, `/createOrder` reports '' with
   * status true, `/pay` serves an empty page, and `/transaction` (which calls
   * nothing) answers status true.
   */
  lemma FailureFallbacks()
    ensures CheckRoute(Failed) == Json(true, None)
    ensures BalanceRoute(Failed) == Json(true, Some(Number(0.0)))
    ensures CreateOrderRoute(Failed) == Json(true, Some(Text("")))
    ensures PayRoute(Failed) == Page("", true)
    ensures TransactionReply() == Json(true, None)
  {
  }

  /**
   * A route's catch branch is reached only if its helper throws, and no helper
   * does. Where the catch would answer differently (`/balance` with
   * `{status: false}`, `/createOrder` without data), no reply is that answer.
   */
  lemma CatchBranchesUnreachable(balance: Outcome<BalanceBody>, order: Outcome<PayResult>,
                                 status: Outcome<bool>, page: Outcome<string>)
    ensures BalanceRoute(balance) == BalanceReply(BalanceOf(balance)) && BalanceOf(balance) != Threw
    ensures CreateOrderRoute(order) == CreateOrderReply(RequestPay(order)) && RequestPay(order) != Threw
    ensures CheckRoute(status) == CheckReply(CheckPay(status)) && CheckPay(status) != Threw
    ensures PayRoute(page) == PayReply(UpdatePay(page)) && UpdatePay(page) != Threw
    ensures BalanceRoute(balance) != BalanceReply(Threw)
    ensures CreateOrderRoute(order) != CreateOrderReply(Threw)
  {
  }

  /**
   * On a failed gateway request `/pay` serves the same empty HTML page its
   * catch branch would: the fallback of updatePay and the route's catch agree.
   */
  lemma PayFallbackMatchesCatch()
    ensures PayRoute(Failed) == PayReply(Threw)
  {
  }

  /**
   * A raw balance of 123450 at precision 2 is reported as 1234.5: the division
   * is exact, not truncating.
   */
  lemma BalanceExample()
    ensures BalanceRoute(Responded(BalanceBody(123450, 2))) == Json(true, Some(Number(1234.5)))
  {
    assert Pow10(2) == 100;
  }
}
