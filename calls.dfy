// The calls the server makes to the outside while it handles a request:
// the backend (`fetchMe`, `purchaseProduct`, the pixel and purchase
// posts) and the automation browser (`signBody`, the challenge-token
// reset).  Their results are inputs of the handlers; the calls themselves
// are recorded in order.

module Calls {
  import opened JsValues

  datatype Call =
    | FetchMe(token: Json)
    | PurchaseProduct(token: Json, productId: int, quantity: Num)
    | SignBody(id: Option<Json>, path: string, payload: Json)
    | PostPixel(path: string, payload: Json, cookieToken: Json, xpaw: Json)
    | ResetCaptcha
    | PostPurchase(payload: Json, cookieToken: Json)

  /** A backend answer: its status and its body, or no body. */
  datatype Upstream = Upstream(status: int, body: Option<string>)

  /** The answer to the i-th call of a kind; a call past the supplied
      answers failed, and the wrapper turns a failure into `null`. */
  function Answer(answers: seq<Json>, i: nat): Json
  {
    if i < |answers| then answers[i] else JNull
  }

  /** Two calls appended one at a time, then more. */
  lemma AppendTwo(made: seq<Call>, first: Call, second: Call, rest: seq<Call>)
    ensures made + [first] + [second] + rest == made + ([first, second] + rest)
  {
  }

  /** Three calls appended one at a time. */
  lemma AppendThree(made: seq<Call>, first: Call, second: Call, third: Call)
    ensures made + [first] + [second] + [third] == made + [first, second, third]
  {
  }
}
