/** What the test-series page and the paid-courses page share about buying through
    the payment widget: the order answer decides whether the widget opens, and
    the verification answer whether the purchase went through. */
module Gateway {
  import opened Base
  import opened Json

  const LOGIN_FIRST: string := "Please login to purchase this course"
  const ORDER_FAILED: string := "Order creation failed"
  const PAYMENT_FAILED: string := "Payment failed"
  const CANCELLED: string := "Payment cancelled"
  const VERIFY_FAILED: string := "Payment verification failed"
  /** What `new window.Razorpay(…)` throws when the widget script is not loaded. */
  const NO_WIDGET: string := "window.Razorpay is not a constructor"

  datatype Kind = Success | Error | Info

  /** How a `fetch(…).then(res => res.json())` chain ended: it threw (with the
      error's message) or it gave a parsed body. */
  datatype Outcome = Broken(message: string) | Body(data: Json)

  /** `data.success` of a verification answer. */
  predicate Verified(o: Outcome) {
    o.Body? && o.data != JNull && Truthy(Get(Some(o.data), "success"))
  }

  /** The message of a failed verification: the backend's message when it gives
      one, otherwise the fixed text (also for a request that threw). */
  function VerifyFailure(o: Outcome): (m: string)
    requires !Verified(o)
    ensures o.Broken? || o.data == JNull ==> m == VERIFY_FAILED
    ensures o.Body? && o.data != JNull && !Truthy(Get(Some(o.data), "message")) ==> m == VERIFY_FAILED
    ensures o.Body? && o.data != JNull && Truthy(Get(Some(o.data), "message")) ==>
              m == ToStr(Get(Some(o.data), "message"))
  {
    if o.Broken? || o.data == JNull then VERIFY_FAILED
    else MessageOr(Get(Some(o.data), "message"), VERIFY_FAILED)
  }

  /** The order step of `handlePayment`: `None` when the widget opens, otherwise
      the message the `catch` shows (`err.message || "Payment failed"`). A body
      without a truthy `success` and `order_id` throws its own message or
      "Order creation failed"; a missing widget throws a TypeError. */
  function OrderFailure(o: Outcome, widgetLoaded: bool): (m: Option<string>)
    ensures m.None? <==> o.Body? && o.data != JNull && Truthy(Get(Some(o.data), "success")) &&
                         Truthy(Get(Some(o.data), "order_id")) && widgetLoaded
    ensures m.Some? ==> m.value != []
    ensures (o.Body? && o.data != JNull &&
             !(Truthy(Get(Some(o.data), "success")) && Truthy(Get(Some(o.data), "order_id"))) &&
             !Truthy(Get(Some(o.data), "message"))) ==> m == Some(ORDER_FAILED)
    ensures (o.Body? && o.data != JNull &&
             !(Truthy(Get(Some(o.data), "success")) && Truthy(Get(Some(o.data), "order_id"))) &&
             Truthy(Get(Some(o.data), "message")) && ToStr(Get(Some(o.data), "message")) != []) ==>
              m == Some(ToStr(Get(Some(o.data), "message")))
    ensures o.Broken? && o.message != [] ==> m == Some(o.message)
  {
    var thrown :=
      if o.Broken? then o.message
      else if o.data == JNull then NullAccessError("success")
      else if !(Truthy(Get(Some(o.data), "success")) && Truthy(Get(Some(o.data), "order_id"))) then
        MessageOr(Get(Some(o.data), "message"), ORDER_FAILED)
      else if !widgetLoaded then NO_WIDGET
      else [];
    if o.Body? && o.data != JNull && Truthy(Get(Some(o.data), "success")) &&
       Truthy(Get(Some(o.data), "order_id")) && widgetLoaded
    then None
    else Some(if thrown != [] then thrown else PAYMENT_FAILED)
  }
}
