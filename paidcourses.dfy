/** The paid-courses page (`src/components/paid-courses.tsx`): it loads the courses
    for the stored user (or for user 0), splits them into owned and available
    ones, and sells an available course through the payment widget. Each card has
    its own Buy button, so several purchases can be in progress at once; the page
    remembers only the id of the latest in `paymentLoading`. */
module PaidCourses {
  import opened Base
  import opened Text
  import opened Json
  import opened Seqs
  import opened Gateway

  const PAID_MSG: string := "✅ Payment successful! Course unlocked."
  const LOAD_FAILED: string := "Failed to load courses"

  /** The requests the page sends. */
  datatype Request =
    | GetCourses(userId: Val)
    | CreateOrder(amount: Option<int>)
    | VerifyPayment(orderId: Val, paymentId: Val, signature: Val, userId: Val, courseId: Val)

  predicate IsOrder(r: Request) { r.CreateOrder? }

  predicate IsVerify(r: Request) { r.VerifyPayment? }

  /** A purchase in progress, with the id of the course its callbacks close over. */
  datatype Purchase = Ordering(courseId: Val) | WidgetOpen(courseId: Val) | Verifying(courseId: Val)

  /** A purchase whose verification request has not been sent yet. */
  predicate BeforeVerify(p: Purchase) { p.Ordering? || p.WidgetOpen? }

  /** The user id the mount effect loads the courses for. `stored` is the text
      under key "user" and `parsed` what `JSON.parse` made of it (`None` when it
      threw). An absent or empty entry, a parse failure, and a null user (whose
      `id` cannot be read) all fall back to 0. */
  function StoredUserId(stored: Option<string>, parsed: Option<Json>): (id: Val)
    ensures stored.None? || stored == Some([]) || parsed.None? || parsed == Some(JNull) ==> id == Some(JNum(0))
    ensures stored.Some? && stored.value != [] && parsed.Some? && parsed.value != JNull ==> id == Get(parsed, "id")
  {
    if stored.None? || stored.value == [] || parsed.None? || parsed.value == JNull then Some(JNum(0))
    else Get(parsed, "id")
  }

  /** `c.paid` is truthy. */
  predicate IsPaid(c: Json) { Truthy(Get(Some(c), "paid")) }

  predicate IsUnpaid(c: Json) { !IsPaid(c) }

  datatype Sections = Sections(paid: seq<Json>, unpaid: seq<Json>)

  /** `courses.filter(c => c.paid)` and `courses.filter(c => !c.paid)`: every course
      lands in exactly one of the two lists, each in the original order. A value
      that is not an array has no `filter`, and reading `paid` of a `null` course
      throws, so the render fails in both cases. */
  function Split(courses: Val): (r: Result<Sections>)
    ensures r.Err? <==> !IsArray(courses) || JNull in courses.value.items
    ensures IsArray(courses) && JNull in courses.value.items ==> r == Err(NullAccessError("paid"))
    ensures r.Ok? ==> multiset(r.value.paid) + multiset(r.value.unpaid) == multiset(courses.value.items)
    ensures r.Ok? ==> |r.value.paid| + |r.value.unpaid| == |courses.value.items|
    ensures r.Ok? ==> IsSubsequence(r.value.paid, courses.value.items) &&
                      IsSubsequence(r.value.unpaid, courses.value.items)
    ensures r.Ok? ==> (forall i :: 0 <= i < |r.value.paid| ==> IsPaid(r.value.paid[i])) &&
                      (forall i :: 0 <= i < |r.value.unpaid| ==> !IsPaid(r.value.unpaid[i]))
  {
    if !IsArray(courses) then Err("courses.filter is not a function")
    else if JNull in courses.value.items then Err(NullAccessError("paid"))
    else
      var items := courses.value.items;
      FilterPartition(items, IsPaid, IsUnpaid);
      FilterIsSubsequence(items, IsPaid);
      FilterIsSubsequence(items, IsUnpaid);
      Ok(Sections(Filter(items, IsPaid), Filter(items, IsUnpaid)))
  }

  /** The "Owned" badge: the number of paid courses, which with the available
      ones makes up the whole list. */
  function Owned(courses: Val): (n: nat)
    requires IsArray(courses) && JNull !in courses.value.items
    ensures n <= |courses.value.items|
    ensures n + |Split(courses).value.unpaid| == |courses.value.items|
  {
    |Split(courses).value.paid|
  }

  /** `parseFloat(course.price)`; a price that does not start with digits is NaN. */
  function OrderAmount(course: Json): (a: Option<int>)
    ensures Get(Some(course), "price").Some? && Get(Some(course), "price").value.JNum? ==>
              a == Some(Get(Some(course), "price").value.n)
  {
    var price := Get(Some(course), "price");
    if price.Some? && price.value.JNum? then
      ParseFloatOfInt(price.value.n);
      ParseFloat(ToStr(price))
    else ParseFloat(ToStr(price))
  }

  /** A price sent as the decimal text of an integer is charged as that integer:
      `parseFloat` reads back what `String(n)` wrote. */
  lemma OrderAmountOfPrice(course: Json, n: int)
    requires Get(Some(course), "price") == Some(JStr(IntToStr(n)))
    ensures OrderAmount(course) == Some(n)
  {
    ParseFloatOfInt(n);
  }

  /** A card shows "Processing..." when `paymentLoading === course.id`. */
  predicate Processing(c: Json, paymentLoading: Val) {
    paymentLoading == Get(Some(c), "id")
  }

  /** Cards with distinct ids: at most one of them is "Processing". */
  lemma {:induction false} AtMostOneProcessing(cs: seq<Json>, paymentLoading: Val)
    requires forall i, j :: 0 <= i < j < |cs| ==> Get(Some(cs[i]), "id") != Get(Some(cs[j]), "id")
    ensures CountWhere(cs, c => Processing(c, paymentLoading)) <= 1
    decreases |cs|
  {
    if cs != [] {
      var front := cs[..|cs| - 1];
      assert forall i, j :: 0 <= i < j < |front| ==> front[i] == cs[i] && front[j] == cs[j];
      AtMostOneProcessing(front, paymentLoading);
      if Processing(cs[|cs| - 1], paymentLoading) {
        assert forall i :: 0 <= i < |front| ==> !Processing(front[i], paymentLoading) by {
          forall i | 0 <= i < |front|
            ensures !Processing(front[i], paymentLoading)
          {
            assert front[i] == cs[i];
          }
        }
        CountWhereZero(front, c => Processing(c, paymentLoading));
      }
    }
  }

  /** Starting a purchase adds one order request and one purchase before verification. */
  lemma OrderCounts(rs: seq<Request>, ps: seq<Purchase>, r: Request, p: Purchase)
    requires r.CreateOrder? && p.Ordering?
    ensures CountWhere(rs + [r], IsOrder) == CountWhere(rs, IsOrder) + 1
    ensures CountWhere(rs + [r], IsVerify) == CountWhere(rs, IsVerify)
    ensures CountWhere(ps + [p], BeforeVerify) == CountWhere(ps, BeforeVerify) + 1
  {
    CountWhereAppend(rs, r, IsOrder);
    CountWhereAppend(rs, r, IsVerify);
    CountWhereAppend(ps, p, BeforeVerify);
  }

  /** The page's state. `purchases` are the purchases in progress; `courseLoads`
      counts pending course loads. `paymentLoading` is `Some(JNull)` for null. */
  class Page {
    var user: Val
    var courses: Val
    var loading: bool
    var paymentLoading: Val
    var message: string
    var messageType: Kind
    var requests: seq<Request>
    var purchases: seq<Purchase>
    var courseLoads: nat

    /** Each verification request follows an order request of its own. */
    ghost predicate Valid()
      reads this
    {
      CountWhere(requests, IsVerify) + CountWhere(purchases, BeforeVerify) <= CountWhere(requests, IsOrder)
    }

    constructor ()
      ensures Valid()
      ensures user.None? && courses == Some(JArr([])) && loading && paymentLoading == Some(JNull)
      ensures message == [] && messageType == Info && requests == [] && purchases == [] && courseLoads == 0
    {
      user := None;
      courses := Some(JArr([]));
      loading := true;
      paymentLoading := Some(JNull);
      message := [];
      messageType := Info;
      requests := [];
      purchases := [];
      courseLoads := 0;
    }

    /** The mount effect: set the user when one was parsed, then load the courses
        for `StoredUserId`. */
    method Mount(stored: Option<string>, parsed: Option<Json>)
      modifies this
      ensures requests == old(requests) + [GetCourses(StoredUserId(stored, parsed))]
      ensures loading && courseLoads == old(courseLoads) + 1
      ensures stored.Some? && stored.value != [] && parsed.Some? ==> user == parsed
      ensures stored.None? || stored == Some([]) || parsed.None? ==> user == old(user)
      ensures courses == old(courses) && paymentLoading == old(paymentLoading) && message == old(message)
      ensures messageType == old(messageType) && purchases == old(purchases)
      ensures old(Valid()) ==> Valid()
    {
      if stored.Some? && stored.value != [] && parsed.Some? {
        user := parsed;
      }
      LoadCourses(StoredUserId(stored, parsed));
    }

    /** `loadCourses`: loading starts and the request goes out. */
    method LoadCourses(userId: Val)
      modifies this
      ensures requests == old(requests) + [GetCourses(userId)]
      ensures loading && courseLoads == old(courseLoads) + 1
      ensures user == old(user) && courses == old(courses) && paymentLoading == old(paymentLoading)
      ensures message == old(message) && messageType == old(messageType) && purchases == old(purchases)
      ensures old(Valid()) ==> Valid()
    {
      requests := requests + [GetCourses(userId)];
      loading := true;
      courseLoads := courseLoads + 1;
      CountWhereAppend(old(requests), GetCourses(userId), IsOrder);
      CountWhereAppend(old(requests), GetCourses(userId), IsVerify);
    }

    /** The courses answer: a truthy `success` and `courses` replace the list,
        anything else shows "Failed to load courses"; loading ends either way. */
    method CoursesAnswered(o: Outcome)
      requires courseLoads > 0
      modifies this
      ensures !loading && courseLoads == old(courseLoads) - 1
      ensures o.Body? && o.data != JNull && Truthy(Get(Some(o.data), "success")) &&
              Truthy(Get(Some(o.data), "courses")) ==>
                courses == Get(Some(o.data), "courses") && message == old(message) && messageType == old(messageType)
      ensures !(o.Body? && o.data != JNull && Truthy(Get(Some(o.data), "success")) &&
                Truthy(Get(Some(o.data), "courses"))) ==>
                courses == old(courses) && message == LOAD_FAILED && messageType == Error
      ensures user == old(user) && paymentLoading == old(paymentLoading)
      ensures requests == old(requests) && purchases == old(purchases)
      ensures old(Valid()) ==> Valid()
    {
      courseLoads := courseLoads - 1;
      if o.Body? && o.data != JNull && Truthy(Get(Some(o.data), "success")) && Truthy(Get(Some(o.data), "courses")) {
        courses := Get(Some(o.data), "courses");
      } else {
        message := LOAD_FAILED;
        messageType := Error;
      }
      loading := false;
    }

    /** `handlePayment(course)`: without a user, the login error and nothing else;
        otherwise the card's id goes into `paymentLoading`, the message is cleared
        and the order request goes out with `parseFloat(course.price)`. */
    method HandlePayment(course: Json)
      modifies this
      ensures !Truthy(old(user)) ==>
                message == LOGIN_FIRST && messageType == Error && requests == old(requests) &&
                paymentLoading == old(paymentLoading) && purchases == old(purchases)
      ensures Truthy(old(user)) ==>
                paymentLoading == Get(Some(course), "id") && message == [] && messageType == old(messageType) &&
                requests == old(requests) + [CreateOrder(OrderAmount(course))] &&
                purchases == old(purchases) + [Ordering(Get(Some(course), "id"))]
      ensures user == old(user) && courses == old(courses) && loading == old(loading) && courseLoads == old(courseLoads)
      ensures old(Valid()) ==> Valid()
    {
      if !Truthy(user) {
        message := LOGIN_FIRST;
        messageType := Error;
      } else {
        StartPurchase(Get(Some(course), "id"), OrderAmount(course));
      }
    }

    /** The purchase of the card with id `id` starts: it is marked "Processing",
        the message is cleared and the order request for `amount` goes out. */
    method StartPurchase(id: Val, amount: Option<int>)
      modifies this
      ensures paymentLoading == id && message == [] && messageType == old(messageType)
      ensures requests == old(requests) + [CreateOrder(amount)] && purchases == old(purchases) + [Ordering(id)]
      ensures user == old(user) && courses == old(courses) && loading == old(loading) && courseLoads == old(courseLoads)
      ensures old(Valid()) ==> Valid()
    {
      var rs, ps := requests, purchases;
      OrderCounts(rs, ps, CreateOrder(amount), Ordering(id));
      paymentLoading := id;
      message := [];
      requests := rs + [CreateOrder(amount)];
      purchases := ps + [Ordering(id)];
    }

    /** A click on the Buy button of card `i`. Only unpaid cards have one, and
        it is disabled while that card is "Processing". */
    method ClickBuy(i: nat)
      requires !loading && IsArray(courses) && i < |courses.value.items| && !IsPaid(courses.value.items[i])
      modifies this
      ensures Processing(old(courses).value.items[i], old(paymentLoading)) ==>
                requests == old(requests) && purchases == old(purchases) && paymentLoading == old(paymentLoading) &&
                message == old(message) && messageType == old(messageType)
      ensures !Processing(old(courses).value.items[i], old(paymentLoading)) && !Truthy(old(user)) ==>
                message == LOGIN_FIRST && messageType == Error && requests == old(requests) &&
                paymentLoading == old(paymentLoading) && purchases == old(purchases)
      ensures !Processing(old(courses).value.items[i], old(paymentLoading)) && Truthy(old(user)) ==>
                Processing(old(courses).value.items[i], paymentLoading) &&
                paymentLoading == Get(Some(old(courses).value.items[i]), "id") &&
                message == [] && messageType == old(messageType) &&
                requests == old(requests) + [CreateOrder(OrderAmount(old(courses).value.items[i]))] &&
                purchases == old(purchases) + [Ordering(Get(Some(old(courses).value.items[i]), "id"))]
      ensures courses == old(courses) && user == old(user) && loading == old(loading) && courseLoads == old(courseLoads)
      ensures old(Valid()) ==> Valid()
    {
      if Processing(courses.value.items[i], paymentLoading) {
        return;
      }
      HandlePayment(courses.value.items[i]);
    }

    /** The order answer of purchase `k`: the widget opens, or the `catch` shows
        the error and sets `paymentLoading` to null. */
    method OrderAnswered(k: nat, o: Outcome, widgetLoaded: bool)
      requires k < |purchases| && purchases[k].Ordering?
      modifies this
      ensures OrderFailure(o, widgetLoaded).None? ==>
                purchases == old(purchases)[k := WidgetOpen(old(purchases)[k].courseId)] &&
                paymentLoading == old(paymentLoading) && message == old(message) && messageType == old(messageType)
      ensures OrderFailure(o, widgetLoaded).Some? ==>
                purchases == old(purchases)[..k] + old(purchases)[k + 1..] && paymentLoading == Some(JNull) &&
                message == OrderFailure(o, widgetLoaded).value && messageType == Error
      ensures user == old(user) && courses == old(courses) && loading == old(loading)
      ensures requests == old(requests) && courseLoads == old(courseLoads)
      ensures old(Valid()) ==> Valid()
    {
      var failure := OrderFailure(o, widgetLoaded);
      if failure.Some? {
        CountWhereRemove(purchases, k, BeforeVerify);
        message := failure.value;
        messageType := Error;
        paymentLoading := Some(JNull);
        purchases := purchases[..k] + purchases[k + 1..];
        return;
      }
      CountWhereUpdate(purchases, k, WidgetOpen(purchases[k].courseId), BeforeVerify);
      purchases := purchases[k := WidgetOpen(purchases[k].courseId)];
    }

    /** The widget's `ondismiss` for purchase `k`. */
    method Dismiss(k: nat)
      requires k < |purchases| && purchases[k].WidgetOpen?
      modifies this
      ensures paymentLoading == Some(JNull) && message == CANCELLED && messageType == Error
      ensures purchases == old(purchases)[..k] + old(purchases)[k + 1..]
      ensures user == old(user) && courses == old(courses) && loading == old(loading)
      ensures requests == old(requests) && courseLoads == old(courseLoads)
      ensures old(Valid()) ==> Valid()
    {
      CountWhereRemove(purchases, k, BeforeVerify);
      paymentLoading := Some(JNull);
      message := CANCELLED;
      messageType := Error;
      purchases := purchases[..k] + purchases[k + 1..];
    }

    /** The widget's `handler` for purchase `k`: `verifyPayment(response, course.id)`. */
    method GatewayPaid(k: nat, response: Val)
      requires k < |purchases| && purchases[k].WidgetOpen?
      modifies this
      ensures purchases == old(purchases)[k := Verifying(old(purchases)[k].courseId)]
      ensures requests == old(requests) + [VerifyPayment(Get(response, "razorpay_order_id"),
                                                         Get(response, "razorpay_payment_id"),
                                                         Get(response, "razorpay_signature"),
                                                         Get(user, "id"), old(purchases)[k].courseId)]
      ensures user == old(user) && courses == old(courses) && loading == old(loading)
      ensures paymentLoading == old(paymentLoading) && message == old(message) && messageType == old(messageType)
      ensures courseLoads == old(courseLoads)
      ensures old(Valid()) ==> Valid()
    {
      var req := VerifyPayment(Get(response, "razorpay_order_id"), Get(response, "razorpay_payment_id"),
                               Get(response, "razorpay_signature"), Get(user, "id"), purchases[k].courseId);
      CountWhereAppend(requests, req, IsOrder);
      CountWhereAppend(requests, req, IsVerify);
      CountWhereUpdate(purchases, k, Verifying(purchases[k].courseId), BeforeVerify);
      requests := requests + [req];
      purchases := purchases[k := Verifying(purchases[k].courseId)];
    }

    /** The verification answer of purchase `k`: success shows the unlocked
        message and reloads the courses for the current user; failure shows the
        backend's message or "Payment verification failed". `paymentLoading`
        becomes null in every case. */
    method VerifyAnswered(k: nat, o: Outcome)
      requires k < |purchases| && purchases[k].Verifying?
      modifies this
      ensures paymentLoading == Some(JNull) && purchases == old(purchases)[..k] + old(purchases)[k + 1..]
      ensures Verified(o) ==> message == PAID_MSG && messageType == Success
      ensures Verified(o) && Truthy(user) ==>
                requests == old(requests) + [GetCourses(Get(user, "id"))] && loading &&
                courseLoads == old(courseLoads) + 1
      ensures !(Verified(o) && Truthy(user)) ==>
                requests == old(requests) && loading == old(loading) && courseLoads == old(courseLoads)
      ensures !Verified(o) ==> message == VerifyFailure(o) && messageType == Error
      ensures user == old(user) && courses == old(courses)
      ensures old(Valid()) ==> Valid()
    {
      CountWhereRemove(purchases, k, BeforeVerify);
      purchases := purchases[..k] + purchases[k + 1..];
      if Verified(o) {
        message := PAID_MSG;
        messageType := Success;
        if Truthy(user) {
          LoadCourses(Get(user, "id"));
        }
      } else {
        message := VerifyFailure(o);
        messageType := Error;
      }
      paymentLoading := Some(JNull);
    }
  }
}
