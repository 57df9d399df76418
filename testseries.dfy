/** The test-series page (`src/pages/Testseries.tsx`): it reads the stored user,
    asks the backend whether that user is enrolled in course 8, loads the tests of
    an enrolled user, and sells the course through the payment widget. The network
    answers and the widget's callbacks are events fed to the page's methods. */
module TestSeries {
  import opened Base
  import opened Json
  import opened Seqs
  import opened Gateway

  /** The one course the page sells. */
  const COURSE_ID: int := 8
  const COURSE_PRICE: int := 1

  const PAID: string := "✅ Payment successful! Loading your tests..."
  const ENROLL_CHECK_FAILED: string := "Failed to check enrollment"
  const TESTS_FAILED: string := "Failed to load tests"

  /** The requests the page sends; `Val` fields are omitted from the JSON when undefined. */
  datatype Request =
    | CheckEnrollment(userId: Val, courseId: int)
    | GetTests(userId: Val, courseId: int)
    | CreateOrder(amount: int)
    | VerifyPayment(orderId: Val, paymentId: Val, signature: Val, userId: Val, courseId: int)

  predicate IsOrder(r: Request) { r.CreateOrder? }

  predicate IsVerify(r: Request) { r.VerifyPayment? }

  /** The pending step of a purchase. */
  datatype Flow = NoPayment | Ordering | WidgetOpen | Verifying

  /** `data.success && data.enrolled` on a body that is not null (reading a
      property of null throws into the `catch`). */
  predicate EnrolledAnswer(o: Outcome) {
    o.Body? && o.data != JNull && Truthy(Get(Some(o.data), "success")) && Truthy(Get(Some(o.data), "enrolled"))
  }

  /** The page's state. `enrollFor` holds the user id of a pending enrollment
      check; `testLoads` counts pending test loads; `flow` is the pending step of
      a purchase. */
  class Page {
    var user: Val
    var enrolled: bool
    var tests: Val
    var loading: bool
    var paymentLoading: bool
    var message: string
    var messageType: Kind
    var requests: seq<Request>
    var flow: Flow
    var enrollFor: Option<Val>
    var testLoads: nat

    /** `paymentLoading` is set exactly while a purchase is in progress, and every
        verification request follows an order request of its own. */
    ghost predicate Valid()
      reads this
    {
      (paymentLoading <==> !flow.NoPayment?) &&
      CountWhere(requests, IsVerify) + (if flow.Ordering? || flow.WidgetOpen? then 1 else 0) <=
        CountWhere(requests, IsOrder)
    }

    /** The Buy button is on screen: a user is present, loading is over and the
        user is not enrolled. */
    predicate BuyButtonShown()
      reads this
    {
      !loading && Truthy(user) && !enrolled
    }

    constructor ()
      ensures Valid()
      ensures user.None? && !enrolled && tests == Some(JArr([])) && loading && !paymentLoading
      ensures message == [] && messageType == Info && requests == [] && flow.NoPayment?
      ensures enrollFor.None? && testLoads == 0
    {
      user := None;
      enrolled := false;
      tests := Some(JArr([]));
      loading := true;
      paymentLoading := false;
      message := [];
      messageType := Info;
      requests := [];
      flow := NoPayment;
      enrollFor := None;
      testLoads := 0;
    }

    /** The mount effect. `stored` is the text under key "user" and `parsed` what
        `JSON.parse` made of it (`None` when it threw). An absent or empty entry, a
        parse failure, or a null user (whose `id` cannot be read) end loading. */
    method Mount(stored: Option<string>, parsed: Option<Json>)
      requires enrollFor.None?
      modifies this
      ensures stored.None? || stored == Some([]) ==>
                user == old(user) && !loading && requests == old(requests) && enrollFor == old(enrollFor)
      ensures stored.Some? && stored.value != [] && parsed.None? ==>
                user == old(user) && !loading && requests == old(requests) && enrollFor == old(enrollFor)
      ensures stored.Some? && stored.value != [] && parsed == Some(JNull) ==>
                user == Some(JNull) && !loading && requests == old(requests) && enrollFor == old(enrollFor)
      ensures stored.Some? && stored.value != [] && parsed.Some? && parsed.value != JNull ==>
                user == parsed && loading && enrollFor == Some(Get(parsed, "id")) &&
                requests == old(requests) + [CheckEnrollment(Get(parsed, "id"), COURSE_ID)]
      ensures enrolled == old(enrolled) && tests == old(tests) && paymentLoading == old(paymentLoading)
      ensures message == old(message) && messageType == old(messageType) && flow == old(flow)
      ensures testLoads == old(testLoads)
      ensures old(Valid()) ==> Valid()
    {
      if stored.None? || stored.value == [] {
        loading := false;
        return;
      }
      if parsed.None? {
        loading := false;
        return;
      }
      user := parsed;
      if parsed.value == JNull {
        loading := false;
        return;
      }
      CheckEnrollmentFor(Get(parsed, "id"));
      CountWhereAppend(old(requests), CheckEnrollment(Get(parsed, "id"), COURSE_ID), IsOrder);
      CountWhereAppend(old(requests), CheckEnrollment(Get(parsed, "id"), COURSE_ID), IsVerify);
    }

    /** `checkEnrollment`: loading starts and the request goes out. */
    method CheckEnrollmentFor(userId: Val)
      modifies this
      ensures loading && enrollFor == Some(userId)
      ensures requests == old(requests) + [CheckEnrollment(userId, COURSE_ID)]
      ensures user == old(user) && enrolled == old(enrolled) && tests == old(tests)
      ensures paymentLoading == old(paymentLoading) && message == old(message)
      ensures messageType == old(messageType) && flow == old(flow) && testLoads == old(testLoads)
    {
      loading := true;
      requests := requests + [CheckEnrollment(userId, COURSE_ID)];
      enrollFor := Some(userId);
    }

    /** The enrollment answer: a truthy `success` and `enrolled` mark the user
        enrolled and load the tests (loading goes on); any other body marks the
        user not enrolled and ends loading; a failure shows the error and ends
        loading. */
    method EnrollmentAnswered(o: Outcome)
      requires enrollFor.Some?
      modifies this
      ensures enrollFor.None?
      ensures EnrolledAnswer(o) ==>
                enrolled && loading == old(loading) && testLoads == old(testLoads) + 1 &&
                requests == old(requests) + [GetTests(old(enrollFor).value, COURSE_ID)] &&
                message == old(message) && messageType == old(messageType)
      ensures !EnrolledAnswer(o) ==> !loading && testLoads == old(testLoads) && requests == old(requests)
      ensures !EnrolledAnswer(o) && o.Body? && o.data != JNull ==>
                !enrolled && message == old(message) && messageType == old(messageType)
      ensures o.Broken? || o.data == JNull ==>
                enrolled == old(enrolled) && message == ENROLL_CHECK_FAILED && messageType == Error
      ensures user == old(user) && tests == old(tests) && paymentLoading == old(paymentLoading) && flow == old(flow)
      ensures old(Valid()) ==> Valid()
    {
      var userId := enrollFor.value;
      enrollFor := None;
      if o.Broken? || o.data == JNull {
        message := ENROLL_CHECK_FAILED;
        messageType := Error;
        loading := false;
        return;
      }
      if Truthy(Get(Some(o.data), "success")) && Truthy(Get(Some(o.data), "enrolled")) {
        enrolled := true;
        LoadTests(userId);
        CountWhereAppend(old(requests), GetTests(userId, COURSE_ID), IsOrder);
        CountWhereAppend(old(requests), GetTests(userId, COURSE_ID), IsVerify);
      } else {
        enrolled := false;
        loading := false;
      }
    }

    /** `loadTests`: the request goes out. */
    method LoadTests(userId: Val)
      modifies this
      ensures requests == old(requests) + [GetTests(userId, COURSE_ID)] && testLoads == old(testLoads) + 1
      ensures user == old(user) && enrolled == old(enrolled) && tests == old(tests) && loading == old(loading)
      ensures paymentLoading == old(paymentLoading) && message == old(message)
      ensures messageType == old(messageType) && flow == old(flow) && enrollFor == old(enrollFor)
    {
      requests := requests + [GetTests(userId, COURSE_ID)];
      testLoads := testLoads + 1;
    }

    /** The tests answer: a truthy `success` and `tests` replace the tests;
        otherwise the backend's message or "Failed to load tests" is shown.
        Loading ends either way. */
    method TestsAnswered(o: Outcome)
      requires testLoads > 0
      modifies this
      ensures !loading && testLoads == old(testLoads) - 1
      ensures o.Body? && o.data != JNull && Truthy(Get(Some(o.data), "success")) && Truthy(Get(Some(o.data), "tests")) ==>
                tests == Get(Some(o.data), "tests") && message == old(message) && messageType == old(messageType)
      ensures o.Body? && o.data != JNull && !(Truthy(Get(Some(o.data), "success")) && Truthy(Get(Some(o.data), "tests"))) ==>
                tests == old(tests) && message == MessageOr(Get(Some(o.data), "message"), TESTS_FAILED) && messageType == Error
      ensures o.Broken? || o.data == JNull ==> tests == old(tests) && message == TESTS_FAILED && messageType == Error
      ensures user == old(user) && enrolled == old(enrolled) && paymentLoading == old(paymentLoading)
      ensures requests == old(requests) && flow == old(flow) && enrollFor == old(enrollFor)
      ensures old(Valid()) ==> Valid()
    {
      testLoads := testLoads - 1;
      if o.Broken? || o.data == JNull {
        message := TESTS_FAILED;
        messageType := Error;
      } else if Truthy(Get(Some(o.data), "success")) && Truthy(Get(Some(o.data), "tests")) {
        tests := Get(Some(o.data), "tests");
      } else {
        message := MessageOr(Get(Some(o.data), "message"), TESTS_FAILED);
        messageType := Error;
      }
      loading := false;
    }

    /** `handlePayment`: without a user, the login error and nothing else;
        otherwise `paymentLoading` is set and the message cleared before the
        order request goes out. */
    method HandlePayment()
      requires flow.NoPayment?
      modifies this
      ensures !Truthy(old(user)) ==>
                message == LOGIN_FIRST && messageType == Error && requests == old(requests) &&
                paymentLoading == old(paymentLoading) && flow.NoPayment?
      ensures Truthy(old(user)) ==>
                paymentLoading && message == [] && messageType == old(messageType) && flow.Ordering? &&
                requests == old(requests) + [CreateOrder(COURSE_PRICE)]
      ensures user == old(user) && enrolled == old(enrolled) && tests == old(tests) && loading == old(loading)
      ensures enrollFor == old(enrollFor) && testLoads == old(testLoads)
    {
      if !Truthy(user) {
        message := LOGIN_FIRST;
        messageType := Error;
        return;
      }
      paymentLoading := true;
      message := [];
      requests := requests + [CreateOrder(COURSE_PRICE)];
      flow := Ordering;
    }

    /** A click on Buy: the button is disabled while `paymentLoading` is set, so
        no second order can start while one is in progress. */
    method ClickBuy()
      requires Valid() && BuyButtonShown()
      modifies this
      ensures Valid()
      ensures old(paymentLoading) ==>
                requests == old(requests) && flow == old(flow) && paymentLoading &&
                message == old(message) && messageType == old(messageType)
      ensures !old(paymentLoading) ==>
                paymentLoading && message == [] && messageType == old(messageType) && flow.Ordering? &&
                requests == old(requests) + [CreateOrder(COURSE_PRICE)]
      ensures user == old(user) && enrolled == old(enrolled) && tests == old(tests) && loading == old(loading)
      ensures enrollFor == old(enrollFor) && testLoads == old(testLoads)
    {
      if paymentLoading {
        return;
      }
      HandlePayment();
      CountWhereAppend(old(requests), CreateOrder(COURSE_PRICE), IsOrder);
      CountWhereAppend(old(requests), CreateOrder(COURSE_PRICE), IsVerify);
    }

    /** The order answer: the widget opens, or the `catch` shows the error and
        clears `paymentLoading`. */
    method OrderAnswered(o: Outcome, widgetLoaded: bool)
      requires flow.Ordering?
      modifies this
      ensures OrderFailure(o, widgetLoaded).None? ==>
                flow.WidgetOpen? && paymentLoading == old(paymentLoading) && message == old(message) &&
                messageType == old(messageType)
      ensures OrderFailure(o, widgetLoaded).Some? ==>
                flow.NoPayment? && !paymentLoading && message == OrderFailure(o, widgetLoaded).value &&
                messageType == Error
      ensures user == old(user) && enrolled == old(enrolled) && tests == old(tests) && loading == old(loading)
      ensures requests == old(requests) && enrollFor == old(enrollFor) && testLoads == old(testLoads)
      ensures old(Valid()) ==> Valid()
    {
      var failure := OrderFailure(o, widgetLoaded);
      if failure.Some? {
        message := failure.value;
        messageType := Error;
        paymentLoading := false;
        flow := NoPayment;
        return;
      }
      flow := WidgetOpen;
    }

    /** The widget's `ondismiss`. */
    method Dismiss()
      requires flow.WidgetOpen?
      modifies this
      ensures !paymentLoading && message == CANCELLED && messageType == Error && flow.NoPayment?
      ensures user == old(user) && enrolled == old(enrolled) && tests == old(tests) && loading == old(loading)
      ensures requests == old(requests) && enrollFor == old(enrollFor) && testLoads == old(testLoads)
      ensures old(Valid()) ==> Valid()
    {
      paymentLoading := false;
      message := CANCELLED;
      messageType := Error;
      flow := NoPayment;
    }

    /** The widget's `handler`: `verifyPayment` sends the gateway's three fields
        verbatim, the user id and course 8. */
    method GatewayPaid(response: Val)
      requires flow.WidgetOpen?
      modifies this
      ensures flow.Verifying?
      ensures requests == old(requests) + [VerifyPayment(Get(response, "razorpay_order_id"),
                                                         Get(response, "razorpay_payment_id"),
                                                         Get(response, "razorpay_signature"),
                                                         Get(user, "id"), COURSE_ID)]
      ensures user == old(user) && enrolled == old(enrolled) && tests == old(tests) && loading == old(loading)
      ensures paymentLoading == old(paymentLoading) && message == old(message) && messageType == old(messageType)
      ensures enrollFor == old(enrollFor) && testLoads == old(testLoads)
      ensures old(Valid()) ==> Valid()
    {
      var req := VerifyPayment(Get(response, "razorpay_order_id"), Get(response, "razorpay_payment_id"),
                               Get(response, "razorpay_signature"), Get(user, "id"), COURSE_ID);
      requests := requests + [req];
      flow := Verifying;
      CountWhereAppend(old(requests), req, IsOrder);
      CountWhereAppend(old(requests), req, IsVerify);
    }

    /** The verification answer: success enrolls the user, shows the success
        message and reloads the tests; failure shows the backend's message or
        "Payment verification failed" and leaves `enrolled` alone.
        `paymentLoading` is cleared in every case. */
    method VerifyAnswered(o: Outcome)
      requires flow.Verifying?
      modifies this
      ensures !paymentLoading && flow.NoPayment?
      ensures Verified(o) ==> enrolled && message == PAID && messageType == Success
      ensures Verified(o) && Truthy(user) ==>
                requests == old(requests) + [GetTests(Get(user, "id"), COURSE_ID)] && testLoads == old(testLoads) + 1
      ensures Verified(o) && !Truthy(user) ==> requests == old(requests) && testLoads == old(testLoads)
      ensures !Verified(o) ==>
                enrolled == old(enrolled) && message == VerifyFailure(o) && messageType == Error &&
                requests == old(requests) && testLoads == old(testLoads)
      ensures user == old(user) && tests == old(tests) && loading == old(loading) && enrollFor == old(enrollFor)
      ensures old(Valid()) ==> Valid()
    {
      if Verified(o) {
        message := PAID;
        messageType := Success;
        enrolled := true;
        if Truthy(user) {
          LoadTests(Get(user, "id"));
          CountWhereAppend(old(requests), GetTests(Get(user, "id"), COURSE_ID), IsOrder);
          CountWhereAppend(old(requests), GetTests(Get(user, "id"), COURSE_ID), IsVerify);
        }
      } else {
        message := VerifyFailure(o);
        messageType := Error;
      }
      paymentLoading := false;
      flow := NoPayment;
    }
  }
}
