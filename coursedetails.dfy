/** The course page (`src/pages/CourseDetails.tsx`): the course image, the lookup
    of the course named by the route slug, and the "Buy Now" flow guarded by a
    payment lock. The network and the payment widget are events fed to the page. */
module CourseDetails {
  import opened Base
  import opened Text
  import opened Json
  import opened Seqs
  import opened Uploads
  import CoursesBySub

  const DEFAULT_IMG: string := "/default-unit.png"

  // ---------------------------------------------------------------- the image

  /** The URL `getImage` makes of a non-empty image string: the upload folder plus
      the piece after the last "/", or the default picture when that piece is empty. */
  function FromPath(raw: string): (r: string)
    ensures r != []
    ensures r == DEFAULT_IMG || (|r| > |UPLOAD_BASE| && r[..|UPLOAD_BASE|] == UPLOAD_BASE)
    ensures r != DEFAULT_IMG ==>
              var name := r[|UPLOAD_BASE|..];
              '/' !in name && |name| <= |raw| && name == raw[|raw| - |name|..] &&
              (|name| == |raw| || raw[|raw| - |name| - 1] == '/')
    ensures raw != [] && raw[|raw| - 1] == '/' ==> r == DEFAULT_IMG
    ensures raw != [] && '/' !in raw ==> r == UPLOAD_BASE + raw
  {
    var name := SplitLast(raw, "/");
    LastPiece(raw);
    if name == [] then DEFAULT_IMG else UPLOAD_BASE + name
  }

  /** The piece after the last "/" has no "/", is empty when the string ends with
      "/", and is the whole string when it has no "/". */
  lemma {:induction false} LastPiece(raw: string)
    ensures '/' !in SplitLast(raw, "/")
    ensures var r := SplitLast(raw, "/");
            |r| == |raw| || raw[|raw| - |r| - 1] == '/'
    ensures raw != [] && raw[|raw| - 1] == '/' ==> SplitLast(raw, "/") == []
    ensures '/' !in raw ==> SplitLast(raw, "/") == raw
  {
    var name := SplitLast(raw, "/");
    if '/' in name {
      CharIsContained(name, '/');
    }
    SplitLastBoundary(raw);
    if raw != [] && raw[|raw| - 1] == '/' {
      SplitLastAfter(raw, [], '/');
      assert raw + [] == raw;
    }
    if '/' !in raw {
      NoCharNoContains(raw, "/", '/');
    }
  }

  /** The piece after the last "/" is preceded by a "/" unless it is the whole string. */
  lemma {:induction false} SplitLastBoundary(s: string)
    ensures var r := SplitLast(s, "/");
            |r| == |s| || s[|s| - |r| - 1] == '/'
    decreases |s|
  {
    var r := SplitLast(s, "/");
    if Contains(s, "/") {
      var t := s[1..];
      if !StartsWith(s, "/") {
        assert Contains(t, "/");
      }
      assert r == SplitLast(t, "/");
      SplitLastBoundary(t);
      if |r| < |t| {
        assert t[|t| - |r| - 1] == s[|s| - |r| - 1];
      }
    }
  }

  /** `getImage`: `image_url || image || ""`; a falsy value gives the default
      picture; a truthy string goes through `FromPath`; any other truthy value has
      no `split`, so the call throws. */
  function GetImage(course: Json): (r: Result<string>)
    ensures !Truthy(Get(Some(course), "image_url")) && !Truthy(Get(Some(course), "image")) ==>
              r == Ok(DEFAULT_IMG)
    ensures Truthy(Get(Some(course), "image_url")) && Get(Some(course), "image_url").value.JStr? ==>
              r == Ok(FromPath(Get(Some(course), "image_url").value.s))
    ensures !Truthy(Get(Some(course), "image_url")) && Truthy(Get(Some(course), "image")) &&
            Get(Some(course), "image").value.JStr? ==>
              r == Ok(FromPath(Get(Some(course), "image").value.s))
    ensures r.Err? <==> Truthy(Or(Get(Some(course), "image_url"), Get(Some(course), "image"))) &&
                        !Or(Get(Some(course), "image_url"), Get(Some(course), "image")).value.JStr?
  {
    var raw := Or(Get(Some(course), "image_url"), Or(Get(Some(course), "image"), Some(JStr(""))));
    if !Truthy(raw) then Ok(DEFAULT_IMG)
    else if !raw.value.JStr? then Err("raw.split is not a function")
    else Ok(FromPath(raw.value.s))
  }

  /** Any folder in front of a file name gives the same URL. */
  lemma {:induction false} GetImageConverges(dir: string, f: string)
    requires f != [] && '/' !in f
    requires dir == [] || dir[|dir| - 1] == '/'
    ensures FromPath(dir + f) == UPLOAD_BASE + f
  {
    if dir == [] {
      assert dir + f == f;
    } else {
      SplitLastAfter(dir, f, '/');
    }
  }

  /** A URL under the upload folder is a fixed point of `FromPath`. */
  lemma {:induction false} FromPathStable(raw: string)
    requires FromPath(raw) != DEFAULT_IMG
    ensures FromPath(FromPath(raw)) == FromPath(raw)
  {
    var r := FromPath(raw);
    var name := r[|UPLOAD_BASE|..];
    assert r == UPLOAD_BASE + name;
    UploadBaseFacts();
    GetImageConverges(UPLOAD_BASE, name);
  }

  /** The default picture itself is not a fixed point: fed back in, it is moved
      under the upload folder. */
  lemma {:induction false} DefaultNotStable()
    ensures FromPath(DEFAULT_IMG) == UPLOAD_BASE + "default-unit.png"
  {
    assert DEFAULT_IMG == "/" + "default-unit.png";
    GetImageConverges("/", "default-unit.png");
  }

  // ---------------------------------------------------------------- the slug lookup

  /** `String(c.id) === id` for an element `c` of the list; reading `id` of null throws. */
  predicate Matches(c: Json, id: string) {
    c != JNull && ToStr(Get(Some(c), "id")) == id
  }

  /** The first `n` elements are neither null nor a match: `find` walks past them. */
  predicate Skipped(items: seq<Json>, n: nat, id: string)
    requires n <= |items|
  {
    forall j :: 0 <= j < n ==> items[j] != JNull && !Matches(items[j], id)
  }

  /** Walking past `n + 1` elements is walking past the first and then `n` more. */
  lemma {:induction false} SkippedTail(items: seq<Json>, n: nat, id: string)
    requires items != [] && n < |items|
    ensures Skipped(items, n + 1, id) <==>
            items[0] != JNull && !Matches(items[0], id) && Skipped(items[1..], n, id)
  {
    assert forall j :: 0 <= j < n ==> items[1..][j] == items[j + 1];
  }

  /** `courses.find(c => String(c.id) === id)`: the first matching element, none
      when nothing matches; a null element reached first throws. */
  function Find(items: seq<Json>, id: string): (r: Result<Option<Json>>)
    ensures r == Ok(None) <==> Skipped(items, |items|, id)
    ensures forall i :: 0 <= i < |items| && Matches(items[i], id) && Skipped(items, i, id) ==>
              r == Ok(Some(items[i]))
    ensures r.Ok? && r.value.Some? ==> r.value.value in items && Matches(r.value.value, id)
    ensures r.Err? ==> JNull in items
    decreases |items|
  {
    if items == [] then Ok(None)
    else if items[0] == JNull then Err(NullAccessError("id"))
    else if Matches(items[0], id) then Ok(Some(items[0]))
    else
      var r := Find(items[1..], id);
      SkippedTail(items, |items| - 1, id);
      assert forall i :: 0 <= i < |items| && Matches(items[i], id) && Skipped(items, i, id) ==>
               r == Ok(Some(items[i])) by {
        forall i | 0 <= i < |items| && Matches(items[i], id) && Skipped(items, i, id)
          ensures r == Ok(Some(items[i]))
        {
          assert i > 0 && items[1..][i - 1] == items[i];
          SkippedTail(items, i - 1, id);
        }
      }
      assert r.Ok? && r.value.Some? ==> r.value.value in items by {
        if r.Ok? && r.value.Some? { assert forall x :: x in items[1..] ==> x in items; }
      }
      assert r.Err? ==> JNull in items by {
        if r.Err? { assert forall x :: x in items[1..] ==> x in items; }
      }
      r
  }

  /** What a parsed response or a failure of the request gives. */
  datatype Reply = Failure | Reply(body: Json)

  /** The page after the load effect: `loading` and the course found. */
  datatype View = View(loading: bool, course: Option<Json>)

  /** `loadCourse` run once on a fresh page: the id is the slug up to the first "-".
      Without a slug the effect returns at once; a failed request, a `courses` that
      is not an array, or a null element before the match makes the effect reject
      before `setLoading(false)`. Only a truthy match is stored. */
  function Load(slug: Option<string>, reply: Reply): (v: View)
    ensures slug.None? || slug == Some([]) || reply.Failure? ==> v == View(true, None)
    ensures v.course.Some? ==> !v.loading && Matches(v.course.value, BeforeFirst(slug.value, '-'))
    ensures slug.Some? && slug.value != [] && reply.Reply? && Nullish(Get(Some(reply.body), "courses")) ==>
              v == View(false, None)
    ensures slug.Some? && slug.value != [] && reply.Reply? && IsArray(Get(Some(reply.body), "courses")) &&
            Find(Get(Some(reply.body), "courses").value.items, BeforeFirst(slug.value, '-')) == Ok(None) ==>
              v == View(false, None)
  {
    if slug.None? || slug.value == [] then View(true, None)
    else match reply
      case Failure => View(true, None)
      case Reply(json) =>
        var courses := Get(Some(json), "courses");
        if Nullish(courses) then View(false, None)
        else if !courses.value.JArr? then View(true, None)
        else match Find(courses.value.items, BeforeFirst(slug.value, '-'))
          case Err(_) => View(true, None)
          case Ok(found) => View(false, if found.Some? && Truthy(found) then found else None)
  }

  /** The link built by the courses-by-subcategory page for a course with a
      non-negative id leads here to that course, when it is the first element of
      the list carrying that id. */
  lemma {:induction false} LinkFindsCourse(c: CoursesBySub.Course, items: seq<Json>, i: nat)
    requires c.id.Some? && c.id.value >= 0
    requires i < |items| && items[i].JObj? && "id" in items[i].fields && items[i].fields["id"] == JNum(c.id.value)
    requires Skipped(items, i, CoursesBySub.IdText(c.id))
    ensures Load(Some(CoursesBySub.CourseSlug(c)), Reply(JObj(map["courses" := JArr(items)]))) ==
            View(false, Some(items[i]))
  {
    var slug := CoursesBySub.CourseSlug(c);
    var id := CoursesBySub.IdText(c.id);
    SlugOfLink(c);
    var json := JObj(map["courses" := JArr(items)]);
    assert Get(Some(json), "courses") == Some(JArr(items));
    IdMatches(items[i], c.id.value);
    assert Find(items, id) == Ok(Some(items[i]));
    LoadFinds(slug, json, items[i]);
  }

  /** An object whose `id` is the number `n` matches the text of `n`. */
  lemma {:induction false} IdMatches(x: Json, n: int)
    requires x.JObj? && "id" in x.fields && x.fields["id"] == JNum(n)
    ensures Matches(x, CoursesBySub.IdText(Some(n)))
  {
    assert Get(Some(x), "id") == Some(JNum(n));
    assert ToStr(Some(JNum(n))) == IntToStr(n);
  }

  /** A list whose search for the slug's id ends on an object shows that object. */
  lemma {:induction false} LoadFinds(slug: string, json: Json, x: Json)
    requires slug != [] && IsArray(Get(Some(json), "courses")) && x.JObj?
    requires Find(Get(Some(json), "courses").value.items, BeforeFirst(slug, '-')) == Ok(Some(x))
    ensures Load(Some(slug), Reply(json)) == View(false, Some(x))
  {
  }

  /** The slug of a link to a course with a non-negative id is non-empty and
      starts with the id's text. */
  lemma {:induction false} SlugOfLink(c: CoursesBySub.Course)
    requires c.id.Some? && c.id.value >= 0
    ensures CoursesBySub.CourseSlug(c) != []
    ensures BeforeFirst(CoursesBySub.CourseSlug(c), '-') == CoursesBySub.IdText(c.id)
  {
    var slug := CoursesBySub.CourseSlug(c);
    assert |slug| >= |CoursesBySub.IdText(c.id)| > 0;
  }

  // ---------------------------------------------------------------- the buy flow

  /** `Number(course.price) * 100`, `None` when the price is not a number (sent as null). */
  function OrderAmount(course: Json): (a: Option<int>)
    ensures a.None? <==> ToNumber(Get(Some(course), "price")).None?
    ensures a.Some? ==> a.value % 100 == 0 && a.value == ToNumber(Get(Some(course), "price")).value * 100
  {
    match ToNumber(Get(Some(course), "price"))
    case None => None
    case Some(p) => Some(p * 100)
  }

  /** A price written as an integer is charged in hundredths. */
  lemma {:induction false} OrderAmountOfPrice(course: Json, n: int)
    requires course.JObj? && "price" in course.fields && course.fields["price"] == JStr(IntToStr(n))
    ensures OrderAmount(course) == Some(n * 100)
  {
    NumberOfString(n);
  }

  /** The requests the page sends. */
  datatype Request =
    | CreateOrder(amount: Option<int>)
    | VerifyPayment(orderId: Val, paymentId: Val, signature: Val, userId: Val, courseId: Val)

  /** Which callback of the flow is pending. The ids are those of the render the
      click came from, which the callbacks close over. */
  datatype Phase =
    | Idle
    | Ordering(userId: Val, courseId: Val)
    | WidgetOpen(userId: Val, courseId: Val, orderId: Val, amount: Val)
    | Verifying

  /** The state of the flow: the `paymentLock` ref, the `loadingPay` flag, the
      pending callback, the requests sent and the alerts shown. */
  datatype Checkout = Checkout(lock: bool, loadingPay: bool, phase: Phase, requests: seq<Request>, alerts: seq<string>)

  /** How the order request ended: it or `res.json()` threw, or it gave a body. */
  datatype OrderOutcome = OrderFailed | OrderBody(body: Json)

  predicate IsOrder(r: Request) { r.CreateOrder? }

  predicate IsVerify(r: Request) { r.VerifyPayment? }

  /** Orders that have not reached the verification step yet. */
  function Outstanding(p: Phase): nat {
    if p.Ordering? || p.WidgetOpen? then 1 else 0
  }

  /** The invariant of the flow: the lock and `loadingPay` move together, every
      pending callback runs under the lock, and each verification request follows
      an order request of its own. */
  ghost predicate Consistent(s: Checkout) {
    s.lock == s.loadingPay &&
    (!s.phase.Idle? ==> s.lock) &&
    CountWhere(s.requests, IsVerify) + Outstanding(s.phase) <= CountWhere(s.requests, IsOrder)
  }

  /** The lock, and `loadingPay`, released together with an alert. */
  function Released(s: Checkout, alert: string): (t: Checkout)
    ensures !t.lock && !t.loadingPay && t.phase.Idle?
    ensures t.requests == s.requests && t.alerts == s.alerts + [alert]
  {
    s.(lock := false, loadingPay := false, phase := Idle, alerts := s.alerts + [alert])
  }

  /** `handleBuyNow` up to the order request: nothing without a course or a user
      id, nothing while the lock is held; otherwise the lock and `loadingPay` are
      set before the order request is sent. */
  function Buy(s: Checkout, course: Option<Json>, user: Val): (t: Checkout)
    ensures course.None? || !Truthy(Get(user, "id")) || s.lock ==> t == s
    ensures course.Some? && Truthy(Get(user, "id")) && !s.lock ==>
              t.lock && t.loadingPay && t.phase.Ordering? && t.alerts == s.alerts &&
              t.requests == s.requests + [CreateOrder(OrderAmount(course.value))]
  {
    if course.None? || !Truthy(Get(user, "id")) then s
    else if s.lock then s
    else
      s.(lock := true, loadingPay := true,
         phase := Ordering(Get(user, "id"), Get(Some(course.value), "id")),
         requests := s.requests + [CreateOrder(OrderAmount(course.value))])
  }

  /** The rest of the `try`: reading `orderData.amount` of a null body, or a
      missing widget constructor, throws into the `catch`, which alerts and
      releases the lock; otherwise the widget opens. */
  function OrderReturned(s: Checkout, outcome: OrderOutcome, widgetLoaded: bool): (t: Checkout)
    requires s.phase.Ordering?
    ensures outcome.OrderFailed? || outcome.body == JNull || !widgetLoaded ==> t == Released(s, "Payment Failed")
    ensures t.phase.WidgetOpen? ==> t.lock == s.lock && t.loadingPay == s.loadingPay &&
                                    t.phase.orderId == Get(Some(outcome.body), "order_id")
    ensures t.requests == s.requests
  {
    if outcome.OrderFailed? || outcome.body == JNull || !widgetLoaded then Released(s, "Payment Failed")
    else
      s.(phase := WidgetOpen(s.phase.userId, s.phase.courseId,
                             Get(Some(outcome.body), "order_id"), Get(Some(outcome.body), "amount")))
  }

  /** The user closes the widget. The options carry no `ondismiss`, so nothing runs:
      the lock and `loadingPay` stay set. */
  function Dismissed(s: Checkout): (t: Checkout)
    requires s.phase.WidgetOpen?
    ensures t.lock == s.lock && t.loadingPay == s.loadingPay && t.phase.Idle?
    ensures t.requests == s.requests && t.alerts == s.alerts
  {
    s.(phase := Idle)
  }

  /** A dismiss handler that releases what `handleBuyNow` took, as the test-series
      and paid-courses pages do. */
  function DismissedReleasing(s: Checkout): (t: Checkout)
    requires s.phase.WidgetOpen?
    ensures !t.lock && !t.loadingPay && t.phase.Idle?
    ensures t.requests == s.requests && t.alerts == s.alerts
  {
    s.(lock := false, loadingPay := false, phase := Idle)
  }

  /** The widget's `handler`: the verification request carries the gateway's three
      fields, the user id and the course id. */
  function Paid(s: Checkout, response: Val): (t: Checkout)
    requires s.phase.WidgetOpen?
    ensures t.phase.Verifying? && t.lock == s.lock && t.loadingPay == s.loadingPay && t.alerts == s.alerts
    ensures t.requests == s.requests + [VerifyPayment(Get(response, "razorpay_order_id"),
                                                      Get(response, "razorpay_payment_id"),
                                                      Get(response, "razorpay_signature"),
                                                      s.phase.userId, s.phase.courseId)]
  {
    s.(phase := Verifying,
       requests := s.requests + [VerifyPayment(Get(response, "razorpay_order_id"),
                                               Get(response, "razorpay_payment_id"),
                                               Get(response, "razorpay_signature"),
                                               s.phase.userId, s.phase.courseId)])
  }

  /** The verification request answered: whatever it says, "Payment Success" is
      alerted and the lock released. */
  function VerifyAnswered(s: Checkout): (t: Checkout)
    requires s.phase.Verifying?
    ensures t == Released(s, "Payment Success")
  {
    Released(s, "Payment Success")
  }

  /** The verification request failed at the network: the handler's promise
      rejects and nothing releases the lock. */
  function VerifyLost(s: Checkout): (t: Checkout)
    requires s.phase.Verifying?
    ensures t.lock == s.lock && t.loadingPay == s.loadingPay && t.phase.Idle?
    ensures t.requests == s.requests && t.alerts == s.alerts
  {
    s.(phase := Idle)
  }

  /** The events that drive the flow. */
  datatype Event =
    | Click
    | OrderDone(outcome: OrderOutcome, widgetLoaded: bool)
    | Dismiss
    | GatewayPaid(response: Val)
    | VerifyDone
    | VerifyFailed

  /** Whether the event can happen now: a callback only runs while it is pending. */
  predicate Enabled(s: Checkout, e: Event) {
    match e
    case Click => true
    case OrderDone(_, _) => s.phase.Ordering?
    case Dismiss => s.phase.WidgetOpen?
    case GatewayPaid(_) => s.phase.WidgetOpen?
    case VerifyDone => s.phase.Verifying?
    case VerifyFailed => s.phase.Verifying?
  }

  /** One event; one that cannot happen in the current phase changes nothing. */
  function Apply(s: Checkout, e: Event, course: Option<Json>, user: Val): (t: Checkout)
    ensures !Enabled(s, e) ==> t == s
  {
    if !Enabled(s, e) then s
    else match e
      case Click => Buy(s, course, user)
      case OrderDone(o, w) => OrderReturned(s, o, w)
      case Dismiss => Dismissed(s)
      case GatewayPaid(resp) => Paid(s, resp)
      case VerifyDone => VerifyAnswered(s)
      case VerifyFailed => VerifyLost(s)
  }

  function Run(s: Checkout, es: seq<Event>, course: Option<Json>, user: Val): Checkout
    decreases |es|
  {
    if es == [] then s else Run(Apply(s, es[0], course, user), es[1..], course, user)
  }

  lemma {:induction false} AppendCounts(rs: seq<Request>, x: Request)
    ensures CountWhere(rs + [x], IsOrder) == CountWhere(rs, IsOrder) + (if x.CreateOrder? then 1 else 0)
    ensures CountWhere(rs + [x], IsVerify) == CountWhere(rs, IsVerify) + (if x.VerifyPayment? then 1 else 0)
  {
    CountWhereAppend(rs, x, IsOrder);
    CountWhereAppend(rs, x, IsVerify);
  }

  /** Every event keeps the flow consistent. */
  lemma {:induction false} ApplyConsistent(s: Checkout, e: Event, course: Option<Json>, user: Val)
    requires Consistent(s)
    ensures Consistent(Apply(s, e, course, user))
  {
    if Enabled(s, e) {
      match e
      case Click =>
        if course.Some? && Truthy(Get(user, "id")) && !s.lock {
          AppendCounts(s.requests, CreateOrder(OrderAmount(course.value)));
        }
      case GatewayPaid(resp) =>
        AppendCounts(s.requests, Paid(s, resp).requests[|s.requests|]);
        assert Paid(s, resp).requests == s.requests + [Paid(s, resp).requests[|s.requests|]];
      case _ =>
    }
  }

  /** A whole run of events keeps the flow consistent. */
  lemma {:induction false} RunConsistent(s: Checkout, es: seq<Event>, course: Option<Json>, user: Val)
    requires Consistent(s)
    ensures Consistent(Run(s, es, course, user))
    decreases |es|
  {
    if es != [] {
      ApplyConsistent(s, es[0], course, user);
      RunConsistent(Apply(s, es[0], course, user), es[1..], course, user);
    }
  }

  lemma {:induction false} InitialConsistent()
    ensures Consistent(Checkout(false, false, Idle, [], []))
  {
  }

  /** While an order, the widget or a verification is pending, a click sends nothing. */
  lemma {:induction false} NoSecondOrder(s: Checkout, course: Option<Json>, user: Val)
    requires Consistent(s) && !s.phase.Idle?
    ensures Buy(s, course, user) == s
  {
  }

  /** `n` clicks on "Buy Now". */
  function Clicks(s: Checkout, n: nat, course: Option<Json>, user: Val): Checkout
    decreases n
  {
    if n == 0 then s else Clicks(Buy(s, course, user), n - 1, course, user)
  }

  /** As written: once the widget is dismissed, no number of clicks sends an
      order again until the page is reloaded. */
  lemma {:induction false} StuckAfterDismiss(s: Checkout, n: nat, course: Option<Json>, user: Val)
    requires s.phase.WidgetOpen? && s.lock
    ensures Clicks(Dismissed(s), n, course, user) == Dismissed(s)
    decreases n
  {
    if n > 0 {
      assert Buy(Dismissed(s), course, user) == Dismissed(s);
      StuckAfterDismiss(s, n - 1, course, user);
    }
  }

  /** With a releasing dismiss handler the next click starts a new order. */
  lemma {:induction false} BuyAfterDismissReleasing(s: Checkout, course: Option<Json>, user: Val)
    requires s.phase.WidgetOpen? && Consistent(s)
    requires course.Some? && Truthy(Get(user, "id"))
    ensures Consistent(DismissedReleasing(s))
    ensures Buy(DismissedReleasing(s), course, user).requests == s.requests + [CreateOrder(OrderAmount(course.value))]
  {
  }

  /** A verification lost on the network also leaves the lock held. */
  lemma {:induction false} StuckAfterLostVerify(s: Checkout, course: Option<Json>, user: Val)
    requires s.phase.Verifying? && Consistent(s)
    ensures Buy(VerifyLost(s), course, user) == VerifyLost(s)
  {
  }

  // ---------------------------------------------------------------- the page

  /** The page: the course found, the loading flag, the user read from the store,
      and the state of the buy flow. */
  class Page {
    var course: Option<Json>
    var loading: bool
    const user: Val
    var paymentLock: bool
    var loadingPay: bool
    var phase: Phase
    var requests: seq<Request>
    var alerts: seq<string>

    function State(): Checkout
      reads this
    {
      Checkout(paymentLock, loadingPay, phase, requests, alerts)
    }

    constructor (user: Val)
      ensures this.user == user && course.None? && loading
      ensures State() == Checkout(false, false, Idle, [], []) && Consistent(State())
    {
      this.user := user;
      course := None;
      loading := true;
      paymentLock := false;
      loadingPay := false;
      phase := Idle;
      requests := [];
      alerts := [];
    }

    /** The load effect: `setCourse` only when something was found, then
      `setLoading(false)` if the effect got that far. */
    method LoadCourse(slug: Option<string>, reply: Reply)
      modifies this
      ensures Load(slug, reply).course.Some? ==> course == Load(slug, reply).course
      ensures Load(slug, reply).course.None? ==> course == old(course)
      ensures loading == (old(loading) && Load(slug, reply).loading)
      ensures State() == old(State())
    {
      var v := Load(slug, reply);
      if v.course.Some? {
        course := v.course;
      }
      if !v.loading {
        loading := false;
      }
    }

    method ClickBuy()
      modifies this
      ensures State() == Buy(old(State()), course, user)
      ensures course == old(course) && loading == old(loading)
    {
      if course.None? || !Truthy(Get(user, "id")) {
        return;
      }
      if paymentLock {
        return;
      }
      paymentLock := true;
      loadingPay := true;
      phase := Ordering(Get(user, "id"), Get(Some(course.value), "id"));
      requests := requests + [CreateOrder(OrderAmount(course.value))];
    }

    method OrderDone(outcome: OrderOutcome, widgetLoaded: bool)
      requires phase.Ordering?
      modifies this
      ensures State() == OrderReturned(old(State()), outcome, widgetLoaded)
      ensures course == old(course) && loading == old(loading)
    {
      if outcome.OrderFailed? || outcome.body == JNull || !widgetLoaded {
        alerts := alerts + ["Payment Failed"];
        loadingPay := false;
        paymentLock := false;
        phase := Idle;
        return;
      }
      phase := WidgetOpen(phase.userId, phase.courseId,
                          Get(Some(outcome.body), "order_id"), Get(Some(outcome.body), "amount"));
    }

    method Dismiss()
      requires phase.WidgetOpen?
      modifies this
      ensures State() == Dismissed(old(State()))
      ensures course == old(course) && loading == old(loading)
    {
      phase := Idle;
    }

    method GatewayPaid(response: Val)
      requires phase.WidgetOpen?
      modifies this
      ensures State() == Paid(old(State()), response)
      ensures course == old(course) && loading == old(loading)
    {
      requests := requests + [VerifyPayment(Get(response, "razorpay_order_id"),
                                            Get(response, "razorpay_payment_id"),
                                            Get(response, "razorpay_signature"),
                                            phase.userId, phase.courseId)];
      phase := Verifying;
    }

    method VerifyDone()
      requires phase.Verifying?
      modifies this
      ensures State() == VerifyAnswered(old(State()))
      ensures course == old(course) && loading == old(loading)
    {
      alerts := alerts + ["Payment Success"];
      loadingPay := false;
      paymentLock := false;
      phase := Idle;
    }

    method VerifyFailed()
      requires phase.Verifying?
      modifies this
      ensures State() == VerifyLost(old(State()))
      ensures course == old(course) && loading == old(loading)
    {
      phase := Idle;
    }
  }
}
