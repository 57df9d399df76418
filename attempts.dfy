/** The endpoint fallback of the two course-list pages: a fixed list of requests is
    tried in order; a reply that is not ok, is not JSON, says `success: false`, or
    whose normalisation throws is an error and the next request is tried; the first
    success wins and stops the loop; when every request fails, the last error is
    raised. */
module Attempts {
  import opened Base
  import opened Text
  import opened Json

  /** What one request produced. `Reply.body` is `None` when the text of the
      response is not JSON. */
  datatype Reply =
    | NetworkError(message: string)
    | Reply(ok: bool, status: int, body: Option<Json>)

  /** The message `fetchJson` throws for a body that is not JSON. */
  function NotJsonError(status: int): string {
    "API did not return JSON (HTTP " + IntToStr(status) + ")"
  }

  /** The checks `!res.ok || json.success === false` of one attempt: the parsed body
      when the reply is usable, the message of the error it raises otherwise.
      Reading `.success` or `.message` of a `null` body throws. */
  function Judge(r: Reply): (res: Result<Json>)
    ensures r.NetworkError? ==> res == Err(r.message)
    ensures r.Reply? && r.body.None? ==> res == Err(NotJsonError(r.status))
    ensures r.Reply? && r.body == Some(JNull) ==>
              res == Err(NullAccessError(if r.ok then "success" else "message"))
    ensures r.Reply? && r.body.Some? && r.body != Some(JNull) &&
            (!r.ok || Get(r.body, "success") == Some(JBool(false))) ==>
              res == Err(MessageOr(Get(r.body, "message"), "HTTP " + IntToStr(r.status)))
    ensures res.Ok? <==> r.Reply? && r.ok && r.body.Some? && r.body != Some(JNull) &&
                         Get(r.body, "success") != Some(JBool(false))
    ensures res.Ok? ==> Some(res.value) == r.body
  {
    match r
    case NetworkError(m) => Err(m)
    case Reply(ok, status, body) =>
      if body.None? then Err(NotJsonError(status))
      else if !ok then
        match Member(body, "message")
        case Err(e) => Err(e)
        case Ok(m) => Err(MessageOr(m, "HTTP " + IntToStr(status)))
      else
        match Member(body, "success")
        case Err(e) => Err(e)
        case Ok(s) =>
          if s == Some(JBool(false)) then Err(MessageOr(Get(body, "message"), "HTTP " + IntToStr(status)))
          else Ok(body.value)
  }

  /** One attempt: judge the reply, then normalise the body (which may throw). */
  function Step<T>(r: Reply, normalize: Json -> Result<T>): Result<T> {
    match Judge(r)
    case Err(e) => Err(e)
    case Ok(j) => normalize(j)
  }

  /** The outcome each request would have if it were made. */
  function Steps<T>(replies: seq<Reply>, normalize: Json -> Result<T>): (steps: seq<Result<T>>)
    ensures |steps| == |replies|
    ensures forall k :: 0 <= k < |replies| ==> steps[k] == Step(replies[k], normalize)
  {
    seq(|replies|, k requires 0 <= k < |replies| => Step(replies[k], normalize))
  }

  /** The position of the first success, or the length when there is none. */
  function FirstOk<T>(steps: seq<Result<T>>): (i: nat)
    ensures i <= |steps|
    ensures forall k :: 0 <= k < i ==> steps[k].Err?
    ensures i < |steps| ==> steps[i].Ok?
  {
    if steps == [] then 0
    else if steps[0].Ok? then 0
    else 1 + FirstOk(steps[1..])
  }

  /** The `for` loop over the attempts. `found` is the normalised list of the first
      success, `lastErr` the error left when the loop ends, `used` the number of
      requests made. */
  method RunAttempts<T>(replies: seq<Reply>, normalize: Json -> Result<T>)
    returns (found: Option<T>, lastErr: Option<string>, used: nat)
    ensures var steps := Steps(replies, normalize);
            var i := FirstOk(steps);
            if i < |steps| then
              found == Some(steps[i].value) && lastErr.None? && used == i + 1
            else
              found.None? && used == |replies| &&
              lastErr == (if replies == [] then None else Some(steps[|steps| - 1].error))
  {
    ghost var steps := Steps(replies, normalize);
    found := None;
    lastErr := None;
    used := 0;
    while used < |replies|
      invariant used <= |replies|
      invariant forall k :: 0 <= k < used ==> steps[k].Err?
      invariant lastErr == (if used == 0 then None else Some(steps[used - 1].error))
      invariant found.None?
    {
      var outcome := Step(replies[used], normalize);
      if outcome.Ok? {
        found := Some(outcome.value);
        lastErr := None;
        used := used + 1;
        FirstOkIs(steps, used - 1);
        return;
      }
      lastErr := Some(outcome.error);
      used := used + 1;
    }
    FirstOkNone(steps);
  }

  lemma {:induction false} FirstOkIs<T>(steps: seq<Result<T>>, i: nat)
    requires i < |steps| && steps[i].Ok?
    requires forall k :: 0 <= k < i ==> steps[k].Err?
    ensures FirstOk(steps) == i
    decreases i
  {
    if i > 0 {
      FirstOkIs(steps[1..], i - 1);
    }
  }

  lemma {:induction false} FirstOkNone<T>(steps: seq<Result<T>>)
    requires forall k :: 0 <= k < |steps| ==> steps[k].Err?
    ensures FirstOk(steps) == |steps|
    decreases |steps|
  {
    if steps != [] {
      FirstOkNone(steps[1..]);
    }
  }

  /** The properties a course row may carry its name in, in the order they are tried. */
  const TITLE_KEYS: seq<string> := ["course_name", "name", "title", "course_title", "course"]

  /** `r.course_name ?? r.name ?? r.title ?? r.course_title ?? r.course ?? ""`. */
  function TitleValue(raw: Val): (v: Val)
    ensures forall i :: FirstPresent(raw, TITLE_KEYS, i) ==> v == Get(raw, TITLE_KEYS[i])
    ensures (forall i :: 0 <= i < |TITLE_KEYS| ==> Nullish(Get(raw, TITLE_KEYS[i]))) ==> v == Some(JStr(""))
  {
    CoalesceKeys(raw, TITLE_KEYS, Some(JStr("")))
  }

  /** The rows of a course-list response: `courses`, else `data`, else `data.courses`, else none. */
  function ResponseRows(json: Json): (rows: seq<Json>)
    ensures IsArray(Get(Some(json), "courses")) ==> rows == Get(Some(json), "courses").value.items
    ensures !IsArray(Get(Some(json), "courses")) && IsArray(Get(Some(json), "data")) ==>
              rows == Get(Some(json), "data").value.items
    ensures !IsArray(Get(Some(json), "courses")) && !IsArray(Get(Some(json), "data")) &&
            IsArray(Get(Get(Some(json), "data"), "courses")) ==>
              rows == Get(Get(Some(json), "data"), "courses").value.items
    ensures (!IsArray(Get(Some(json), "courses")) && !IsArray(Get(Some(json), "data")) &&
             !IsArray(Get(Get(Some(json), "data"), "courses"))) ==> rows == []
  {
    var courses := Get(Some(json), "courses");
    var data := Get(Some(json), "data");
    if IsArray(courses) then courses.value.items
    else if IsArray(data) then data.value.items
    else if IsArray(Get(data, "courses")) then Get(data, "courses").value.items
    else []
  }
}
