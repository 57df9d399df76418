/** The exam grid (`src/components/ExamGrid.tsx`): it loads the exam list once,
    turns every exam's `image_url` into a full URL, and shows a fallback picture
    when an image fails to load. */
module ExamGrid {
  import opened Base
  import opened Text
  import opened Json
  import opened Seqs
  import opened Uploads

  const FALLBACK_EXAM: string := "/default-exam.png"

  /** The message of the TypeError raised by calling `startsWith` on a value that
      is not a string. */
  const NOT_A_STRING: string := "url.startsWith is not a function"

  /** `toFullImageUrl`: null for a falsy value; an absolute URL is kept; anything
      else goes under the upload folder. Only strings have `startsWith`, so any
      other truthy value throws. */
  function ToFullImageUrl(url: Val): (r: Result<Option<string>>)
    ensures !Truthy(url) ==> r == Ok(None)
    ensures Truthy(url) && url.value.JStr? ==> r.Ok? && r.value.Some?
    ensures Truthy(url) && url.value.JStr? && IsAbsolute(url.value.s) ==> r == Ok(Some(url.value.s))
    ensures Truthy(url) && url.value.JStr? && !IsAbsolute(url.value.s) ==> StartsWith(r.value.value, UPLOAD_BASE)
    ensures Truthy(url) && !url.value.JStr? ==> r == Err(NOT_A_STRING)
  {
    if !Truthy(url) then Ok(None)
    else if !url.value.JStr? then Err(NOT_A_STRING)
    else Ok(Some(Rewrite(url.value.s)))
  }

  /** A URL this function produced comes back unchanged. */
  lemma FullImageUrlIdempotent(url: Val)
    requires ToFullImageUrl(url).Ok? && ToFullImageUrl(url).value.Some?
    ensures ToFullImageUrl(Some(JStr(ToFullImageUrl(url).value.value))) == ToFullImageUrl(url)
  {
    RewriteIdempotent(url.value.s);
  }

  /** "uploads/a.png", "/uploads/a.png" and "a.png" give the same URL. */
  lemma FullImageUrlConverges(f: string)
    requires PlainName(f)
    ensures ToFullImageUrl(Some(JStr(f))) == Ok(Some(UPLOAD_BASE + f))
    ensures ToFullImageUrl(Some(JStr("uploads/" + f))) == Ok(Some(UPLOAD_BASE + f))
    ensures ToFullImageUrl(Some(JStr("/uploads/" + f))) == Ok(Some(UPLOAD_BASE + f))
  {
    var b, c := "uploads/" + f, "/uploads/" + f;
    assert Truthy(Some(JStr(f))) && Truthy(Some(JStr(b))) && Truthy(Some(JStr(c))) by {
      assert |b| > 0 && |c| > 0;
    }
    RewriteBare(f);
    assert ToFullImageUrl(Some(JStr(f))) == Ok(Some(Rewrite(f)));
    RewriteUploads(f);
    assert ToFullImageUrl(Some(JStr(b))) == Ok(Some(Rewrite(b)));
    RewriteSlashUploads(f);
    assert ToFullImageUrl(Some(JStr(c))) == Ok(Some(Rewrite(c)));
  }

  /** The JSON value stored back into `image_url`. */
  function UrlValue(u: Option<string>): (j: Json)
    ensures u.None? <==> j == JNull
  {
    match u
    case None => JNull
    case Some(s) => JStr(s)
  }

  /** The elements of a list under the property names "0", "1", …. */
  function Indexed(xs: seq<Json>): (m: map<string, Json>)
    ensures forall i :: 0 <= i < |xs| ==> NatToStr(i) in m && m[NatToStr(i)] == xs[i]
    ensures forall k :: k in m ==> exists i :: 0 <= i < |xs| && k == NatToStr(i)
    ensures "image_url" !in m
  {
    NatToStrInjective();
    assert forall i :: 0 <= i < |xs| ==> NatToStr(i) != "image_url" by {
      forall i | 0 <= i < |xs|
        ensures NatToStr(i) != "image_url"
      {
        NotImageKey(i);
      }
    }
    map i | 0 <= i < |xs| :: NatToStr(i) := xs[i]
  }

  /** A printed index never spells "image_url". */
  lemma NotImageKey(i: nat)
    ensures NatToStr(i) != "image_url"
  {
    assert "image_url"[0] == 'i' && !IsDigit('i');
  }

  /** A string's characters as one-character strings. */
  function Chars(s: string): (cs: seq<Json>)
    ensures |cs| == |s| && forall i :: 0 <= i < |s| ==> cs[i] == JStr([s[i]])
  {
    seq(|s|, k requires 0 <= k < |s| => JStr([s[k]]))
  }

  /** The own enumerable properties `{...e}` copies: an object's fields, an
      array's elements and a string's characters under their indices, and
      nothing for a boolean or a number. */
  function Spread(e: Json): map<string, Json> {
    match e
    case JObj(fields) => fields
    case JArr(items) => Indexed(items)
    case JStr(s) => Indexed(Chars(s))
    case _ => map[]
  }

  /** One exam of the map in `fetchExams`: `{...e, image_url: toFullImageUrl(e.image_url)}`.
      Reading `e.image_url` of a null exam throws; any other value that is not
      an object has no `image_url`, which becomes null. */
  function FixExam(e: Json): (r: Result<Json>)
    ensures e == JNull ==> r.Err?
    ensures e.JObj? && ToFullImageUrl(Get(Some(e), "image_url")).Ok? ==>
              r.Ok? && r.value.JObj? && r.value.fields.Keys == e.fields.Keys + {"image_url"} &&
              (forall k :: k in e.fields && k != "image_url" ==> r.value.fields[k] == e.fields[k]) &&
              r.value.fields["image_url"] == UrlValue(ToFullImageUrl(Get(Some(e), "image_url")).value)
    ensures r.Ok? ==>
              r.value.JObj? && r.value.fields.Keys == Spread(e).Keys + {"image_url"} &&
              (forall k :: k in Spread(e) && k != "image_url" ==> r.value.fields[k] == Spread(e)[k])
    ensures !e.JObj? && e != JNull ==>
              r.Ok? && r.value.JObj? && "image_url" in r.value.fields && r.value.fields["image_url"] == JNull
    ensures e.JNum? || e.JBool? ==> r == Ok(JObj(map["image_url" := JNull]))
  {
    if e == JNull then Err(NullAccessError("image_url"))
    else
      match ToFullImageUrl(Get(Some(e), "image_url"))
      case Err(m) => Err(m)
      case Ok(u) => Ok(JObj(Spread(e)["image_url" := UrlValue(u)]))
  }

  /** What the list fetch produced: a failure of the request or of `res.json()`
      (with its message), or a parsed body. */
  datatype Reply = Failure(message: string) | Reply(body: Json)

  /** `json.data || []`, then the map. A truthy `data` that is not an array has no
      `map`. */
  function FixList(data: Val): (r: Result<seq<Json>>)
    ensures !Truthy(data) ==> r == Ok([])
    ensures IsArray(data) ==> r == MapResult(data.value.items, FixExam)
    ensures r.Ok? && IsArray(data) ==> |r.value| == |data.value.items|
  {
    if !Truthy(data) then Ok([])
    else if !IsArray(data) then Err("list.map is not a function")
    else MapResult(data.value.items, FixExam)
  }

  /** What `fetchExams` leaves behind: the exams, or the error shown. */
  datatype View = View(loading: bool, error: Option<string>, exams: seq<Json>)

  function Load(reply: Reply): (v: View)
    ensures !v.loading
    ensures v.error.None? <==> reply.Reply? && reply.body != JNull &&
                               Truthy(Get(Some(reply.body), "success")) &&
                               FixList(Get(Some(reply.body), "data")).Ok?
    ensures v.error.None? ==> v.exams == FixList(Get(Some(reply.body), "data")).value
    ensures v.error.Some? ==> v.error.value != [] && v.exams == []
    ensures reply.Reply? && reply.body != JNull && !Truthy(Get(Some(reply.body), "success")) &&
            MessageOr(Get(Some(reply.body), "message"), "API failed") != [] ==>
              v.error == Some(MessageOr(Get(Some(reply.body), "message"), "API failed"))
  {
    match Fetch(reply)
    case Err(m) => View(false, Some(if m != [] then m else "Failed"), [])
    case Ok(exams) => View(false, None, exams)
  }

  /** The body of the `try`. */
  function Fetch(reply: Reply): (r: Result<seq<Json>>)
    ensures r.Ok? <==> reply.Reply? && reply.body != JNull &&
                       Truthy(Get(Some(reply.body), "success")) &&
                       FixList(Get(Some(reply.body), "data")).Ok?
    ensures r.Ok? ==> r == FixList(Get(Some(reply.body), "data"))
  {
    match reply
    case Failure(m) => Err(m)
    case Reply(json) =>
      match Member(Some(json), "success")
      case Err(e) => Err(e)
      case Ok(ok) =>
        if !Truthy(ok) then Err(MessageOr(Get(Some(json), "message"), "API failed"))
        else FixList(Get(Some(json), "data"))
  }

  // ---------------------------------------------------------------- the image element

  /** An `<img>` element; `src` is the address it shows. */
  class Img {
    var src: string

    constructor (src0: string)
      ensures src == src0
    {
      src := src0;
    }

    /** `handleExamImgError`: switch to the fallback picture unless already on it. */
    method OnError()
      modifies this
      ensures src == AfterError(old(src))
    {
      if Contains(src, FALLBACK_EXAM) {
        return;
      }
      src := FALLBACK_EXAM;
    }
  }

  /** The address after a load error. */
  function AfterError(src: string): (r: string)
    ensures Contains(r, FALLBACK_EXAM)
    ensures Contains(src, FALLBACK_EXAM) ==> r == src
  {
    ContainsSelf(FALLBACK_EXAM);
    if Contains(src, FALLBACK_EXAM) then src else FALLBACK_EXAM
  }

  /** A second error changes nothing: there is no retry loop. */
  lemma AfterErrorIdempotent(src: string)
    ensures AfterError(AfterError(src)) == AfterError(src)
  {
  }

  /** Two errors in a row leave the element as one error does. */
  method TwoErrors(img: Img)
    modifies img
    ensures img.src == AfterError(old(img.src))
  {
    img.OnError();
    img.OnError();
    AfterErrorIdempotent(old(img.src));
  }
}
