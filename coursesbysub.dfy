/** The courses-by-subcategory page (`src/pages/CoursesBySubCategoryPage.tsx`): it
    reads a numeric subcategory id from the route, tries four requests for the
    courses of that subcategory, and links every course to
    `/courses/${id}-${slugify(name)}`. */
module CoursesBySub {
  import opened Base
  import opened Text
  import opened Json
  import opened Seqs
  import opened Slug
  import opened Attempts
  import opened Uploads

  const DEFAULT_IMG: string := "/default-unit.png"

  // ---------------------------------------------------------------- images

  /** The text `normalizeImageUrl` works on: `String(url)` without backslashes,
      trimmed. */
  function Cleaned(url: Val): (r: string)
    ensures '\\' !in r
    ensures r == [] || (!IsSpace(r[0]) && !IsSpace(r[|r| - 1]))
  {
    var a := RemoveAll(ToStr(url), '\\');
    NotInTrim(a, '\\');
    Trim(a)
  }

  /** `normalizeImageUrl`: a falsy value gives the placeholder; otherwise the
      cleaned text is kept when it is an absolute URL, and anything else becomes a
      file under the upload folder. */
  function NormalizeImageUrl(url: Val): (r: string)
    ensures r != []
    ensures !Truthy(url) ==> r == DEFAULT_IMG
    ensures Truthy(url) && IsAbsolute(Cleaned(url)) ==> r == Cleaned(url)
    ensures Truthy(url) && !IsAbsolute(Cleaned(url)) ==> StartsWith(r, UPLOAD_BASE)
  {
    if !Truthy(url) then DEFAULT_IMG else Rewrite(Cleaned(url))
  }

  /** Normalising a URL this function produced (other than the placeholder) gives it
      back unchanged. */
  lemma {:induction false} ImageUrlStable(url: Val)
    requires Truthy(url)
    ensures NormalizeImageUrl(Some(JStr(NormalizeImageUrl(url)))) == NormalizeImageUrl(url)
  {
    var c := Cleaned(url);
    if IsAbsolute(c) {
      AbsoluteFixed(c);
    } else {
      UploadFixed(c);
    }
  }

  /** What `Rewrite` puts under the upload folder is its own normal form. */
  lemma {:induction false} UploadFixed(c: string)
    requires !IsAbsolute(c) && '\\' !in c && (c == [] || !IsSpace(c[|c| - 1]))
    ensures NormalizeImageUrl(Some(JStr(Rewrite(c)))) == Rewrite(c)
  {
    var tail := UploadName(c);
    NotInSlice(c, |c| - |tail|, |c|, '\\');
    assert c[|c| - |tail|..] == c[|c| - |tail|..|c|];
    assert tail == [] || tail[|tail| - 1] == c[|c| - 1];
    UnderUploadFixed(tail);
  }

  /** A file under the upload folder with no backslash and no trailing white space
      is its own normal form. */
  lemma {:induction false} UnderUploadFixed(tail: string)
    requires '\\' !in tail && (tail == [] || !IsSpace(tail[|tail| - 1]))
    ensures NormalizeImageUrl(Some(JStr(UPLOAD_BASE + tail))) == UPLOAD_BASE + tail
  {
    var r := UPLOAD_BASE + tail;
    UploadBaseFacts();
    UploadIsAbsolute(r);
    assert '\\' !in r by {
      forall k | 0 <= k < |r| ensures r[k] != '\\' {
        if k < |UPLOAD_BASE| { assert r[k] == UPLOAD_BASE[k]; } else { assert r[k] == tail[k - |UPLOAD_BASE|]; }
      }
    }
    assert r[|r| - 1] == if tail == [] then UPLOAD_BASE[38] else tail[|tail| - 1];
    AbsoluteFixed(r);
  }

  /** A clean absolute URL is its own normal form. */
  lemma {:induction false} AbsoluteFixed(r: string)
    requires IsAbsolute(r) && '\\' !in r && !IsSpace(r[|r| - 1])
    ensures NormalizeImageUrl(Some(JStr(r))) == r
  {
    var v := Some(JStr(r));
    assert r[0] == 'h';
    assert Truthy(v) && ToStr(v) == r;
    assert RemoveAll(r, '\\') == r;
    assert Trim(r) == r;
    assert Cleaned(v) == r;
  }

  /** The spellings of an upload the backend sends ("a.png", "/uploads/a.png",
      "uploads/a.png") all give the same URL. */
  lemma {:induction false} ImageUrlConverges(f: string)
    requires PlainName(f)
    ensures NormalizeImageUrl(Some(JStr(f))) == UPLOAD_BASE + f
    ensures NormalizeImageUrl(Some(JStr("uploads/" + f))) == UPLOAD_BASE + f
    ensures NormalizeImageUrl(Some(JStr("/uploads/" + f))) == UPLOAD_BASE + f
  {
    BareConverges(f);
    UploadsConverges(f);
    SlashUploadsConverges(f);
  }

  lemma {:induction false} BareConverges(f: string)
    requires PlainName(f)
    ensures NormalizeImageUrl(Some(JStr(f))) == UPLOAD_BASE + f
  {
    assert "" + f == f;
    PlainCleaned("", f);
    RewriteBare(f);
    CleanInput(f, UPLOAD_BASE + f);
  }

  lemma {:induction false} UploadsConverges(f: string)
    requires PlainName(f)
    ensures NormalizeImageUrl(Some(JStr("uploads/" + f))) == UPLOAD_BASE + f
  {
    PlainCleaned("uploads/", f);
    RewriteUploads(f);
    CleanInput("uploads/" + f, UPLOAD_BASE + f);
  }

  lemma {:induction false} SlashUploadsConverges(f: string)
    requires PlainName(f)
    ensures NormalizeImageUrl(Some(JStr("/uploads/" + f))) == UPLOAD_BASE + f
  {
    PlainCleaned("/uploads/", f);
    RewriteSlashUploads(f);
    CleanInput("/uploads/" + f, UPLOAD_BASE + f);
  }

  /** A non-empty string that cleaning leaves alone is rewritten directly. */
  lemma {:induction false} CleanInput(s: string, r: string)
    requires s != [] && Cleaned(Some(JStr(s))) == s && Rewrite(s) == r
    ensures NormalizeImageUrl(Some(JStr(s))) == r
  {
  }

  /** A prefix free of backslashes and white space followed by a plain name is
      already clean. */
  lemma {:induction false} PlainCleaned(p: string, f: string)
    requires PlainName(f)
    requires forall c :: c in p ==> c != '\\' && !IsSpace(c)
    ensures Cleaned(Some(JStr(p + f))) == p + f
  {
    var s := p + f;
    assert '\\' !in s by {
      forall i | 0 <= i < |s| ensures s[i] != '\\' {
        if i < |p| { assert s[i] == p[i] && p[i] in p; } else { assert s[i] == f[i - |p|] && f[i - |p|] in f; }
      }
    }
    assert !IsSpace(s[0]) by {
      if p != [] { assert s[0] == p[0] && p[0] in p; } else { assert s[0] == f[0] && f[0] in f; }
    }
    assert s[|s| - 1] == f[|f| - 1] && f[|f| - 1] in f;
    assert RemoveAll(s, '\\') == s;
    assert Trim(s) == s;
  }

  /** A value that is truthy but blank, such as " ", gives the bare upload folder
      rather than the placeholder. */
  lemma {:induction false} BlankImageIsFolder()
    ensures NormalizeImageUrl(Some(JStr(" "))) == UPLOAD_BASE
  {
    BlankCleaned();
    RewriteEmpty();
  }

  lemma {:induction false} BlankCleaned()
    ensures Cleaned(Some(JStr(" "))) == []
  {
    assert RemoveAll(" ", '\\') == " ";
    assert IsSpace(' ');
    assert Trim(" ") == [];
  }

  // ---------------------------------------------------------------- records

  /** A course as this page keeps it. `id` is `None` when `Number(r.id)` is NaN. */
  datatype Course = Course(id: Option<int>, courseName: string, imageUrl: Val, price: Val, duration: Val)

  /** `toTitle`: the first of course_name, name, title, course_title, course that is
      neither null nor undefined (else ""), as a string, trimmed. An empty string
      stops the search. */
  function ToTitle(raw: Val): (r: string)
    ensures r == [] || (!IsSpace(r[0]) && !IsSpace(r[|r| - 1]))
    ensures !Nullish(Get(raw, "course_name")) ==> r == Trim(ToStr(Get(raw, "course_name")))
    ensures (forall i :: 0 <= i < |TITLE_KEYS| ==> Nullish(Get(raw, TITLE_KEYS[i]))) ==> r == []
    ensures forall i :: FirstPresent(raw, TITLE_KEYS, i) ==> r == Trim(ToStr(Get(raw, TITLE_KEYS[i])))
  {
    var v := TitleValue(raw);
    assert !Nullish(Get(raw, "course_name")) ==> v == Get(raw, "course_name") by {
      assert TITLE_KEYS[0] == "course_name";
      assert !Nullish(Get(raw, "course_name")) ==> FirstPresent(raw, TITLE_KEYS, 0);
    }
    Trim(ToStr(v))
  }

  /** One row of the map in `normalizeCourses`; reading `r.id` of a null row throws. */
  function NormalizeRow(r: Json): (c: Result<Course>)
    ensures c.Err? <==> r == JNull
    ensures c.Ok? ==> c.value.courseName != [] && c.value.id == ToNumber(Get(Some(r), "id"))
    ensures c.Ok? ==> !Nullish(c.value.price) && !Nullish(c.value.duration)
    ensures c.Ok? && !Nullish(Get(Some(r), "price")) ==> c.value.price == Get(Some(r), "price")
    ensures c.Ok? && !Nullish(Get(Some(r), "duration")) ==> c.value.duration == Get(Some(r), "duration")
    ensures c.Ok? && Nullish(Get(Some(r), "price")) ==> c.value.price == Some(JStr(""))
    ensures c.Ok? && Nullish(Get(Some(r), "duration")) ==> c.value.duration == Some(JStr(""))
    ensures c.Ok? && ToTitle(Some(r)) != [] ==> c.value.courseName == ToTitle(Some(r))
    ensures c.Ok? && ToTitle(Some(r)) == [] ==> c.value.courseName == "Untitled Course"
    ensures c.Ok? && !Nullish(Get(Some(r), "image_url")) ==> c.value.imageUrl == Get(Some(r), "image_url")
    ensures c.Ok? && Nullish(Get(Some(r), "image_url")) ==>
              c.value.imageUrl == if Nullish(Get(Some(r), "image")) then Some(JNull) else Get(Some(r), "image")
  {
    if r == JNull then Err(NullAccessError("id"))
    else
      var title := ToTitle(Some(r));
      Ok(Course(
        ToNumber(Get(Some(r), "id")),
        if title != [] then title else "Untitled Course",
        Coalesce(Get(Some(r), "image_url"), Coalesce(Get(Some(r), "image"), Some(JNull))),
        Coalesce(Get(Some(r), "price"), Some(JStr(""))),
        Coalesce(Get(Some(r), "duration"), Some(JStr("")))))
  }

  /** `normalizeCourses`: one course per row, in order; reading `json.courses` of a
      null body throws. */
  function NormalizeCourses(json: Json): (r: Result<seq<Course>>)
    ensures r.Ok? <==> json != JNull && JNull !in ResponseRows(json)
    ensures r.Ok? ==> |r.value| == |ResponseRows(json)|
    ensures r.Ok? ==> forall i :: 0 <= i < |r.value| ==> NormalizeRow(ResponseRows(json)[i]) == Ok(r.value[i])
  {
    if json == JNull then Err(NullAccessError("courses"))
    else
      var rows := ResponseRows(json);
      var r := MapResult(rows, NormalizeRow);
      assert r.Ok? <==> JNull !in rows by {
        if JNull in rows { var i :| 0 <= i < |rows| && rows[i] == JNull; assert NormalizeRow(rows[i]).Err?; }
      }
      r
  }

  /** Every course of a normalised response has a name and a price and duration
      that are neither null nor undefined. */
  lemma {:induction false} NormalizedCoursesFilled(json: Json)
    requires NormalizeCourses(json).Ok?
    ensures var cs := NormalizeCourses(json).value;
      forall i :: 0 <= i < |cs| ==>
        cs[i].courseName != [] && !Nullish(cs[i].price) && !Nullish(cs[i].duration)
  {
    var cs := NormalizeCourses(json).value;
    forall i | 0 <= i < |cs|
      ensures cs[i].courseName != [] && !Nullish(cs[i].price) && !Nullish(cs[i].duration)
    {
      assert NormalizeRow(ResponseRows(json)[i]) == Ok(cs[i]);
    }
  }

  // ---------------------------------------------------------------- links

  /** `${c.id}`: a NaN id prints as "NaN". */
  function IdText(id: Option<int>): (r: string)
    ensures r != []
    ensures id.Some? && id.value >= 0 ==> '-' !in r && ParseNumber(r) == id
  {
    match id
    case None => "NaN"
    case Some(n) =>
      NumberOfString(n);
      IntToStr(n)
  }

  /** The slug of the link to a course's page: `${c.id}-${slugify(c.course_name)}`. */
  function CourseSlug(c: Course): (r: string)
    ensures c.id.Some? && c.id.value >= 0 ==>
              BeforeFirst(r, '-') == IdText(c.id) && AfterFirst(r, '-') == Slugify(c.courseName)
    ensures SlugShaped(AfterFirst(r, '-')) || c.id.None? || c.id.value < 0
  {
    SlugParts(c.id, Slugify(c.courseName));
    IdText(c.id) + "-" + Slugify(c.courseName)
  }

  lemma {:induction false} SlugParts(id: Option<int>, name: string)
    ensures id.Some? && id.value >= 0 ==>
              BeforeFirst(IdText(id) + "-" + name, '-') == IdText(id) &&
              AfterFirst(IdText(id) + "-" + name, '-') == name
  {
    if id.Some? && id.value >= 0 {
      SplitAtFirst(IdText(id), name, '-');
    }
  }

  // ---------------------------------------------------------------- the load effect

  datatype View = View(loading: bool, error: Option<string>, courses: seq<Course>)

  /** `Number(subCategoryId)` when it is finite; a missing route parameter is NaN. */
  function RouteId(param: Option<string>): (r: Option<int>)
    ensures param.None? ==> r.None?
    ensures param.Some? ==> r == ParseNumber(param.value)
  {
    match param
    case None => None
    case Some(s) => ParseNumber(s)
  }

  /** The effect that loads the page: a missing or non-numeric id sets an error
      without any request; otherwise the four requests are tried in order, the first
      success supplies the list, and when all fail the last error is shown. */
  method Load(param: Option<string>, replies: seq<Reply>) returns (view: View, used: nat)
    requires |replies| == 4
    ensures !view.loading
    ensures RouteId(param).None? ==>
              view == View(false, Some("SubCategoryId is missing / invalid in URL"), []) && used == 0
    ensures RouteId(param).Some? ==>
              var steps := Steps(replies, NormalizeCourses);
              var i := FirstOk(steps);
              if i < 4 then
                view == View(false, None, steps[i].value) && used == i + 1
              else
                used == 4 && view.courses == [] &&
                view.error == Some(if steps[3].error != [] then steps[3].error else "Failed to load courses")
  {
    if RouteId(param).None? {
      return View(false, Some("SubCategoryId is missing / invalid in URL"), []), 0;
    }
    var found, lastErr;
    found, lastErr, used := RunAttempts(replies, NormalizeCourses);
    if lastErr.Some? {
      var m := lastErr.value;
      view := View(false, Some(if m != [] then m else "Failed to load courses"), []);
    } else {
      view := View(false, None, found.value);
    }
  }
}
