/** The course-list page (`src/pages/CourseListPage.tsx`): it reads a subcategory
    slug such as "12-foo-bar" from the route, tries three course endpoints in
    order, keeps the courses of that subcategory and shows each with a normalised
    image URL. */
module CourseList {
  import opened Base
  import opened Text
  import opened Json
  import opened Seqs
  import opened Attempts
  import opened Uploads

  const DEFAULT_IMG: string := "/images/phonic_placeholder_24.webp"

  // ---------------------------------------------------------------- strings

  /** `cleanStr`: `String(v ?? "")`, backslashes removed, quotes stripped at both
      ends, then trimmed. */
  function CleanStr(v: Val): (r: string)
    ensures '\\' !in r
    ensures r == [] || (!IsSpace(r[0]) && !IsSpace(r[|r| - 1]))
    ensures Nullish(v) || v == Some(JStr("")) ==> r == []
  {
    var s := if Nullish(v) then "" else ToStr(v);
    var a := RemoveAll(s, '\\');
    NotInStripQuotesTrim(a, '\\');
    var b := StripLeading(a, '"');
    var c := StripTrailing(b, '"');
    assert Nullish(v) ==> Trim(c) == [] by {
      if Nullish(v) {
        assert |a| == 0 && |b| == 0 && |c| == 0;
      }
    }
    assert v == Some(JStr("")) ==> Trim(c) == [] by {
      if v == Some(JStr("")) {
        assert s == [] && |a| == 0 && |b| == 0 && |c| == 0;
      }
    }
    Trim(c)
  }

  /** `normalizeImageUrl`: the rewriting below applied to the cleaned value. */
  function NormalizeImageUrl(url: Val): (r: string)
    ensures r != []
    ensures Nullish(url) ==> r == DEFAULT_IMG
    ensures (r == DEFAULT_IMG || StartsWith(r, UPLOAD_BASE)) || r == CleanStr(url)
  {
    FromClean(CleanStr(url))
  }

  /** A cleaned value that names a file relative to the site: not a placeholder
      word, not under "/api/uploads/" and not an absolute http(s) URL. */
  predicate Relative(clean: string)
  {
    clean != [] && clean != "null" && clean != "undefined" && !Contains(clean, "/api/uploads/") &&
    !StartsWith(clean, "http://") && !StartsWith(clean, "https://")
  }

  /** The rewriting `normalizeImageUrl` applies to the cleaned string: empty,
      "null" and "undefined" give the placeholder, an absolute URL outside the
      API's upload folder is kept, anything else becomes a file under the upload
      folder. */
  function FromClean(clean: string): (r: string)
    ensures r != []
    ensures (clean == [] || clean == "null" || clean == "undefined") ==> r == DEFAULT_IMG
    ensures (clean != [] && clean != "null" && clean != "undefined" && !Contains(clean, "/api/uploads/") &&
             (StartsWith(clean, "http://") || StartsWith(clean, "https://"))) ==> r == clean
    ensures Relative(clean) && Contains(clean, "uploads/") ==>
              r == (if SplitLast(clean, "uploads/") == [] then DEFAULT_IMG
                    else UPLOAD_BASE + SplitLast(clean, "uploads/"))
    ensures Relative(clean) && !Contains(clean, "uploads/") ==>
              r == UPLOAD_BASE + (if SplitLast(clean, "/") != [] then SplitLast(clean, "/") else clean)
    ensures (r == DEFAULT_IMG || StartsWith(r, UPLOAD_BASE)) || r == clean
  {
    if clean == [] || clean == "null" || clean == "undefined" then DEFAULT_IMG
    else if Contains(clean, "/api/uploads/") then
      var last := SplitLast(clean, "/");
      UPLOAD_BASE + (if last != [] then last else clean)
    else if StartsWith(clean, "http://") || StartsWith(clean, "https://") then clean
    else if Contains(clean, "uploads/") then
      var filename := SplitLast(clean, "uploads/");
      if filename != [] then UPLOAD_BASE + filename else DEFAULT_IMG
    else
      var last := SplitLast(clean, "/");
      var filename := if last != [] then last else clean;
      UPLOAD_BASE + filename
  }

  /** A string with no backslash, no quote at either end and no white space at
      either end is left alone by `cleanStr`. */
  lemma {:induction false} CleanKeeps(s: string)
    requires '\\' !in s && s != []
    requires s[0] != '"' && s[|s| - 1] != '"' && !IsSpace(s[0]) && !IsSpace(s[|s| - 1])
    ensures CleanStr(Some(JStr(s))) == s
  {
    assert RemoveAll(s, '\\') == s;
    assert StripLeading(s, '"') == s;
    assert StripTrailing(s, '"') == s;
    assert Trim(s) == s;
  }

  /** A plain file name in quotes is cleaned to the name. */
  lemma {:induction false} CleanQuoted(f: string)
    requires PlainName(f)
    ensures CleanStr(Some(JStr("\"" + f + "\""))) == f
  {
    var q := "\"" + f + "\"";
    var v := Some(JStr(q));
    assert f[0] in f && f[|f| - 1] in f;
    assert !Nullish(v) && ToStr(v) == q;
    NoBackslashQuoted(f);
    QuotesStripped(f);
    assert Trim(f) == f;
  }

  lemma {:induction false} QuotesStripped(f: string)
    requires f != [] && f[0] != '"' && f[|f| - 1] != '"'
    ensures StripTrailing(StripLeading("\"" + f + "\"", '"'), '"') == f
  {
    var g := f + "\"";
    assert "\"" + f + "\"" == "\"" + g;
    StripOneLeading(g, '"');
    StripOneTrailing(f, '"');
  }

  lemma {:induction false} NoBackslashQuoted(f: string)
    requires '\\' !in f
    ensures RemoveAll("\"" + f + "\"", '\\') == "\"" + f + "\""
  {
    var q := "\"" + f + "\"";
    forall i | 0 <= i < |q| ensures q[i] != '\\' {
      if 0 < i <= |f| { assert q[i] == f[i - 1] && f[i - 1] in f; }
    }
  }

  /** Every spelling of an upload path the backend is known to send maps to the
      same URL: a bare file name, "uploads/name", "/uploads/name", the name in
      quotes, and an absolute URL through the API's upload folder. */
  lemma {:induction false} ImageUrlConverges(f: string)
    requires PlainName(f) && f != "null" && f != "undefined"
    ensures NormalizeImageUrl(Some(JStr(f))) == UPLOAD_BASE + f
    ensures NormalizeImageUrl(Some(JStr("\"" + f + "\""))) == UPLOAD_BASE + f
    ensures NormalizeImageUrl(Some(JStr("uploads/" + f))) == UPLOAD_BASE + f
    ensures NormalizeImageUrl(Some(JStr("/uploads/" + f))) == UPLOAD_BASE + f
    ensures NormalizeImageUrl(Some(JStr("https://xiadot.com/admin_maths/api/uploads/" + f))) == UPLOAD_BASE + f
  {
    assert '/' !in f;
    BareName(f);
    QuotedName(f);
    UploadsPath(f);
    SlashUploadsPath(f);
    ApiPath(f);
  }

  lemma {:induction false} BareName(f: string)
    requires PlainName(f) && f != "null" && f != "undefined"
    ensures NormalizeImageUrl(Some(JStr(f))) == UPLOAD_BASE + f
  {
    assert f[0] in f && f[|f| - 1] in f;
    CleanKeeps(f);
    BareNameClean(f);
  }

  lemma {:induction false} QuotedName(f: string)
    requires PlainName(f) && f != "null" && f != "undefined"
    ensures NormalizeImageUrl(Some(JStr("\"" + f + "\""))) == UPLOAD_BASE + f
  {
    CleanQuoted(f);
    BareNameClean(f);
  }

  lemma {:induction false} ApiPath(f: string)
    requires PlainName(f)
    ensures NormalizeImageUrl(Some(JStr("https://xiadot.com/admin_maths/api/uploads/" + f))) == UPLOAD_BASE + f
  {
    var api := "https://xiadot.com/admin_maths/api/uploads/";
    CleanPlainPath(api, f);
    assert '/' !in f;
    ApiPathClean(f);
    assert NormalizeImageUrl(Some(JStr(api + f))) == FromClean(api + f);
  }

  lemma {:induction false} BareNameClean(f: string)
    requires f != [] && '/' !in f && f != "null" && f != "undefined"
    ensures FromClean(f) == UPLOAD_BASE + f
  {
    NoCharNoContains(f, "/api/uploads/", '/');
    NoSlashNoUploads(f);
    NoCharNoContains(f, "/", '/');
    HttpHasSlash(f);
    BareBranch(f);
  }

  lemma {:induction false} HttpHasSlash(s: string)
    ensures StartsWith(s, "http://") || StartsWith(s, "https://") ==> '/' in s
  {
    if StartsWith(s, "http://") {
      assert s[5] == '/';
    } else if StartsWith(s, "https://") {
      assert s[6] == '/';
    }
  }

  lemma {:induction false} ApiPathClean(f: string)
    requires f != [] && '/' !in f
    ensures FromClean("https://xiadot.com/admin_maths/api/uploads/" + f) == UPLOAD_BASE + f
  {
    var api := "https://xiadot.com/admin_maths/api/uploads/";
    var s := api + f;
    assert |api| == 43 && api[30..] == "/api/uploads/";
    assert s[30..][..13] == api[30..] by {
      assert forall k :: 0 <= k < 13 ==> s[30..][..13][k] == s[30 + k] == api[30 + k];
    }
    ContainsInSuffix(s, 30, "/api/uploads/");
    SplitLastAfter(api, f, '/');
    assert s != [] && s != "null" && s != "undefined" by { assert |s| > 9; }
    ApiBranch(s);
  }

  /** `cleanStr` leaves a path made of a clean prefix and a plain name unchanged. */
  lemma {:induction false} CleanPlainPath(p: string, f: string)
    requires PlainName(f) && p != [] && '\\' !in p && p[0] != '"' && !IsSpace(p[0])
    ensures CleanStr(Some(JStr(p + f))) == p + f
  {
    var s := p + f;
    assert '\\' !in s by {
      forall i | 0 <= i < |s| ensures s[i] != '\\' {
        if i < |p| { assert s[i] == p[i] && p[i] in p; } else { assert s[i] == f[i - |p|] && f[i - |p|] in f; }
      }
    }
    assert s[0] == p[0];
    assert s[|s| - 1] == f[|f| - 1] && f[|f| - 1] in f;
    CleanKeeps(s);
  }

  lemma {:induction false} ApiPathSlashes()
    ensures Count("/api/uploads/", '/') == 3
  {
  }

  /** A path with fewer than three slashes is not an API upload path. */
  lemma {:induction false} NotApiPath(s: string)
    requires Count(s, '/') < 3
    ensures !Contains(s, "/api/uploads/")
  {
    ApiPathSlashes();
    if Contains(s, "/api/uploads/") {
      ContainsCount(s, "/api/uploads/", '/');
    }
  }

  lemma {:induction false} NoSlashNoUploads(f: string)
    requires '/' !in f
    ensures !Contains(f, "uploads/")
  {
    assert "uploads/"[7] == '/';
    NoCharNoContains(f, "uploads/", '/');
  }

  /** The "uploads/" branch of `normalizeImageUrl`. */
  lemma {:induction false} UploadsBranch(s: string)
    requires s != [] && s != "null" && s != "undefined" && !Contains(s, "/api/uploads/")
    requires !StartsWith(s, "http://") && !StartsWith(s, "https://") && Contains(s, "uploads/")
    requires SplitLast(s, "uploads/") != []
    ensures FromClean(s) == UPLOAD_BASE + SplitLast(s, "uploads/")
  {
  }

  /** The API-upload branch of `normalizeImageUrl`. */
  lemma {:induction false} ApiBranch(s: string)
    requires s != [] && s != "null" && s != "undefined" && Contains(s, "/api/uploads/")
    requires SplitLast(s, "/") != []
    ensures FromClean(s) == UPLOAD_BASE + SplitLast(s, "/")
  {
  }

  /** The bare-name branch of `normalizeImageUrl`. */
  lemma {:induction false} BareBranch(s: string)
    requires s != [] && s != "null" && s != "undefined" && !Contains(s, "/api/uploads/")
    requires !StartsWith(s, "http://") && !StartsWith(s, "https://") && !Contains(s, "uploads/")
    requires !Contains(s, "/")
    ensures FromClean(s) == UPLOAD_BASE + s
  {
  }

  lemma {:induction false} UploadsPath(f: string)
    requires PlainName(f)
    ensures NormalizeImageUrl(Some(JStr("uploads/" + f))) == UPLOAD_BASE + f
  {
    CleanPlainPath("uploads/", f);
    assert '/' !in f;
    UploadsPathClean(f);
  }

  lemma {:induction false} UploadsPathClean(f: string)
    requires f != [] && '/' !in f
    ensures FromClean("uploads/" + f) == UPLOAD_BASE + f
  {
    var s := "uploads/" + f;
    CountAppend("uploads/", f, '/');
    NotApiPath(s);
    UploadsPathShape(f);
    SplitUploads(f);
    UploadsBranch(s);
  }

  lemma {:induction false} UploadsPathShape(f: string)
    ensures var s := "uploads/" + f;
      s != [] && s != "null" && s != "undefined" && !StartsWith(s, "http://") && !StartsWith(s, "https://")
  {
    var s := "uploads/" + f;
    assert |s| >= 8 && s[1] == 'p';
  }

  lemma {:induction false} SplitUploads(f: string)
    requires '/' !in f
    ensures Contains("uploads/" + f, "uploads/")
    ensures SplitLast("uploads/" + f, "uploads/") == f
  {
    var s := "uploads/" + f;
    assert StartsWith(s, "uploads/");
    NoSlashNoUploads(f);
    assert s[8..] == f;
  }

  lemma {:induction false} SlashUploadsPath(f: string)
    requires PlainName(f)
    ensures NormalizeImageUrl(Some(JStr("/uploads/" + f))) == UPLOAD_BASE + f
  {
    CleanPlainPath("/uploads/", f);
    assert '/' !in f;
    SlashUploadsPathClean(f);
  }

  lemma {:induction false} SlashUploadsPathClean(f: string)
    requires f != [] && '/' !in f
    ensures FromClean("/uploads/" + f) == UPLOAD_BASE + f
  {
    var s := "/uploads/" + f;
    CountAppend("/uploads/", f, '/');
    NotApiPath(s);
    SlashUploadsPathShape(f);
    SplitSlashUploads(f);
    UploadsBranch(s);
  }

  lemma {:induction false} SlashUploadsPathShape(f: string)
    ensures var s := "/uploads/" + f;
      s != [] && s != "null" && s != "undefined" && !StartsWith(s, "http://") && !StartsWith(s, "https://")
  {
    var s := "/uploads/" + f;
    assert |s| >= 9 && s[0] == '/';
  }

  lemma {:induction false} SplitSlashUploads(f: string)
    requires '/' !in f
    ensures Contains("/uploads/" + f, "uploads/")
    ensures SplitLast("/uploads/" + f, "uploads/") == f
  {
    var s := "/uploads/" + f;
    SplitUploads(f);
    assert s[1..] == "uploads/" + f;
    assert !StartsWith(s, "uploads/") by { assert s[0] == '/'; }
  }

  // ---------------------------------------------------------------- records

  /** A course as the page keeps it. `id` is `None` when `Number(r.id)` is NaN. */
  datatype Course = Course(id: Option<int>, courseName: string, imageUrl: Val, subcategoryId: Val)

  /** `toTitle`: the first of course_name, name, title, course_title, course that is
      neither null nor undefined (else ""), cleaned. */
  function ToTitle(raw: Val): (r: string)
    ensures r == [] || (!IsSpace(r[0]) && !IsSpace(r[|r| - 1]))
    ensures !Nullish(Get(raw, "course_name")) ==> r == CleanStr(Get(raw, "course_name"))
    ensures (forall i :: 0 <= i < |TITLE_KEYS| ==> Nullish(Get(raw, TITLE_KEYS[i]))) ==> r == []
    ensures forall i :: FirstPresent(raw, TITLE_KEYS, i) ==> r == CleanStr(Get(raw, TITLE_KEYS[i]))
  {
    var v := TitleValue(raw);
    assert !Nullish(Get(raw, "course_name")) ==> v == Get(raw, "course_name") by {
      assert TITLE_KEYS[0] == "course_name";
      assert !Nullish(Get(raw, "course_name")) ==> FirstPresent(raw, TITLE_KEYS, 0);
    }
    CleanStr(v)
  }

  /** The properties a row may carry its image in, and its subcategory id in, in
      the order `??` tries them. */
  const ROW_IMAGE_KEYS: seq<string> := ["image_url", "image", "imagePath"]
  const ROW_SUBCATEGORY_KEYS: seq<string> := ["subcategory_id", "sub_cat_id", "subCategoryId"]

  /** `r.image_url ?? r.image ?? r.imagePath ?? null`. */
  function RowImage(r: Json): (v: Val)
    ensures forall i :: FirstPresent(Some(r), ROW_IMAGE_KEYS, i) ==>
                        v == Get(Some(r), ROW_IMAGE_KEYS[i])
    ensures (forall i :: 0 <= i < |ROW_IMAGE_KEYS| ==> Nullish(Get(Some(r), ROW_IMAGE_KEYS[i]))) ==>
              v == Some(JNull)
  {
    CoalesceKeys(Some(r), ROW_IMAGE_KEYS, Some(JNull))
  }

  /** `r.subcategory_id ?? r.sub_cat_id ?? r.subCategoryId ?? null`. */
  function RowSubcategory(r: Json): (v: Val)
    ensures forall i :: FirstPresent(Some(r), ROW_SUBCATEGORY_KEYS, i) ==>
                        v == Get(Some(r), ROW_SUBCATEGORY_KEYS[i])
    ensures (forall i :: 0 <= i < |ROW_SUBCATEGORY_KEYS| ==> Nullish(Get(Some(r), ROW_SUBCATEGORY_KEYS[i]))) ==>
              v == Some(JNull)
  {
    CoalesceKeys(Some(r), ROW_SUBCATEGORY_KEYS, Some(JNull))
  }

  /** One row of the map in `normalizeCourses`; reading `r.id` of a null row throws. */
  function NormalizeRow(r: Json): (c: Result<Course>)
    ensures c.Err? <==> r == JNull
    ensures c.Ok? ==> c.value.courseName != [] && c.value.id == ToNumber(Get(Some(r), "id"))
    ensures c.Ok? && ToTitle(Some(r)) != [] ==> c.value.courseName == ToTitle(Some(r))
    ensures c.Ok? && ToTitle(Some(r)) == [] ==> c.value.courseName == "Untitled Course"
    ensures c.Ok? ==>
              forall i :: FirstPresent(Some(r), ROW_IMAGE_KEYS, i) ==>
                          c.value.imageUrl == Get(Some(r), ROW_IMAGE_KEYS[i])
    ensures c.Ok? && (forall i :: 0 <= i < |ROW_IMAGE_KEYS| ==> Nullish(Get(Some(r), ROW_IMAGE_KEYS[i]))) ==>
              c.value.imageUrl == Some(JNull)
    ensures c.Ok? ==>
              forall i :: FirstPresent(Some(r), ROW_SUBCATEGORY_KEYS, i) ==>
                          c.value.subcategoryId == Get(Some(r), ROW_SUBCATEGORY_KEYS[i])
    ensures c.Ok? && (forall i :: 0 <= i < |ROW_SUBCATEGORY_KEYS| ==>
                                   Nullish(Get(Some(r), ROW_SUBCATEGORY_KEYS[i]))) ==>
              c.value.subcategoryId == Some(JNull)
  {
    if r == JNull then Err(NullAccessError("id"))
    else
      var title := ToTitle(Some(r));
      Ok(Course(ToNumber(Get(Some(r), "id")), if title != [] then title else "Untitled Course",
                RowImage(r), RowSubcategory(r)))
  }

  /** `normalizeCourses`: reading `json.courses` of a null body throws. */
  function NormalizeCourses(json: Json): (r: Result<seq<Course>>)
    ensures r.Ok? <==> json != JNull && JNull !in ResponseRows(json)
    ensures r.Ok? ==> |r.value| == |ResponseRows(json)|
    ensures r.Ok? ==> forall i :: 0 <= i < |r.value| ==> NormalizeRow(ResponseRows(json)[i]) == Ok(r.value[i])
  {
    if json == JNull then Err(NullAccessError("courses"))
    else
      var rows := ResponseRows(json);
      var r := MapResult(rows, NormalizeRow);
      assert r.Ok? <==> JNull !in rows by {
        if JNull in rows { var i :| 0 <= i < |rows| && rows[i] == JNull; assert NormalizeRow(rows[i]).Err?; }
      }
      r
  }

  /** Every course of a normalised response has a name, and its id is `Number` of
      the row's id. */
  lemma {:induction false} NormalizedCoursesNamed(json: Json)
    requires NormalizeCourses(json).Ok?
    ensures var cs := NormalizeCourses(json).value;
      forall i :: 0 <= i < |cs| ==>
        cs[i].courseName != [] && cs[i].id == ToNumber(Get(Some(ResponseRows(json)[i]), "id"))
  {
    var cs := NormalizeCourses(json).value;
    forall i | 0 <= i < |cs|
      ensures cs[i].courseName != [] && cs[i].id == ToNumber(Get(Some(ResponseRows(json)[i]), "id"))
    {
      assert NormalizeRow(ResponseRows(json)[i]) == Ok(cs[i]);
    }
  }

  // ---------------------------------------------------------------- the slug

  /** Upper-cases every `\w` character that starts a word. */
  function CapitalizeWords(s: string, prevIsWord: bool): (r: string)
    ensures |r| == |s|
    ensures forall i :: 0 <= i < |s| ==> r[i] == (if StartsWord(s, i, prevIsWord) then ToUpperChar(s[i]) else s[i])
  {
    if s == [] then []
    else
      var r := [if !prevIsWord && IsWordChar(s[0]) then ToUpperChar(s[0]) else s[0]] +
        CapitalizeWords(s[1..], IsWordChar(s[0]));
      StartsWordShift(s, prevIsWord);
      r
  }

  /** `\b\w`: position `i` holds a word character right after a non-word character
      (or at the start, when the text before is not a word). */
  predicate StartsWord(s: string, i: nat, prevIsWord: bool)
    requires i < |s|
  {
    IsWordChar(s[i]) && !(if i == 0 then prevIsWord else IsWordChar(s[i - 1]))
  }

  /** Word starts in the tail are the word starts of the whole, shifted by one. */
  lemma {:induction false} StartsWordShift(s: string, prevIsWord: bool)
    requires s != []
    ensures forall i :: 1 <= i < |s| ==>
      (s[1..][i - 1] == s[i] && (StartsWord(s[1..], i - 1, IsWordChar(s[0])) <==> StartsWord(s, i, prevIsWord)))
  {
  }

  /** `titleCaseFromSlug`: "MORE COURSES" for an empty name; otherwise hyphens become
      spaces and each word starts with a capital. */
  function TitleCaseFromSlug(s: string): (r: string)
    ensures r != []
    ensures s != [] ==> |r| == |s| && '-' !in r
  {
    if s == [] then "MORE COURSES"
    else CapitalizeWords(ReplaceAll(s, '-', " "), false)
  }

  /** What the page reads from its slug: the id before the first "-" (when
      `Number` of it is finite) and the heading made from the rest. */
  datatype SlugInfo = SlugInfo(subCatId: Option<int>, heading: string)

  function ParseSlug(slug: string): (info: SlugInfo)
    ensures info.heading != []
    ensures info.subCatId == ParseNumber(BeforeFirst(slug, '-'))
  {
    SlugInfo(ParseNumber(BeforeFirst(slug, '-')), TitleCaseFromSlug(AfterFirst(slug, '-')))
  }

  /** A slug built as `${id}-${name}` reads back as that id and the heading made
      from the name. */
  lemma {:induction false} ParseSlugOfLink(id: nat, name: string)
    ensures ParseSlug(NatToStr(id) + "-" + name) == SlugInfo(Some(id), TitleCaseFromSlug(name))
  {
    assert '-' !in NatToStr(id);
    SplitAtFirst(NatToStr(id), name, '-');
    NumberOfString(id);
  }

  /** "12-foo-bar" is subcategory 12 with the heading "Foo Bar". */
  lemma {:induction false} ParseSlugExample()
    ensures ParseSlug("12-foo-bar") == SlugInfo(Some(12), "Foo Bar")
  {
    assert NatToStr(12) == "12" by {
      assert NatToStr(12) == NatToStr(1) + [DigitChar(2)];
    }
    assert "12-foo-bar" == NatToStr(12) + "-" + "foo-bar";
    ParseSlugOfLink(12, "foo-bar");
    FooBarTitle();
  }

  lemma {:induction false} FooBarTitle()
    ensures TitleCaseFromSlug("foo-bar") == "Foo Bar"
  {
    FooBarSpaced();
    FooBarCapitalized();
  }

  lemma {:induction false} FooBarSpaced()
    ensures ReplaceAll("foo-bar", '-', " ") == "foo bar"
  {
    var a, b := "foo", "bar";
    assert '-' !in a && '-' !in b;
    assert "foo-bar" == (a + "-") + b && "foo bar" == (a + " ") + b;
    ReplaceAllAppend(a + "-", b, '-', " ");
    ReplaceAllAppend(a, "-", '-', " ");
    assert ReplaceAll("-", '-', " ") == " ";
  }

  lemma {:induction false} FooBarCapitalized()
    ensures CapitalizeWords("foo bar", false) == "Foo Bar"
  {
    var e := "foo bar";
    var r := CapitalizeWords(e, false);
    var title := "Foo Bar";
    assert |r| == |title|;
    forall i | 0 <= i < |title| ensures r[i] == title[i] {
      if i == 0 || i == 4 {
        assert StartsWord(e, i, false);
      } else {
        assert !StartsWord(e, i, false);
      }
    }
  }

  /** A slug without a name part gets the heading "MORE COURSES". */
  lemma {:induction false} ParseSlugNoName(id: nat)
    ensures ParseSlug(NatToStr(id)) == SlugInfo(Some(id), "MORE COURSES")
  {
    var s := NatToStr(id);
    assert '-' !in s;
    NumberOfString(id);
  }

  /** A slug whose first part starts with a letter has no id, so the page reports
      an invalid slug. */
  lemma {:induction false} ParseSlugInvalid(word: string, rest: string)
    requires word != [] && '-' !in word && 'a' <= word[0] <= 'z'
    ensures ParseSlug(word + "-" + rest).subCatId.None?
  {
    assert word + "-" + rest == word + ['-'] + rest;
    SplitAtFirst(word, rest, '-');
    LetterFirstNotNumber(word);
  }

  /** Text starting with a letter is not a number. */
  lemma {:induction false} LetterFirstNotNumber(word: string)
    requires word != [] && 'a' <= word[0] <= 'z'
    ensures ParseNumber(word).None?
  {
    assert !IsSpace(word[0]);
    var t := Trim(word);
    assert t != [] && t[0] == word[0] && !IsDigit(t[0]);
    assert !AllDigits(t) by { assert t[0] in t; }
  }

  // ---------------------------------------------------------------- the filter

  predicate InSubcategory(c: Course, id: int) {
    ToStr(c.subcategoryId) == IntToStr(id)
  }

  /** The courses are narrowed to the requested subcategory only when some course
      carries a subcategory id at all. */
  function FilterBySubcategory(all: seq<Course>, id: int): (r: seq<Course>)
    ensures IsSubsequence(r, all)
    ensures (exists c :: c in all && !Nullish(c.subcategoryId)) ==>
              forall i :: 0 <= i < |r| ==> InSubcategory(r[i], id)
    ensures (exists c :: c in all && !Nullish(c.subcategoryId)) ==>
              forall i :: 0 <= i < |all| && InSubcategory(all[i], id) ==> all[i] in r
    ensures (forall c :: c in all ==> Nullish(c.subcategoryId)) ==> r == all
    ensures (exists c :: c in all && !Nullish(c.subcategoryId)) ==>
              forall x :: multiset(r)[x] == if InSubcategory(x, id) then multiset(all)[x] else 0
  {
    if exists c :: c in all && !Nullish(c.subcategoryId) then
      var p := (c: Course) => InSubcategory(c, id);
      FilterIsSubsequence(all, p);
      Filter(all, p)
    else
      SubsequenceRefl(all);
      all
  }

  // ---------------------------------------------------------------- the load effect

  datatype View = View(loading: bool, error: Option<string>, courses: seq<Course>)

  /** The effect that loads the page: an invalid slug sets an error without any
      request; otherwise the three requests are tried in order. */
  method Load(slug: string, replies: seq<Reply>) returns (view: View, used: nat)
    requires |replies| == 3
    ensures !view.loading
    ensures ParseSlug(slug).subCatId.None? ==>
              view == View(false, Some("Invalid subcategory slug"), []) && used == 0
    ensures ParseSlug(slug).subCatId.Some? ==>
              var steps := Steps(replies, NormalizeCourses);
              var i := FirstOk(steps);
              if i < 3 then
                view.error.None? && used == i + 1 &&
                view.courses == FilterBySubcategory(steps[i].value, ParseSlug(slug).subCatId.value)
              else
                used == 3 && view.courses == [] &&
                view.error == Some(if steps[2].error != [] then steps[2].error else "Failed to load courses")
  {
    var info := ParseSlug(slug);
    if info.subCatId.None? {
      return View(false, Some("Invalid subcategory slug"), []), 0;
    }
    var found, lastErr;
    found, lastErr, used := RunAttempts(replies, NormalizeCourses);
    if lastErr.Some? {
      var m := lastErr.value;
      view := View(false, Some(if m != [] then m else "Failed to load courses"), []);
    } else {
      view := View(false, None, FilterBySubcategory(found.value, info.subCatId.value));
    }
  }
}
