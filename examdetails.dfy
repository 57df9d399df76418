/** The exam-details page (`src/pages/ExamDetails.tsx`): it reads a numeric exam id
    from the route, requests the categories of that exam, and shows each with a
    name, an id and an absolute image URL. */
module ExamDetails {
  import opened Base
  import opened Text
  import opened Json
  import opened Seqs

  const SITE_BASE: string := "https://xiadot.com"
  /** Where uploaded files live: `${SITE_BASE}/admin_maths/uploads/`. */
  const UPLOADS: string := "https://xiadot.com/admin_maths/uploads/"

  // ---------------------------------------------------------------- numbers and names

  /** `toNumber`: `Number(v)` when it is finite, otherwise null. */
  function ToNumberOrNull(v: Val): (r: Option<int>)
    ensures v.Some? && v.value.JNum? ==> r == Some(v.value.n)
    ensures v == Some(JNull) ==> r == Some(0)
    ensures v.None? ==> r.None?
    ensures v.Some? && v.value.JStr? ==> r == ParseNumber(v.value.s)
  {
    ToNumber(v)
  }

  /** `toNumber(v.k1) ?? toNumber(v.k2) ?? …`: the first listed property whose
      numeric value is finite. */
  function FirstNumber(v: Val, keys: seq<string>): (r: Option<int>)
    ensures (forall i :: 0 <= i < |keys| ==> ToNumberOrNull(Get(v, keys[i])).None?) ==> r.None?
    ensures forall i :: (0 <= i < |keys| && ToNumberOrNull(Get(v, keys[i])).Some? &&
                         (forall j :: 0 <= j < i ==> ToNumberOrNull(Get(v, keys[j])).None?)) ==>
                        r == ToNumberOrNull(Get(v, keys[i]))
    decreases |keys|
  {
    if keys == [] then None
    else
      var rest := FirstNumber(v, keys[1..]);
      assert forall i :: 1 <= i < |keys| ==> keys[1..][i - 1] == keys[i];
      var n := ToNumberOrNull(Get(v, keys[0]));
      if n.Some? then n else rest
  }

  const ID_KEYS: seq<string> := ["id", "category_id", "subcategory_id"]
  const NAME_KEYS: seq<string> := ["name", "category_name", "subcategory_name", "title", "exam_name", "course_name"]
  const IMAGE_KEYS: seq<string> := ["image_url", "image", "img", "icon", "photo"]

  /** `safeId`: the first of id, category_id, subcategory_id with a finite
      numeric value, else 0. */
  function SafeId(item: Val): (r: int)
    ensures (forall i :: 0 <= i < |ID_KEYS| ==> ToNumberOrNull(Get(item, ID_KEYS[i])).None?) ==> r == 0
    ensures ToNumberOrNull(Get(item, "id")).Some? ==> r == ToNumberOrNull(Get(item, "id")).value
    ensures forall i :: (0 <= i < |ID_KEYS| && ToNumberOrNull(Get(item, ID_KEYS[i])).Some? &&
                         (forall j :: 0 <= j < i ==> ToNumberOrNull(Get(item, ID_KEYS[j])).None?)) ==>
                        r == ToNumberOrNull(Get(item, ID_KEYS[i])).value
  {
    FirstNumber(item, ID_KEYS).GetOr(0)
  }

  /** `safeName`: the first truthy of the name properties, else "Unnamed", as a
      string. */
  function SafeName(item: Val): (r: string)
    ensures (forall i :: 0 <= i < |NAME_KEYS| ==> !Truthy(Get(item, NAME_KEYS[i]))) ==> r == "Unnamed"
    ensures Truthy(Get(item, "name")) ==> r == ToStr(Get(item, "name"))
    ensures forall i :: (0 <= i < |NAME_KEYS| && Truthy(Get(item, NAME_KEYS[i])) &&
                         (forall j :: 0 <= j < i ==> !Truthy(Get(item, NAME_KEYS[j])))) ==>
                        r == ToStr(Get(item, NAME_KEYS[i]))
  {
    ToStr(OrKeys(item, NAME_KEYS, Some(JStr("Unnamed"))))
  }

  // ---------------------------------------------------------------- images

  /** The text `normalizeImageUrl` works on: `String(v)` trimmed, without
      backslashes, without the leading and the trailing run of quotes. */
  function Cleaned(v: Val): (r: string)
    ensures '\\' !in r
  {
    var a := RemoveAll(Trim(ToStr(v)), '\\');
    NotInStripQuotes(a, '\\');
    StripTrailing(StripLeading(a, '"'), '"')
  }

  /** `normalizeImageUrl`: null for a falsy value and for a value that is empty once
      cleaned; otherwise an absolute URL. */
  function NormalizeImageUrl(v: Val): (r: Option<string>)
    ensures !Truthy(v) ==> r.None?
    ensures Truthy(v) ==> (r.None? <==> Cleaned(v) == [])
    ensures r.Some? ==> IsAbsolute(r.value) && '\\' !in r.value
    ensures Truthy(v) && IsAbsolute(Cleaned(v)) ==> r == Some(Cleaned(v))
  {
    if !Truthy(v) then None else FromClean(Cleaned(v))
  }

  /** The rewriting of the cleaned text. */
  function FromClean(s: string): (r: Option<string>)
    requires '\\' !in s
    ensures r.None? <==> s == []
    ensures r.Some? ==> IsAbsolute(r.value) && '\\' !in r.value
    ensures IsAbsolute(s) ==> r == Some(s)
  {
    if s == [] then None
    else if IsAbsolute(s) then Some(s)
    else
      var t := DropPrefix(s, "../");
      assert '\\' !in t by { NotInSlice(s, |s| - |t|, |s|, '\\'); assert t == s[|s| - |t|..|s|]; }
      Some(Place(t))
  }

  /** The four placements of a relative path under the site. */
  function Place(t: string): (r: string)
    requires '\\' !in t
    ensures StartsWith(r, "https://") && IsAbsolute(r) && '\\' !in r
  {
    var r :=
      if StartsWith(t, "/uploads/") then SITE_BASE + "/admin_maths" + t
      else if StartsWith(t, "uploads/") then SITE_BASE + "/admin_maths/" + t
      else if StartsWith(t, "admin_maths/") then SITE_BASE + "/" + t
      else UPLOADS + t;
    PlacedShape(r, |r| - |t|, t);
    r
  }

  /** A site prefix followed by a backslash-free path. */
  lemma PlacedShape(r: string, k: int, t: string)
    requires 8 <= k <= |r| && r[..8] == "https://" && r[k..] == t && '\\' !in t && '\\' !in r[..k]
    ensures StartsWith(r, "https://") && IsAbsolute(r) && '\\' !in r
  {
    assert r == r[..k] + t;
  }

  /** The spellings of an upload the backend sends all give the same URL: a bare
      file name, "/uploads/name", "uploads/name", "admin_maths/uploads/name" and
      "../uploads/name". */
  lemma ImageUrlConverges(f: string)
    requires PlainName(f)
    ensures NormalizeImageUrl(Some(JStr(f))) == Some(UPLOADS + f)
    ensures NormalizeImageUrl(Some(JStr("/uploads/" + f))) == Some(UPLOADS + f)
    ensures NormalizeImageUrl(Some(JStr("uploads/" + f))) == Some(UPLOADS + f)
    ensures NormalizeImageUrl(Some(JStr("admin_maths/uploads/" + f))) == Some(UPLOADS + f)
    ensures NormalizeImageUrl(Some(JStr("../uploads/" + f))) == Some(UPLOADS + f)
  {
    BareConverges(f);
    SlashUploadsConverges(f);
    UploadsConverges(f);
    AdminConverges(f);
    ParentConverges(f);
  }

  /** A clean path is its own cleaned text. */
  lemma CleanPath(p: string, f: string)
    requires PlainName(f)
    requires forall c :: c in p ==> c != '\\' && c != '"' && !IsSpace(c)
    ensures Cleaned(Some(JStr(p + f))) == p + f
  {
    var s := p + f;
    assert forall i :: 0 <= i < |s| ==> s[i] != '\\' && s[i] != '"' && !IsSpace(s[i]) by {
      forall i | 0 <= i < |s| ensures s[i] != '\\' && s[i] != '"' && !IsSpace(s[i]) {
        if i < |p| { assert s[i] == p[i] && p[i] in p; } else { assert s[i] == f[i - |p|] && f[i - |p|] in f; }
      }
    }
    assert Trim(s) == s;
    assert RemoveAll(s, '\\') == s;
    assert StripLeading(s, '"') == s;
    assert StripTrailing(s, '"') == s;
  }

  /** A non-empty clean text is rewritten directly. */
  lemma CleanInput(s: string, r: string)
    requires s != [] && Cleaned(Some(JStr(s))) == s && FromClean(s) == Some(r)
    ensures NormalizeImageUrl(Some(JStr(s))) == Some(r)
  {
  }

  /** A plain name starts none of the recognised prefixes. */
  lemma PlainNoPrefix(f: string)
    requires PlainName(f)
    ensures !IsAbsolute(f) && !StartsWith(f, "../") && !StartsWith(f, "/uploads/")
    ensures !StartsWith(f, "uploads/") && !StartsWith(f, "admin_maths/")
  {
    assert f[0] in f;
    if |f| > 2 { assert f[2] in f; }
    if |f| > 5 { assert f[5] in f; }
    if |f| > 7 { assert f[7] in f; }
    if |f| > 11 { assert f[11] in f; }
  }

  lemma BareConverges(f: string)
    requires PlainName(f)
    ensures NormalizeImageUrl(Some(JStr(f))) == Some(UPLOADS + f)
  {
    assert "" + f == f;
    CleanPath("", f);
    PlainNoPrefix(f);
    assert FromClean(f) == Some(UPLOADS + f);
    CleanInput(f, UPLOADS + f);
  }

  lemma SlashUploadsConverges(f: string)
    requires PlainName(f)
    ensures NormalizeImageUrl(Some(JStr("/uploads/" + f))) == Some(UPLOADS + f)
  {
    CleanPath("/uploads/", f);
    SlashUploadsPlaced(f);
    CleanInput("/uploads/" + f, UPLOADS + f);
  }

  lemma SlashUploadsPlaced(f: string)
    requires '\\' !in f
    ensures FromClean("/uploads/" + f) == Some(UPLOADS + f)
  {
    var s := "/uploads/" + f;
    assert s[0] == '/' && !IsAbsolute(s) && !StartsWith(s, "../");
    assert StartsWith(s, "/uploads/");
    JoinSlashUploads();
    Regroup(SITE_BASE + "/admin_maths", "/uploads/", f);
  }

  lemma UploadsConverges(f: string)
    requires PlainName(f)
    ensures NormalizeImageUrl(Some(JStr("uploads/" + f))) == Some(UPLOADS + f)
  {
    CleanPath("uploads/", f);
    UploadsPlaced(f);
    CleanInput("uploads/" + f, UPLOADS + f);
  }

  lemma UploadsPlaced(f: string)
    requires '\\' !in f
    ensures FromClean("uploads/" + f) == Some(UPLOADS + f)
  {
    var s := "uploads/" + f;
    assert s[0] == 'u' && !IsAbsolute(s) && !StartsWith(s, "../") && !StartsWith(s, "/uploads/");
    assert StartsWith(s, "uploads/");
    JoinUploads();
    Regroup(SITE_BASE + "/admin_maths/", "uploads/", f);
  }

  lemma AdminConverges(f: string)
    requires PlainName(f)
    ensures NormalizeImageUrl(Some(JStr("admin_maths/uploads/" + f))) == Some(UPLOADS + f)
  {
    CleanPath("admin_maths/uploads/", f);
    AdminPlaced(f);
    CleanInput("admin_maths/uploads/" + f, UPLOADS + f);
  }

  lemma AdminPlaced(f: string)
    requires '\\' !in f
    ensures FromClean("admin_maths/uploads/" + f) == Some(UPLOADS + f)
  {
    var s := "admin_maths/uploads/" + f;
    assert s[0] == 'a' && !IsAbsolute(s) && !StartsWith(s, "../") && !StartsWith(s, "/uploads/");
    assert !StartsWith(s, "uploads/") && StartsWith(s, "admin_maths/");
    JoinAdmin();
    Regroup(SITE_BASE + "/", "admin_maths/uploads/", f);
  }

  lemma ParentConverges(f: string)
    requires PlainName(f)
    ensures NormalizeImageUrl(Some(JStr("../uploads/" + f))) == Some(UPLOADS + f)
  {
    CleanPath("../uploads/", f);
    ParentPlaced(f);
    CleanInput("../uploads/" + f, UPLOADS + f);
  }

  lemma ParentPlaced(f: string)
    requires '\\' !in f
    ensures FromClean("../uploads/" + f) == Some(UPLOADS + f)
  {
    var s := "../uploads/" + f;
    assert s[0] == '.' && !IsAbsolute(s) && StartsWith(s, "../");
    assert s[3..] == "uploads/" + f;
    UploadsPlaced(f);
  }

  lemma Regroup(p: string, q: string, f: string)
    ensures p + (q + f) == (p + q) + f
  {
  }

  lemma JoinSlashUploads()
    ensures SITE_BASE + "/admin_maths" + "/uploads/" == UPLOADS
  {
  }

  lemma JoinUploads()
    ensures SITE_BASE + "/admin_maths/" + "uploads/" == UPLOADS
  {
  }

  lemma JoinAdmin()
    ensures SITE_BASE + "/" + "admin_maths/uploads/" == UPLOADS
  {
  }

  // ---------------------------------------------------------------- the list

  /** A category as the page shows it. */
  datatype Category = Category(id: int, name: string, imageUrl: Option<string>)

  /** `safeImage`: the first image property that is neither null nor undefined,
      normalised. */
  function SafeImage(item: Val): (r: Option<string>)
    ensures r.Some? ==> IsAbsolute(r.value)
    ensures (forall i :: 0 <= i < |IMAGE_KEYS| ==> Nullish(Get(item, IMAGE_KEYS[i]))) ==> r.None?
    ensures forall i :: FirstPresent(item, IMAGE_KEYS, i) ==>
                        r == NormalizeImageUrl(Get(item, IMAGE_KEYS[i]))
  {
    NormalizeImageUrl(CoalesceKeys(item, IMAGE_KEYS, Some(JNull)))
  }

  /** One row of the map in `normalizeList`; reading `item.id` of a null row throws. */
  function NormalizeItem(item: Json): (r: Result<Category>)
    ensures r.Err? <==> item == JNull
    ensures r.Ok? ==> r.value == Category(SafeId(Some(item)), SafeName(Some(item)), SafeImage(Some(item)))
  {
    if item == JNull then Err(NullAccessError("id"))
    else Ok(Category(SafeId(Some(item)), SafeName(Some(item)), SafeImage(Some(item))))
  }

  /** The rows of a response body: the body itself when it is an array, else its
      `data`, else its `items`, else none. */
  function ListRows(data: Val): (rows: seq<Json>)
    ensures IsArray(data) ==> rows == data.value.items
    ensures !IsArray(data) && IsArray(Get(data, "data")) ==> rows == Get(data, "data").value.items
    ensures !IsArray(data) && !IsArray(Get(data, "data")) && IsArray(Get(data, "items")) ==>
              rows == Get(data, "items").value.items
    ensures (!IsArray(data) && !IsArray(Get(data, "data")) && !IsArray(Get(data, "items"))) ==> rows == []
  {
    if IsArray(data) then data.value.items
    else if IsArray(Get(data, "data")) then Get(data, "data").value.items
    else if IsArray(Get(data, "items")) then Get(data, "items").value.items
    else []
  }

  predicate HasId(c: Category) { c.id != 0 }

  /** `normalizeList`: the rows mapped to categories, without those whose id is 0. */
  function NormalizeList(data: Val): (r: Result<seq<Category>>)
    ensures r.Ok? <==> JNull !in ListRows(data)
    ensures r.Ok? ==> |r.value| <= |ListRows(data)|
    ensures r.Ok? ==> forall i :: 0 <= i < |r.value| ==> r.value[i].id != 0
    ensures r.Ok? ==> IsSubsequence(r.value, MapResult(ListRows(data), NormalizeItem).value)
    ensures r.Ok? ==>
              forall c :: multiset(r.value)[c] ==
                            if HasId(c) then multiset(MapResult(ListRows(data), NormalizeItem).value)[c] else 0
  {
    var rows := ListRows(data);
    var mapped := MapResult(rows, NormalizeItem);
    if mapped.Err? then
      assert JNull in rows by {
        var i :| 0 <= i < |rows| && NormalizeItem(rows[i]) == Err(mapped.error);
      }
      Err(mapped.error)
    else
      var all := mapped.value;
      assert JNull !in rows by {
        forall i | 0 <= i < |rows| ensures rows[i] != JNull { assert NormalizeItem(rows[i]) == Ok(all[i]); }
      }
      FilterIsSubsequence(all, HasId);
      Ok(Filter(all, HasId))
  }

  /** Every row whose id is not 0 is kept. */
  lemma NormalizeListKeeps(data: Val, i: int)
    requires NormalizeList(data).Ok? && 0 <= i < |ListRows(data)|
    requires SafeId(Some(ListRows(data)[i])) != 0
    ensures NormalizeItem(ListRows(data)[i]).value in NormalizeList(data).value
  {
    var all := MapResult(ListRows(data), NormalizeItem).value;
    assert NormalizeItem(ListRows(data)[i]) == Ok(all[i]);
  }

  // ---------------------------------------------------------------- the load effect

  datatype View = View(loading: bool, error: Option<string>, categories: seq<Category>)

  /** What one request produced; `body` is `None` when the text is not JSON. */
  datatype Reply = NetworkError(message: string) | Reply(status: int, body: Option<Json>)

  /** The effect that loads the page. A missing or non-numeric id sets an error
      without a request. `res.ok` is not consulted: only `json.success` is. */
  function Load(param: Option<string>, reply: Reply): (v: View)
    ensures !v.loading
    ensures ToNumberOrNull(if param.None? then None else Some(JStr(param.value))).None? ==>
              v == View(false, Some("Exam id missing / invalid in URL"), [])
    ensures v.error.None? <==>
              ToNumberOrNull(if param.None? then None else Some(JStr(param.value))).Some? &&
              reply.Reply? && reply.body.Some? && reply.body != Some(JNull) &&
              Truthy(Get(reply.body, "success")) && NormalizeList(Get(reply.body, "data")).Ok?
    ensures v.error.Some? ==> v.categories == [] && v.error.value != []
    ensures v.error.None? ==> v.categories == Fetch(reply).value
    ensures ToNumberOrNull(if param.None? then None else Some(JStr(param.value))).Some? && Fetch(reply).Err? ==>
              v.error == Some(if Fetch(reply).error != [] then Fetch(reply).error else "Failed to load categories")
  {
    var id := ToNumberOrNull(if param.None? then None else Some(JStr(param.value)));
    if id.None? then View(false, Some("Exam id missing / invalid in URL"), [])
    else match Fetch(reply)
      case Err(e) => View(false, Some(if e != [] then e else "Failed to load categories"), [])
      case Ok(cats) => View(false, None, cats)
  }

  /** The request inside the `try`: parse, check `success`, normalise. */
  function Fetch(reply: Reply): (r: Result<seq<Category>>)
    ensures r.Ok? <==> reply.Reply? && reply.body.Some? && reply.body != Some(JNull) &&
                       Truthy(Get(reply.body, "success")) && NormalizeList(Get(reply.body, "data")).Ok?
    ensures r.Ok? ==> r == NormalizeList(Get(reply.body, "data"))
  {
    match reply
    case NetworkError(m) => Err(m)
    case Reply(status, body) =>
      if body.None? then Err("API not JSON (HTTP " + IntToStr(status) + "). Check PHP warnings.")
      else match Member(body, "success")
        case Err(e) => Err(e)
        case Ok(ok) =>
          if !Truthy(ok) then Err(MessageOr(Get(body, "message"), "API failed"))
          else NormalizeList(Get(body, "data"))
  }
}
