/** The admin subcategories page (`src/pages/Subcategory.tsx`): the category
    and subcategory lists as the backend sends them, the search box, and a form
    with an optional image that creates a subcategory or updates the one being
    edited. The page talks to the backend itself: it reads every answer as text
    and parses it, whatever the HTTP status. */
module SubcategoryAdmin {
  import opened Base
  import opened Text
  import opened Json
  import opened Seqs
  import Api

  const REQUIRED: string := "Category and SubCategory required"
  const LOAD_FAILED: string := "Failed to load subcategories"
  const NOT_JSON: string := "Server error (API not JSON)"
  const SAVE_FAILED: string := "Save failed"
  const SAVE_API_ERROR: string := "Save failed (API error)"
  const DELETE_FAILED: string := "Delete failed"
  const DELETE_API_ERROR: string := "Delete failed (API error)"

  /** What a request got: a failure (the request threw or the text was not
      JSON), or the parsed body. */
  datatype Reply = Failure | Parsed(data: Json)

  /** The `action` query parameter of `get_subCategory.php`. */
  datatype Action = CreateAction | UpdateAction | DeleteAction

  /** A POST the page made, with its multipart body. */
  datatype Post = Post(action: Action, entries: seq<Api.Entry>)

  // ------------------------------------------------------------ list shapes

  /** The two list shapes the page accepts: `{success, data: [...]}` with a
      truthy `success`, or a bare array. */
  function AcceptedList(data: Json): (rows: Option<seq<Json>>)
    ensures rows.Some? <==>
              ((data.JObj? && Truthy(Get(Some(data), "success")) && IsArray(Get(Some(data), "data"))) || data.JArr?)
    ensures data.JArr? ==> rows == Some(data.items)
    ensures data.JObj? && Truthy(Get(Some(data), "success")) && IsArray(Get(Some(data), "data")) ==>
              rows == Some(Get(Some(data), "data").value.items)
  {
    if Truthy(Some(data)) && Truthy(Get(Some(data), "success")) && IsArray(Get(Some(data), "data")) then
      Some(Get(Some(data), "data").value.items)
    else if data.JArr? then Some(data.items)
    else None
  }

  /** `loadCategories`: the accepted list, or `[]` on anything else. */
  function LoadedCategories(reply: Reply): (cats: seq<Json>)
    ensures reply.Failure? ==> cats == []
    ensures reply.Parsed? && AcceptedList(reply.data).Some? ==> cats == AcceptedList(reply.data).value
    ensures reply.Parsed? && AcceptedList(reply.data).None? ==> cats == []
  {
    if reply.Parsed? && AcceptedList(reply.data).Some? then AcceptedList(reply.data).value else []
  }

  // ------------------------------------------------------------------- rows

  /** `s.k?.toLowerCase() || ""` reads a string field; a missing or null field
      reads as "". */
  function StrField(row: Json, key: string): (s: string)
    ensures Get(Some(row), key).Some? && Get(Some(row), key).value.JStr? ==> s == Get(Some(row), key).value.s
    ensures !IsString(Get(Some(row), key)) ==> s == []
  {
    var v := Get(Some(row), key);
    if v.Some? && v.value.JStr? then v.value.s else []
  }

  predicate IsString(v: Val) {
    v.Some? && v.value.JStr?
  }

  /** The search: the name or the category name contains the term, ignoring case. */
  predicate Found(term: string, row: Json) {
    Matches(StrField(row, "name"), term) || Matches(StrField(row, "category_name"), term)
  }

  /** `filtered`. */
  function Filtered(rows: seq<Json>, term: string): (r: seq<Json>)
    ensures IsSubsequence(r, rows)
    ensures forall i :: 0 <= i < |r| ==> Found(term, r[i])
    ensures forall i :: 0 <= i < |rows| && Found(term, rows[i]) ==> rows[i] in r
    ensures forall x :: multiset(r)[x] == if Found(term, x) then multiset(rows)[x] else 0
    ensures term == [] ==> r == rows
  {
    FilterIsSubsequence(rows, row => Found(term, row));
    EmptyTermKeepsAll(rows, term);
    Filter(rows, row => Found(term, row))
  }

  lemma EmptyTermKeepsAll(rows: seq<Json>, term: string)
    ensures term == [] ==> Filter(rows, row => Found(term, row)) == rows
  {
    if term == [] {
      forall i | 0 <= i < |rows|
        ensures Found(term, rows[i])
      {
        MatchesFacts(StrField(rows[i], "name"), term);
      }
      FilterAll(rows, row => Found(term, row));
    }
  }

  /** `s.id === id`. */
  predicate HasId(id: Json, row: Json) {
    Get(Some(row), "id") == Some(id)
  }

  /** The list after a successful delete: `prev.filter(s => s.id !== id)`. */
  function WithoutId(rows: seq<Json>, id: Json): (r: seq<Json>)
    ensures IsSubsequence(r, rows)
    ensures forall i :: 0 <= i < |r| ==> !HasId(id, r[i])
    ensures forall i :: 0 <= i < |rows| && !HasId(id, rows[i]) ==> rows[i] in r
  {
    FilterIsSubsequence(rows, row => !HasId(id, row));
    Filter(rows, row => !HasId(id, row))
  }

  /** A delete removes exactly the rows carrying that id, as many as there are. */
  lemma WithoutIdRemovesExactly(rows: seq<Json>, id: Json)
    ensures |WithoutId(rows, id)| + |Filter(rows, row => HasId(id, row))| == |rows|
    ensures multiset(WithoutId(rows, id)) + multiset(Filter(rows, row => HasId(id, row))) == multiset(rows)
  {
    FilterPartition(rows, row => !HasId(id, row), row => HasId(id, row));
  }

  /** Deleting an id no row carries changes nothing. */
  lemma WithoutAbsentId(rows: seq<Json>, id: Json)
    requires forall i :: 0 <= i < |rows| ==> !HasId(id, rows[i])
    ensures WithoutId(rows, id) == rows
  {
    FilterAll(rows, row => !HasId(id, row));
  }

  // ------------------------------------------------------------------- form

  /** The form's text fields. */
  datatype Fields = Fields(categoryId: string, name: string)

  const EMPTY_FORM: Fields := Fields([], [])

  /** The body of a save, in the order the fields are appended. */
  function SaveEntries(f: Fields, imageFile: Option<Api.File>, editingId: Val): (es: seq<Api.Entry>)
    ensures Api.Names(es) ==
              ["category_id", "name"] + Api.Names(Api.ImageEntry(imageFile)) + (if Truthy(editingId) then ["id"] else [])
    ensures es[0] == ("category_id", Api.Text(f.categoryId)) && es[1] == ("name", Api.Text(f.name))
    ensures Truthy(editingId) ==> es[|es| - 1] == ("id", Api.Text(ToStr(editingId)))
  {
    [("category_id", Api.Text(f.categoryId)), ("name", Api.Text(f.name))] + Api.ImageEntry(imageFile) +
    (if Truthy(editingId) then [("id", Api.Text(ToStr(editingId)))] else [])
  }

  /** The request a save makes: `update` with the id exactly when editing. */
  function SavePost(f: Fields, imageFile: Option<Api.File>, editingId: Val): (p: Post)
    ensures p.action == UpdateAction <==> Truthy(editingId)
    ensures p.action == UpdateAction || p.action == CreateAction
    ensures "id" in Api.Names(p.entries) <==> Truthy(editingId)
    ensures "image" in Api.Names(p.entries) <==> imageFile.Some?
  {
    var es := SaveEntries(f, imageFile, editingId);
    SaveNames(f, imageFile, editingId);
    Post(if Truthy(editingId) then UpdateAction else CreateAction, es)
  }

  lemma SaveNames(f: Fields, imageFile: Option<Api.File>, editingId: Val)
    ensures "id" in Api.Names(SaveEntries(f, imageFile, editingId)) <==> Truthy(editingId)
    ensures "image" in Api.Names(SaveEntries(f, imageFile, editingId)) <==> imageFile.Some?
  {
    var ns := Api.Names(SaveEntries(f, imageFile, editingId));
    match imageFile
    case None =>
      if Truthy(editingId) {
        assert ns == ["category_id", "name", "id"];
      } else {
        assert ns == ["category_id", "name"];
      }
    case Some(_) =>
      if Truthy(editingId) {
        assert ns == ["category_id", "name", "image", "id"];
      } else {
        assert ns == ["category_id", "name", "image"];
      }
  }

  /** The page's state; `posts` are the requests made to the subcategory
      endpoint and `alerts` the messages shown with `alert`. */
  class Page {
    var categories: seq<Json>
    var subCategories: seq<Json>
    var loading: bool
    var error: Option<string>
    var searchTerm: string
    var showForm: bool
    var editingId: Val
    var form: Fields
    var imageFile: Option<Api.File>
    var preview: Option<string>
    var submitting: bool
    var saveReload: bool
    var posts: seq<Post>
    var alerts: seq<string>
    var loads: nat

    /** A hidden form is empty, has no file and edits nothing; a save awaiting
        its reload is still submitting. */
    predicate Valid()
      reads this
    {
      (!showForm ==> form == EMPTY_FORM && imageFile.None? && editingId.None?) && (saveReload ==> submitting)
    }

    /** The mount effect starts both loads. */
    constructor ()
      ensures Valid()
      ensures !saveReload
      ensures categories == [] && subCategories == [] && loading && error.None? && searchTerm == []
      ensures !showForm && preview.None? && !submitting && posts == [] && alerts == [] && loads == 1
    {
      saveReload := false;
      categories := [];
      subCategories := [];
      loading := true;
      error := None;
      searchTerm := [];
      showForm := false;
      editingId := None;
      form := EMPTY_FORM;
      imageFile := None;
      preview := None;
      submitting := false;
      posts := [];
      alerts := [];
      loads := 1;
    }

    /** `loadCategories` resolves. */
    method CategoriesAnswered(reply: Reply)
      modifies this
      ensures saveReload == old(saveReload)
      ensures categories == LoadedCategories(reply)
      ensures subCategories == old(subCategories) && loading == old(loading) && error == old(error)
      ensures searchTerm == old(searchTerm) && showForm == old(showForm) && editingId == old(editingId)
      ensures form == old(form) && imageFile == old(imageFile) && preview == old(preview)
      ensures submitting == old(submitting) && posts == old(posts) && alerts == old(alerts) && loads == old(loads)
      ensures old(Valid()) ==> Valid()
    {
      categories := LoadedCategories(reply);
    }

    /** `loadSubCategories` starts. */
    method StartLoad()
      modifies this
      ensures saveReload == old(saveReload)
      ensures loading && error.None? && loads == old(loads) + 1
      ensures categories == old(categories) && subCategories == old(subCategories)
      ensures searchTerm == old(searchTerm) && showForm == old(showForm) && editingId == old(editingId)
      ensures form == old(form) && imageFile == old(imageFile) && preview == old(preview)
      ensures submitting == old(submitting) && posts == old(posts) && alerts == old(alerts)
      ensures old(Valid()) ==> Valid()
    {
      loading := true;
      error := None;
      loads := loads + 1;
    }

    /** `loadSubCategories` resolves: an accepted list replaces the rows;
        any other body gives its message or the fallback; a failure gives the
        "not JSON" error. When a save awaits this reload, its `finally` runs
        now: `submitting` ends. */
    method LoadAnswered(reply: Reply)
      modifies this
      ensures !loading && !saveReload
      ensures submitting == (old(submitting) && !old(saveReload))
      ensures reply.Failure? ==> error == Some(NOT_JSON) && subCategories == old(subCategories)
      ensures reply.Parsed? && AcceptedList(reply.data).Some? ==>
                subCategories == AcceptedList(reply.data).value && error == old(error)
      ensures reply.Parsed? && AcceptedList(reply.data).None? ==>
                error == Some(MessageOr(Get(Some(reply.data), "message"), LOAD_FAILED)) &&
                subCategories == old(subCategories)
      ensures categories == old(categories) && searchTerm == old(searchTerm) && showForm == old(showForm)
      ensures editingId == old(editingId) && form == old(form) && imageFile == old(imageFile)
      ensures preview == old(preview) && posts == old(posts)
      ensures alerts == old(alerts) && loads == old(loads)
      ensures old(Valid()) ==> Valid()
    {
      if reply.Failure? {
        error := Some(NOT_JSON);
      } else if AcceptedList(reply.data).Some? {
        subCategories := AcceptedList(reply.data).value;
      } else {
        error := Some(MessageOr(Get(Some(reply.data), "message"), LOAD_FAILED));
      }
      loading := false;
      if saveReload {
        submitting := false;
        saveReload := false;
      }
    }

    /** `resetForm`. */
    method ResetForm()
      modifies this
      ensures saveReload == old(saveReload)
      ensures form == EMPTY_FORM && imageFile.None? && preview.None? && editingId.None? && !showForm
      ensures old(Valid()) ==> Valid()
      ensures categories == old(categories) && subCategories == old(subCategories) && loading == old(loading)
      ensures error == old(error) && searchTerm == old(searchTerm) && submitting == old(submitting)
      ensures posts == old(posts) && alerts == old(alerts) && loads == old(loads)
    {
      form := EMPTY_FORM;
      imageFile := None;
      preview := None;
      editingId := None;
      showForm := false;
    }

    /** The header button: Cancel resets the form, Add SubCategory shows it. */
    method ToggleForm()
      modifies this
      ensures saveReload == old(saveReload)
      ensures old(showForm) ==> form == EMPTY_FORM && imageFile.None? && preview.None? && editingId.None? && !showForm
      ensures !old(showForm) ==> showForm && form == old(form) && imageFile == old(imageFile) &&
                                 editingId == old(editingId) && preview == old(preview)
      ensures categories == old(categories) && subCategories == old(subCategories) && loading == old(loading)
      ensures error == old(error) && searchTerm == old(searchTerm) && submitting == old(submitting)
      ensures posts == old(posts) && alerts == old(alerts) && loads == old(loads)
      ensures old(Valid()) ==> Valid()
    {
      if showForm {
        ResetForm();
      } else {
        showForm := true;
      }
    }

    /** The select and the name input (rendered only while the form is shown). */
    method ChangeFields(f: Fields)
      requires showForm
      modifies this
      ensures saveReload == old(saveReload)
      ensures form == f && showForm && imageFile == old(imageFile) && preview == old(preview)
      ensures editingId == old(editingId) && categories == old(categories) && subCategories == old(subCategories)
      ensures loading == old(loading) && error == old(error) && searchTerm == old(searchTerm)
      ensures submitting == old(submitting) && posts == old(posts) && alerts == old(alerts) && loads == old(loads)
      ensures old(Valid()) ==> Valid()
    {
      form := f;
    }

    /** `handleFile`: the file (or none) is kept and previewed through the
        object URL `url` made for it. */
    method HandleFile(file: Option<Api.File>, url: string)
      requires showForm
      modifies this
      ensures saveReload == old(saveReload)
      ensures imageFile == file && preview == (if file.Some? then Some(url) else None)
      ensures showForm && form == old(form) && editingId == old(editingId)
      ensures categories == old(categories) && subCategories == old(subCategories)
      ensures loading == old(loading) && error == old(error) && searchTerm == old(searchTerm)
      ensures submitting == old(submitting) && posts == old(posts) && alerts == old(alerts) && loads == old(loads)
      ensures old(Valid()) ==> Valid()
    {
      imageFile := file;
      preview := if file.Some? then Some(url) else None;
    }

    /** `handleEdit`: the row goes into the form and its stored image is
        previewed; a file already chosen stays chosen. */
    method Edit(row: Json)
      modifies this
      ensures saveReload == old(saveReload)
      ensures form == Fields(ToStr(Get(Some(row), "category_id")), StrField(row, "name"))
      ensures preview == (if Truthy(Get(Some(row), "image_url")) then Some(ToStr(Get(Some(row), "image_url"))) else None)
      ensures editingId == Get(Some(row), "id") && showForm && imageFile == old(imageFile)
      ensures categories == old(categories) && subCategories == old(subCategories) && loading == old(loading)
      ensures error == old(error) && searchTerm == old(searchTerm) && submitting == old(submitting)
      ensures posts == old(posts) && alerts == old(alerts) && loads == old(loads)
      ensures old(Valid()) ==> Valid()
    {
      form := Fields(ToStr(Get(Some(row), "category_id")), StrField(row, "name"));
      var url := Get(Some(row), "image_url");
      preview := if Truthy(url) then Some(ToStr(url)) else None;
      editingId := Get(Some(row), "id");
      showForm := true;
    }

    /** `handleSubmit`, from the Save button (disabled while submitting). */
    method Submit()
      requires showForm && !submitting
      modifies this
      ensures saveReload == old(saveReload)
      ensures old(form).categoryId == [] || old(form).name == [] ==>
                alerts == old(alerts) + [REQUIRED] && posts == old(posts) && !submitting
      ensures old(form).categoryId != [] && old(form).name != [] ==>
                posts == old(posts) + [SavePost(old(form), old(imageFile), old(editingId))] &&
                submitting && alerts == old(alerts)
      ensures form == old(form) && imageFile == old(imageFile) && preview == old(preview)
      ensures editingId == old(editingId) && showForm && categories == old(categories)
      ensures subCategories == old(subCategories) && loading == old(loading) && error == old(error)
      ensures searchTerm == old(searchTerm) && loads == old(loads)
      ensures old(Valid()) ==> Valid()
    {
      if form.categoryId == [] || form.name == [] {
        alerts := alerts + [REQUIRED];
        return;
      }
      submitting := true;
      posts := posts + [SavePost(form, imageFile, editingId)];
    }

    /** The save's answer: a failure alerts the API error; a body without a
        truthy `success` alerts its message or the fallback and keeps the form;
        on these two paths `submitting` ends. Success resets the form and starts
        the awaited reload, with `submitting` kept until that reload answers. */
    method SaveAnswered(reply: Reply)
      requires submitting && !saveReload
      modifies this
      ensures reply.Failure? ==>
                alerts == old(alerts) + [SAVE_API_ERROR] && !submitting && !saveReload
      ensures reply.Parsed? && !Truthy(Get(Some(reply.data), "success")) ==>
                alerts == old(alerts) + [MessageOr(Get(Some(reply.data), "message"), SAVE_FAILED)] &&
                !submitting && !saveReload
      ensures (reply.Failure? || !Truthy(Get(Some(reply.data), "success"))) ==>
                form == old(form) && editingId == old(editingId) && showForm == old(showForm) &&
                imageFile == old(imageFile) && preview == old(preview) && loading == old(loading) &&
                error == old(error) && loads == old(loads)
      ensures reply.Parsed? && Truthy(Get(Some(reply.data), "success")) ==>
                alerts == old(alerts) && form == EMPTY_FORM && imageFile.None? && preview.None? && editingId.None? &&
                !showForm && loading && error.None? && loads == old(loads) + 1 && submitting && saveReload
      ensures categories == old(categories) && subCategories == old(subCategories)
      ensures searchTerm == old(searchTerm) && posts == old(posts)
      ensures old(Valid()) ==> Valid()
    {
      if reply.Failure? {
        alerts := alerts + [SAVE_API_ERROR];
        submitting := false;
      } else if !Truthy(Some(reply.data)) || !Truthy(Get(Some(reply.data), "success")) {
        alerts := alerts + [MessageOr(Get(Some(reply.data), "message"), SAVE_FAILED)];
        submitting := false;
      } else {
        ResetForm();
        StartLoad();
        saveReload := true;
      }
    }

    /** `handleDelete(sub.id)`: nothing unless confirmed; otherwise the id is
        posted. A row whose id is null or missing makes `id.toString()` throw
        inside the `try`, so its `catch` alerts the API error and nothing is
        posted. */
    method Delete(id: Val, confirmed: bool)
      modifies this
      ensures saveReload == old(saveReload)
      ensures confirmed && !Nullish(id) ==>
                posts == old(posts) + [Post(DeleteAction, [("id", Api.Text(JsonToStr(id.value)))])] &&
                alerts == old(alerts)
      ensures confirmed && Nullish(id) ==> posts == old(posts) && alerts == old(alerts) + [DELETE_API_ERROR]
      ensures !confirmed ==> posts == old(posts) && alerts == old(alerts)
      ensures categories == old(categories) && subCategories == old(subCategories) && loading == old(loading)
      ensures error == old(error) && searchTerm == old(searchTerm) && showForm == old(showForm)
      ensures editingId == old(editingId) && form == old(form) && imageFile == old(imageFile)
      ensures preview == old(preview) && submitting == old(submitting)
      ensures loads == old(loads)
      ensures old(Valid()) ==> Valid()
    {
      if confirmed {
        if Nullish(id) {
          alerts := alerts + [DELETE_API_ERROR];
        } else {
          posts := posts + [Post(DeleteAction, [("id", Api.Text(JsonToStr(id.value)))])];
        }
      }
    }

    /** The delete's answer: success drops the rows with that id from the
        current list; otherwise the list is kept and an alert says why. */
    method DeleteAnswered(id: Json, reply: Reply)
      modifies this
      ensures saveReload == old(saveReload)
      ensures reply.Parsed? && Truthy(Get(Some(reply.data), "success")) ==>
                subCategories == WithoutId(old(subCategories), id) && alerts == old(alerts)
      ensures reply.Parsed? && !Truthy(Get(Some(reply.data), "success")) ==>
                subCategories == old(subCategories) &&
                alerts == old(alerts) + [MessageOr(Get(Some(reply.data), "message"), DELETE_FAILED)]
      ensures reply.Failure? ==> subCategories == old(subCategories) && alerts == old(alerts) + [DELETE_API_ERROR]
      ensures categories == old(categories) && loading == old(loading) && error == old(error)
      ensures searchTerm == old(searchTerm) && showForm == old(showForm) && editingId == old(editingId)
      ensures form == old(form) && imageFile == old(imageFile) && preview == old(preview)
      ensures submitting == old(submitting) && posts == old(posts) && loads == old(loads)
      ensures old(Valid()) ==> Valid()
    {
      if reply.Failure? {
        alerts := alerts + [DELETE_API_ERROR];
      } else if !Truthy(Some(reply.data)) || !Truthy(Get(Some(reply.data), "success")) {
        alerts := alerts + [MessageOr(Get(Some(reply.data), "message"), DELETE_FAILED)];
      } else {
        subCategories := WithoutId(subCategories, id);
      }
    }

    /** The search box. */
    method SetSearch(q: string)
      modifies this
      ensures saveReload == old(saveReload)
      ensures searchTerm == q && categories == old(categories) && subCategories == old(subCategories)
      ensures loading == old(loading) && error == old(error) && showForm == old(showForm)
      ensures form == old(form) && imageFile == old(imageFile) && preview == old(preview)
      ensures editingId == old(editingId) && submitting == old(submitting)
      ensures posts == old(posts) && alerts == old(alerts) && loads == old(loads)
      ensures old(Valid()) ==> Valid()
    {
      searchTerm := q;
    }

    /** The rows the grid shows. */
    function Shown(): (r: seq<Json>)
      reads this
      ensures |r| <= |subCategories|
      ensures searchTerm == [] ==> r == subCategories
    {
      Filtered(subCategories, searchTerm)
    }
  }

  /** Picking a file, then pressing Edit on a row and saving, uploads that
      file with the update: `handleEdit` does not drop a chosen file. */
  method EditKeepsChosenFile(p: Page, file: Api.File, url: string, row: Json)
    requires p.showForm && !p.submitting && !p.saveReload && Truthy(Get(Some(row), "id"))
    requires ToStr(Get(Some(row), "category_id")) != [] && StrField(row, "name") != []
    modifies p
    ensures |p.posts| == |old(p.posts)| + 1
    ensures p.posts[|p.posts| - 1].action == UpdateAction
    ensures "image" in Api.Names(p.posts[|p.posts| - 1].entries)
  {
    p.HandleFile(Some(file), url);
    p.Edit(row);
    p.Submit();
  }
}
