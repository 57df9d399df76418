/** The admin tests page (`src/pages/Tests.tsx`): the test list with its search
    box, and a form that adds a test or, once a row's Edit was pressed, updates
    that test. */
module TestsAdmin {
  import opened Base
  import opened Text
  import opened Json
  import opened Seqs
  import opened Api

  const FILL_ALL: string := "Please fill in all required fields"
  const LOAD_FALLBACK: string := "Failed to fetch tests"
  const SAVE_FALLBACK: string := "Failed to save test"
  const DELETE_FALLBACK: string := "Failed to delete test"
  const UPDATED: string := "Test updated successfully!"
  const ADDED: string := "Test added successfully!"
  const DELETED: string := "Test deleted successfully!"

  /** A test row as the page types it. */
  datatype Test = Test(id: int, testName: string, testUrl: string, courseId: int,
                       courseName: Option<string>, createdAt: string)

  /** The form's three fields. */
  datatype Fields = Fields(testName: string, testUrl: string, courseId: string)

  const EMPTY_FORM: Fields := Fields([], [], [])

  /** A multipart POST to one of the endpoints. */
  datatype Post = Post(endpoint: string, entries: seq<Entry>)

  /** `if (editingId)`: an edit is under way, and its id is not 0. */
  predicate Editing(editingId: Option<int>) {
    editingId.Some? && editingId.value != 0
  }

  /** The submit check. */
  predicate Complete(f: Fields) {
    f.testName != [] && f.testUrl != [] && f.courseId != []
  }

  /** The endpoint of a save. */
  function SaveEndpoint(editingId: Option<int>): (e: string)
    ensures Editing(editingId) ==> e == "update_test.php"
    ensures !Editing(editingId) ==> e == "add_test.php"
  {
    if Editing(editingId) then "update_test.php" else "add_test.php"
  }

  /** The body of a save: the three fields, then the id when editing. */
  function SaveEntries(f: Fields, editingId: Option<int>): (es: seq<Entry>)
    ensures |es| >= 3
    ensures es[..3] == [("test_name", Text(f.testName)), ("test_url", Text(f.testUrl)),
                        ("course_id", Text(f.courseId))]
    ensures Editing(editingId) ==> es == es[..3] + [IdEntry(editingId.value)]
    ensures !Editing(editingId) ==> |es| == 3
  {
    [("test_name", Text(f.testName)), ("test_url", Text(f.testUrl)), ("course_id", Text(f.courseId))] +
    (if Editing(editingId) then [IdEntry(editingId.value)] else [])
  }

  /** The update endpoint is used exactly when the body carries an id. */
  lemma UpdateIffId(f: Fields, editingId: Option<int>)
    ensures SaveEndpoint(editingId) == "update_test.php" <==> "id" in Names(SaveEntries(f, editingId))
  {
    var ns := Names(SaveEntries(f, editingId));
    if Editing(editingId) {
      assert ns[3] == "id";
    } else {
      assert ns == ["test_name", "test_url", "course_id"];
    }
  }

  /** The search: the name, or the course name when there is one, contains the
      query, ignoring case. */
  predicate Found(query: string, t: Test) {
    Matches(t.testName, query) || (t.courseName.Some? && Matches(t.courseName.value, query))
  }

  /** `filteredTests`. */
  function Filtered(tests: seq<Test>, query: string): (r: seq<Test>)
    ensures IsSubsequence(r, tests)
    ensures |r| <= |tests|
    ensures forall i :: 0 <= i < |r| ==> Found(query, r[i])
    ensures forall i :: 0 <= i < |tests| && Found(query, tests[i]) ==> tests[i] in r
    ensures forall x :: multiset(r)[x] == if Found(query, x) then multiset(tests)[x] else 0
  {
    FilterIsSubsequence(tests, t => Found(query, t));
    Filter(tests, t => Found(query, t))
  }

  /** A test without a course name is found by its own name only. */
  lemma NoCourseNameMatchesName(query: string, t: Test)
    requires t.courseName.None?
    ensures Found(query, t) <==> Matches(t.testName, query)
  {
  }

  /** The page's state. `posts` are the bodies sent, `alerts` the alert boxes
      shown, `loads` the list loads started, `saveEdit` the `editingId` a
      pending save captured, `saveReload` whether the list load under way is the
      one a successful save awaits, and `courses` the options of the course
      select. */
  class Page {
    var tests: seq<Test>
    var loading: bool
    var error: Option<string>
    var search: string
    var showForm: bool
    var editingId: Option<int>
    var form: Fields
    var submitting: bool
    var saveEdit: Option<int>
    var saveReload: bool
    var courses: Val
    var posts: seq<Post>
    var alerts: seq<string>
    var loads: nat

    /** A hidden form is empty and edits nothing; a save awaiting its reload is
        still submitting. */
    predicate Valid()
      reads this
    {
      (!showForm ==> form == EMPTY_FORM && editingId.None?) && (saveReload ==> submitting)
    }

    /** The mount effect starts the first list load and the course load. */
    constructor ()
      ensures Valid()
      ensures tests == [] && loading && error.None? && search == [] && !showForm
      ensures !submitting && !saveReload && courses == Some(JArr([]))
      ensures posts == [] && alerts == [] && loads == 1
    {
      tests := [];
      loading := true;
      error := None;
      search := [];
      showForm := false;
      editingId := None;
      form := EMPTY_FORM;
      submitting := false;
      saveEdit := None;
      saveReload := false;
      courses := Some(JArr([]));
      posts := [];
      alerts := [];
      loads := 1;
    }

    /** `resetForm`. */
    method ResetForm()
      modifies this
      ensures courses == old(courses) && saveReload == old(saveReload)
      ensures form == EMPTY_FORM && editingId.None? && !showForm
      ensures old(Valid()) ==> Valid()
      ensures tests == old(tests) && loading == old(loading) && error == old(error) && search == old(search)
      ensures submitting == old(submitting) && saveEdit == old(saveEdit)
      ensures posts == old(posts) && alerts == old(alerts) && loads == old(loads)
    {
      form := EMPTY_FORM;
      editingId := None;
      showForm := false;
    }

    /** The header button: Cancel resets the form, Add Test shows it. */
    method ToggleForm()
      modifies this
      ensures courses == old(courses) && saveReload == old(saveReload)
      ensures old(showForm) ==> form == EMPTY_FORM && editingId.None? && !showForm
      ensures !old(showForm) ==> showForm && form == old(form) && editingId == old(editingId)
      ensures tests == old(tests) && loading == old(loading) && error == old(error) && search == old(search)
      ensures submitting == old(submitting) && saveEdit == old(saveEdit)
      ensures posts == old(posts) && alerts == old(alerts) && loads == old(loads)
      ensures old(Valid()) ==> Valid()
    {
      if showForm {
        ResetForm();
      } else {
        showForm := true;
      }
    }

    /** The form's inputs (rendered only while it is shown). */
    method ChangeFields(f: Fields)
      requires showForm
      modifies this
      ensures courses == old(courses) && saveReload == old(saveReload)
      ensures form == f && showForm && editingId == old(editingId)
      ensures tests == old(tests) && loading == old(loading) && error == old(error) && search == old(search)
      ensures submitting == old(submitting) && saveEdit == old(saveEdit)
      ensures posts == old(posts) && alerts == old(alerts) && loads == old(loads)
      ensures old(Valid()) ==> Valid()
    {
      form := f;
    }

    /** `handleEdit`: the row's fields (the course id as text) go into the form,
        which is shown and edits that row. */
    method Edit(t: Test)
      modifies this
      ensures courses == old(courses) && saveReload == old(saveReload)
      ensures form == Fields(t.testName, t.testUrl, IntToStr(t.courseId))
      ensures editingId == Some(t.id) && showForm
      ensures tests == old(tests) && loading == old(loading) && error == old(error) && search == old(search)
      ensures submitting == old(submitting) && saveEdit == old(saveEdit)
      ensures posts == old(posts) && alerts == old(alerts) && loads == old(loads)
      ensures old(Valid()) ==> Valid()
    {
      form := Fields(t.testName, t.testUrl, IntToStr(t.courseId));
      editingId := Some(t.id);
      showForm := true;
    }

    /** `handleSubmit`, from the Save button (disabled while submitting). */
    method Submit()
      requires showForm && !submitting
      modifies this
      ensures courses == old(courses) && saveReload == old(saveReload)
      ensures !Complete(old(form)) ==>
                alerts == old(alerts) + [FILL_ALL] && posts == old(posts) && !submitting &&
                error == old(error) && saveEdit == old(saveEdit)
      ensures Complete(old(form)) ==>
                posts == old(posts) + [Post(SaveEndpoint(old(editingId)), SaveEntries(old(form), old(editingId)))] &&
                submitting && error.None? && saveEdit == old(editingId) && alerts == old(alerts)
      ensures tests == old(tests) && loading == old(loading) && search == old(search) && loads == old(loads)
      ensures form == old(form) && editingId == old(editingId) && showForm
      ensures old(Valid()) ==> Valid()
    {
      if !Complete(form) {
        alerts := alerts + [FILL_ALL];
        return;
      }
      submitting := true;
      error := None;
      saveEdit := editingId;
      posts := posts + [Post(SaveEndpoint(editingId), SaveEntries(form, editingId))];
    }

    /** `loadTests` starts: loading, the error cleared, a request out. */
    method StartLoad()
      modifies this
      ensures courses == old(courses) && saveReload == old(saveReload)
      ensures loading && error.None? && loads == old(loads) + 1
      ensures tests == old(tests) && search == old(search) && showForm == old(showForm)
      ensures form == old(form) && editingId == old(editingId) && submitting == old(submitting)
      ensures saveEdit == old(saveEdit) && posts == old(posts) && alerts == old(alerts)
      ensures old(Valid()) ==> Valid()
    {
      loading := true;
      error := None;
      loads := loads + 1;
    }

    /** The save's answer: on success the alert, `resetForm` and the awaited
        reload, with `submitting` kept until that reload answers; on failure the
        error, and `submitting` ends. */
    method SaveAnswered(r: Response, parseError: string)
      requires submitting && !saveReload
      modifies this
      ensures courses == old(courses)
      ensures JsonCall(r, parseError, SAVE_FALLBACK).Ok? ==>
                alerts == old(alerts) + [if Editing(old(saveEdit)) then UPDATED else ADDED] &&
                form == EMPTY_FORM && editingId.None? && !showForm &&
                loading && error.None? && loads == old(loads) + 1 && submitting && saveReload
      ensures JsonCall(r, parseError, SAVE_FALLBACK).Err? ==>
                error == Some(JsonCall(r, parseError, SAVE_FALLBACK).error) &&
                alerts == old(alerts) && form == old(form) && editingId == old(editingId) &&
                showForm == old(showForm) && loading == old(loading) && loads == old(loads) &&
                !submitting && !saveReload
      ensures tests == old(tests) && search == old(search) && posts == old(posts) && saveEdit == old(saveEdit)
      ensures old(Valid()) ==> Valid()
    {
      var res := JsonCall(r, parseError, SAVE_FALLBACK);
      if res.Ok? {
        alerts := alerts + [if Editing(saveEdit) then UPDATED else ADDED];
        ResetForm();
        StartLoad();
        saveReload := true;
      } else {
        error := Some(res.error);
        submitting := false;
      }
    }

    /** The list's answer; `rows` is the typed reading of `data.data || []`.
        When a save awaits this reload, its `finally` runs now: `submitting`
        ends. */
    method LoadAnswered(r: Response, parseError: string, rows: seq<Test>)
      modifies this
      ensures courses == old(courses)
      ensures !loading && !saveReload
      ensures submitting == (old(submitting) && !old(saveReload))
      ensures JsonCall(r, parseError, LOAD_FALLBACK).Ok? ==> tests == rows && error == old(error)
      ensures JsonCall(r, parseError, LOAD_FALLBACK).Err? ==>
                tests == old(tests) && error == Some(JsonCall(r, parseError, LOAD_FALLBACK).error)
      ensures search == old(search) && showForm == old(showForm) && form == old(form)
      ensures editingId == old(editingId) && saveEdit == old(saveEdit)
      ensures posts == old(posts) && alerts == old(alerts) && loads == old(loads)
      ensures old(Valid()) ==> Valid()
    {
      var res := JsonCall(r, parseError, LOAD_FALLBACK);
      if res.Ok? {
        tests := rows;
      } else {
        error := Some(res.error);
      }
      loading := false;
      if saveReload {
        submitting := false;
        saveReload := false;
      }
    }

    /** `loadCourses` resolves: `getCourses` gives `data.data` to the select;
        a failure is only logged. */
    method CoursesAnswered(r: Response)
      modifies this
      ensures FetchCourseList(r).Ok? ==> courses == FetchCourseList(r).value
      ensures FetchCourseList(r).Err? ==> courses == old(courses)
      ensures tests == old(tests) && loading == old(loading) && error == old(error) && search == old(search)
      ensures showForm == old(showForm) && form == old(form) && editingId == old(editingId)
      ensures submitting == old(submitting) && saveEdit == old(saveEdit) && saveReload == old(saveReload)
      ensures posts == old(posts) && alerts == old(alerts) && loads == old(loads)
      ensures old(Valid()) ==> Valid()
    {
      var res := FetchCourseList(r);
      if res.Ok? {
        courses := res.value;
      }
    }

    /** `handleDelete`: nothing unless confirmed; otherwise the id is posted. */
    method Delete(id: int, confirmed: bool)
      modifies this
      ensures courses == old(courses) && saveReload == old(saveReload)
      ensures confirmed ==> posts == old(posts) + [Post("delete_test.php", [IdEntry(id)])]
      ensures !confirmed ==> posts == old(posts)
      ensures tests == old(tests) && loading == old(loading) && error == old(error) && search == old(search)
      ensures showForm == old(showForm) && form == old(form) && editingId == old(editingId)
      ensures submitting == old(submitting) && saveEdit == old(saveEdit) && alerts == old(alerts)
      ensures loads == old(loads)
      ensures old(Valid()) ==> Valid()
    {
      if confirmed {
        posts := posts + [Post("delete_test.php", [IdEntry(id)])];
      }
    }

    /** The delete's answer: the alert and a reload, or the error. */
    method DeleteAnswered(r: Response, parseError: string)
      modifies this
      ensures courses == old(courses) && saveReload == old(saveReload)
      ensures JsonCall(r, parseError, DELETE_FALLBACK).Ok? ==>
                alerts == old(alerts) + [DELETED] && loading && error.None? && loads == old(loads) + 1
      ensures JsonCall(r, parseError, DELETE_FALLBACK).Err? ==>
                error == Some(JsonCall(r, parseError, DELETE_FALLBACK).error) &&
                alerts == old(alerts) && loading == old(loading) && loads == old(loads)
      ensures tests == old(tests) && search == old(search) && showForm == old(showForm) && form == old(form)
      ensures editingId == old(editingId) && submitting == old(submitting) && saveEdit == old(saveEdit)
      ensures posts == old(posts)
      ensures old(Valid()) ==> Valid()
    {
      var res := JsonCall(r, parseError, DELETE_FALLBACK);
      if res.Ok? {
        alerts := alerts + [DELETED];
        StartLoad();
      } else {
        error := Some(res.error);
      }
    }

    /** The search box and the close button of the error banner. */
    method SetSearch(q: string)
      modifies this
      ensures courses == old(courses) && saveReload == old(saveReload)
      ensures search == q && tests == old(tests) && error == old(error) && showForm == old(showForm)
      ensures form == old(form) && editingId == old(editingId) && loading == old(loading)
      ensures submitting == old(submitting) && saveEdit == old(saveEdit)
      ensures posts == old(posts) && alerts == old(alerts) && loads == old(loads)
      ensures old(Valid()) ==> Valid()
    {
      search := q;
    }

    method DismissError()
      modifies this
      ensures courses == old(courses) && saveReload == old(saveReload)
      ensures error.None? && search == old(search) && tests == old(tests) && showForm == old(showForm)
      ensures form == old(form) && editingId == old(editingId) && loading == old(loading)
      ensures submitting == old(submitting) && saveEdit == old(saveEdit)
      ensures posts == old(posts) && alerts == old(alerts) && loads == old(loads)
      ensures old(Valid()) ==> Valid()
    {
      error := None;
    }

    /** "Showing n of m tests". */
    function Showing(): (n: nat)
      reads this
      ensures n <= |tests|
    {
      |Filtered(tests, search)|
    }
  }

  /** Editing a row and saving without changes posts an update of that row
      with its own fields. */
  method EditAndSave(p: Page, t: Test)
    requires !p.submitting && !p.saveReload && t.id != 0 && t.testName != [] && t.testUrl != []
    modifies p
    ensures p.posts == old(p.posts) + [Post("update_test.php",
              [("test_name", Text(t.testName)), ("test_url", Text(t.testUrl)),
               ("course_id", Text(IntToStr(t.courseId))), IdEntry(t.id)])]
  {
    p.Edit(t);
    assert Complete(p.form);
    p.Submit();
    var es := SaveEntries(Fields(t.testName, t.testUrl, IntToStr(t.courseId)), Some(t.id));
    assert es == es[..3] + [IdEntry(t.id)];
    assert es == [("test_name", Text(t.testName)), ("test_url", Text(t.testUrl)),
                  ("course_id", Text(IntToStr(t.courseId))), IdEntry(t.id)];
  }
}
