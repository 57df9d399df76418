/** The admin exams page (`src/pages/Exam.tsx`): the exam list with its search
    box, and a form with an optional image that adds an exam or updates the one
    being edited through the API client's exam calls. */
module ExamAdmin {
  import opened Base
  import opened Text
  import opened Seqs
  import opened Api

  const NAME_AND_PRICE: string := "Exam name and price required"
  const LOAD_FAILED: string := "Failed to load exams"
  const SAVE_FAILED: string := "Failed to save exam"
  const DELETE_FAILED: string := "Failed to delete exam"
  const UPDATED: string := "Exam updated successfully!"
  const ADDED: string := "Exam added successfully!"
  const DELETED: string := "Exam deleted successfully!"

  /** An exam row as the page types it. */
  datatype Exam = Exam(id: int, examName: string, subject: Option<string>, price: string,
                       duration: Option<string>, imageUrl: Option<string>)

  /** The form's text fields. */
  datatype Fields = Fields(examName: string, subject: string, price: string, duration: string)

  const EMPTY_FORM: Fields := Fields([], [], [], [])

  /** A call of the API client with the body it builds. */
  datatype Call = Call(op: Op, entries: seq<Entry>)

  /** `if (editingId)`. */
  predicate Editing(editingId: Option<int>) {
    editingId.Some? && editingId.value != 0
  }

  /** The payload: the fields, and the chosen file when there is one. */
  function Payload(f: Fields, imageFile: Option<File>): ExamForm {
    ExamForm(f.examName, Some(f.subject), f.price, Some(f.duration), imageFile)
  }

  /** The call a save makes: `updateExam` when editing, `addExam` otherwise.
      The update names the id; both carry the exam's fields, and the image
      only when a file was chosen. */
  function SaveCall(f: Fields, imageFile: Option<File>, editingId: Option<int>): (c: Call)
    ensures c.op == (if Editing(editingId) then UpdateExam else AddExam)
    ensures "id" in Names(c.entries) <==> Editing(editingId)
    ensures Editing(editingId) ==> IdEntry(editingId.value) in c.entries
    ensures "image" in Names(c.entries) <==> imageFile.Some?
    ensures forall e :: e in ExamEntries(Payload(f, imageFile)) ==> e in c.entries
  {
    var head := if Editing(editingId) then [("action", Text("update")), IdEntry(editingId.value)]
                else [("action", Text("create"))];
    SaveNames(head, Payload(f, imageFile));
    assert Names(head) == if Editing(editingId) then ["action", "id"] else ["action"];
    Call(if Editing(editingId) then UpdateExam else AddExam, head + ExamEntries(Payload(f, imageFile)))
  }

  /** The names of a body made of `head` and the exam's fields. */
  lemma SaveNames(head: seq<Entry>, p: ExamForm)
    ensures Names(head + ExamEntries(p)) ==
            Names(head) + ["exam_name", "subject", "price", "duration"] + (if p.image.Some? then ["image"] else [])
  {
    var es := ExamEntries(p);
    assert Names(head + es) == Names(head) + Names(es);
  }

  /** `err?.message || fallback`: an empty message gives the fallback. */
  function ErrorText(message: string, fallback: string): (t: string)
    ensures fallback != [] ==> t != []
    ensures message != [] ==> t == message
  {
    if message != [] then message else fallback
  }

  /** The search: the name, or the subject when there is one, contains the
      query, ignoring case. */
  predicate Found(query: string, e: Exam) {
    Matches(e.examName, query) || (e.subject.Some? && Matches(e.subject.value, query))
  }

  /** `filteredExams`. */
  function Filtered(exams: seq<Exam>, query: string): (r: seq<Exam>)
    ensures IsSubsequence(r, exams)
    ensures |r| <= |exams|
    ensures forall i :: 0 <= i < |r| ==> Found(query, r[i])
    ensures forall i :: 0 <= i < |exams| && Found(query, exams[i]) ==> exams[i] in r
    ensures forall x :: multiset(r)[x] == if Found(query, x) then multiset(exams)[x] else 0
  {
    FilterIsSubsequence(exams, e => Found(query, e));
    Filter(exams, e => Found(query, e))
  }

  /** The page's state; `calls` are the API calls made and `saveEdit` the
      `editingId` a pending save captured. */
  class Page {
    var exams: seq<Exam>
    var loading: bool
    var error: Option<string>
    var search: string
    var showForm: bool
    var editingId: Option<int>
    var form: Fields
    var imageFile: Option<File>
    var preview: Option<string>
    var submitting: bool
    var saveReload: bool
    var saveEdit: Option<int>
    var calls: seq<Call>
    var alerts: seq<string>
    var loads: nat

    /** A hidden form is empty, has no file and edits nothing; a save awaiting
        its reload is still submitting. */
    predicate Valid()
      reads this
    {
      (!showForm ==> form == EMPTY_FORM && imageFile.None? && editingId.None?) && (saveReload ==> submitting)
    }

    /** The mount effect starts the first load. */
    constructor ()
      ensures Valid()
      ensures !saveReload
      ensures exams == [] && loading && error.None? && search == [] && !showForm && preview.None?
      ensures !submitting && calls == [] && alerts == [] && loads == 1
    {
      saveReload := false;
      exams := [];
      loading := true;
      error := None;
      search := [];
      showForm := false;
      editingId := None;
      form := EMPTY_FORM;
      imageFile := None;
      preview := None;
      submitting := false;
      saveEdit := None;
      calls := [];
      alerts := [];
      loads := 1;
    }

    /** `resetForm`: fields, file, preview and `editingId` cleared, form hidden. */
    method ResetForm()
      modifies this
      ensures saveReload == old(saveReload)
      ensures form == EMPTY_FORM && imageFile.None? && preview.None? && editingId.None? && !showForm
      ensures old(Valid()) ==> Valid()
      ensures exams == old(exams) && loading == old(loading) && error == old(error) && search == old(search)
      ensures submitting == old(submitting) && saveEdit == old(saveEdit)
      ensures calls == old(calls) && alerts == old(alerts) && loads == old(loads)
    {
      form := EMPTY_FORM;
      imageFile := None;
      preview := None;
      editingId := None;
      showForm := false;
    }

    /** The header button: Cancel resets the form, Add Exam shows it. */
    method ToggleForm()
      modifies this
      ensures saveReload == old(saveReload)
      ensures old(showForm) ==> form == EMPTY_FORM && imageFile.None? && preview.None? && editingId.None? && !showForm
      ensures !old(showForm) ==> showForm && form == old(form) && imageFile == old(imageFile) &&
                                 editingId == old(editingId) && preview == old(preview)
      ensures exams == old(exams) && loading == old(loading) && error == old(error) && search == old(search)
      ensures submitting == old(submitting) && saveEdit == old(saveEdit)
      ensures calls == old(calls) && alerts == old(alerts) && loads == old(loads)
      ensures old(Valid()) ==> Valid()
    {
      if showForm {
        ResetForm();
      } else {
        showForm := true;
      }
    }

    /** The text inputs (rendered only while the form is shown). */
    method ChangeFields(f: Fields)
      requires showForm
      modifies this
      ensures saveReload == old(saveReload)
      ensures form == f && showForm && imageFile == old(imageFile) && preview == old(preview)
      ensures editingId == old(editingId) && exams == old(exams) && loading == old(loading)
      ensures error == old(error) && search == old(search) && submitting == old(submitting)
      ensures saveEdit == old(saveEdit) && calls == old(calls) && alerts == old(alerts) && loads == old(loads)
      ensures old(Valid()) ==> Valid()
    {
      form := f;
    }

    /** `handleFileChange` with a file picked (without one it returns at once);
        the preview arrives later from the file reader. */
    method ChooseFile(file: File)
      requires showForm
      modifies this
      ensures saveReload == old(saveReload)
      ensures imageFile == Some(file) && showForm && form == old(form) && preview == old(preview)
      ensures editingId == old(editingId) && exams == old(exams) && loading == old(loading)
      ensures error == old(error) && search == old(search) && submitting == old(submitting)
      ensures saveEdit == old(saveEdit) && calls == old(calls) && alerts == old(alerts) && loads == old(loads)
      ensures old(Valid()) ==> Valid()
    {
      imageFile := Some(file);
    }

    /** `handleEdit`: the row goes into the form, a missing subject or duration
        as "", the chosen file is dropped and the stored image is previewed. */
    method Edit(e: Exam)
      modifies this
      ensures saveReload == old(saveReload)
      ensures form == Fields(e.examName, OrEmpty(e.subject), e.price, OrEmpty(e.duration))
      ensures imageFile.None? && editingId == Some(e.id) && showForm
      ensures preview == (if e.imageUrl.Some? && e.imageUrl.value != [] then e.imageUrl else None)
      ensures exams == old(exams) && loading == old(loading) && error == old(error) && search == old(search)
      ensures submitting == old(submitting) && saveEdit == old(saveEdit)
      ensures calls == old(calls) && alerts == old(alerts) && loads == old(loads)
      ensures old(Valid()) ==> Valid()
    {
      form := Fields(e.examName, OrEmpty(e.subject), e.price, OrEmpty(e.duration));
      imageFile := None;
      preview := if e.imageUrl.Some? && e.imageUrl.value != [] then e.imageUrl else None;
      editingId := Some(e.id);
      showForm := true;
    }

    /** `handleSubmit`, from the Save button (disabled while submitting). */
    method Submit()
      requires showForm && !submitting
      modifies this
      ensures saveReload == old(saveReload)
      ensures old(form).examName == [] || old(form).price == [] ==>
                alerts == old(alerts) + [NAME_AND_PRICE] && calls == old(calls) && !submitting &&
                error == old(error) && saveEdit == old(saveEdit)
      ensures old(form).examName != [] && old(form).price != [] ==>
                calls == old(calls) + [SaveCall(old(form), old(imageFile), old(editingId))] &&
                submitting && error.None? && saveEdit == old(editingId) && alerts == old(alerts)
      ensures form == old(form) && imageFile == old(imageFile) && preview == old(preview)
      ensures editingId == old(editingId) && showForm && exams == old(exams) && loading == old(loading)
      ensures search == old(search) && loads == old(loads)
      ensures old(Valid()) ==> Valid()
    {
      if form.examName == [] || form.price == [] {
        alerts := alerts + [NAME_AND_PRICE];
        return;
      }
      submitting := true;
      error := None;
      saveEdit := editingId;
      calls := calls + [SaveCall(form, imageFile, editingId)];
    }

    /** `loadExams` starts. */
    method StartLoad()
      modifies this
      ensures saveReload == old(saveReload)
      ensures loading && error.None? && loads == old(loads) + 1
      ensures exams == old(exams) && search == old(search) && showForm == old(showForm) && form == old(form)
      ensures imageFile == old(imageFile) && preview == old(preview) && editingId == old(editingId)
      ensures submitting == old(submitting) && saveEdit == old(saveEdit) && calls == old(calls)
      ensures alerts == old(alerts)
      ensures old(Valid()) ==> Valid()
    {
      loading := true;
      error := None;
      loads := loads + 1;
    }

    /** The save's answer: on success the alert, `resetForm` and the awaited
        reload, with `submitting` kept until that reload answers; on failure the
        error, and `submitting` ends. */
    method SaveAnswered(r: Response)
      requires submitting && !saveReload
      modifies this
      ensures Api.Call(if Editing(old(saveEdit)) then UpdateExam else AddExam, r).Ok? ==>
                alerts == old(alerts) + [if Editing(old(saveEdit)) then UPDATED else ADDED] &&
                form == EMPTY_FORM && imageFile.None? && preview.None? && editingId.None? && !showForm &&
                loading && error.None? && loads == old(loads) + 1 && submitting && saveReload
      ensures Api.Call(if Editing(old(saveEdit)) then UpdateExam else AddExam, r).Err? ==>
                error == Some(ErrorText(Api.Call(if Editing(old(saveEdit)) then UpdateExam else AddExam, r).error,
                                        SAVE_FAILED)) &&
                alerts == old(alerts) && form == old(form) && imageFile == old(imageFile) &&
                preview == old(preview) && editingId == old(editingId) &&
                showForm == old(showForm) && loading == old(loading) && loads == old(loads) &&
                !submitting && !saveReload
      ensures exams == old(exams) && search == old(search) && calls == old(calls) && saveEdit == old(saveEdit)
      ensures old(Valid()) ==> Valid()
    {
      var res := Api.Call(if Editing(saveEdit) then UpdateExam else AddExam, r);
      if res.Ok? {
        alerts := alerts + [if Editing(saveEdit) then UPDATED else ADDED];
        ResetForm();
        StartLoad();
        saveReload := true;
      } else {
        error := Some(ErrorText(res.error, SAVE_FAILED));
        submitting := false;
      }
    }

    /** The list's answer (`getExams`); `rows` is the typed reading of
        `data.data || []`. When a save awaits this reload, its `finally` runs
        now: `submitting` ends. */
    method LoadAnswered(r: Response, rows: seq<Exam>)
      modifies this
      ensures !loading && !saveReload
      ensures submitting == (old(submitting) && !old(saveReload))
      ensures Api.Call(FetchExams, r).Ok? ==> exams == rows && error == old(error)
      ensures Api.Call(FetchExams, r).Err? ==>
                exams == old(exams) && error == Some(ErrorText(Api.Call(FetchExams, r).error, LOAD_FAILED))
      ensures search == old(search) && showForm == old(showForm) && form == old(form)
      ensures imageFile == old(imageFile) && preview == old(preview) && editingId == old(editingId)
      ensures saveEdit == old(saveEdit) && calls == old(calls)
      ensures alerts == old(alerts) && loads == old(loads)
      ensures old(Valid()) ==> Valid()
    {
      var res := Api.Call(FetchExams, r);
      submitting := submitting && !saveReload;
      saveReload := false;
      loading := false;
      if res.Ok? {
        exams := rows;
      } else {
        error := Some(ErrorText(res.error, LOAD_FAILED));
      }
    }

    /** `handleDelete`: nothing unless confirmed; otherwise the error is cleared
        and `deleteExam` is called. */
    method Delete(id: int, confirmed: bool)
      modifies this
      ensures saveReload == old(saveReload)
      ensures confirmed ==>
                calls == old(calls) + [Call(DeleteExam, [("action", Text("delete")), IdEntry(id)])] && error.None?
      ensures !confirmed ==> calls == old(calls) && error == old(error)
      ensures exams == old(exams) && loading == old(loading) && search == old(search)
      ensures showForm == old(showForm) && form == old(form) && imageFile == old(imageFile)
      ensures preview == old(preview) && editingId == old(editingId) && submitting == old(submitting)
      ensures saveEdit == old(saveEdit) && alerts == old(alerts) && loads == old(loads)
      ensures old(Valid()) ==> Valid()
    {
      if confirmed {
        error := None;
        calls := calls + [Call(DeleteExam, [("action", Text("delete")), IdEntry(id)])];
      }
    }

    /** The delete's answer: the alert and a reload, or the error. */
    method DeleteAnswered(r: Response)
      modifies this
      ensures saveReload == old(saveReload)
      ensures Api.Call(DeleteExam, r).Ok? ==>
                alerts == old(alerts) + [DELETED] && loading && error.None? && loads == old(loads) + 1
      ensures Api.Call(DeleteExam, r).Err? ==>
                error == Some(ErrorText(Api.Call(DeleteExam, r).error, DELETE_FAILED)) &&
                alerts == old(alerts) && loading == old(loading) && loads == old(loads)
      ensures exams == old(exams) && search == old(search) && showForm == old(showForm) && form == old(form)
      ensures imageFile == old(imageFile) && preview == old(preview) && editingId == old(editingId)
      ensures submitting == old(submitting) && saveEdit == old(saveEdit) && calls == old(calls)
      ensures old(Valid()) ==> Valid()
    {
      var res := Api.Call(DeleteExam, r);
      if res.Ok? {
        alerts := alerts + [DELETED];
        StartLoad();
      } else {
        error := Some(ErrorText(res.error, DELETE_FAILED));
      }
    }

    /** The search box and the close button of the error banner. */
    method SetSearch(q: string)
      modifies this
      ensures saveReload == old(saveReload)
      ensures search == q && exams == old(exams) && error == old(error) && showForm == old(showForm)
      ensures form == old(form) && imageFile == old(imageFile) && preview == old(preview)
      ensures editingId == old(editingId) && loading == old(loading) && submitting == old(submitting)
      ensures saveEdit == old(saveEdit) && calls == old(calls) && alerts == old(alerts) && loads == old(loads)
      ensures old(Valid()) ==> Valid()
    {
      search := q;
    }

    method DismissError()
      modifies this
      ensures saveReload == old(saveReload)
      ensures error.None? && search == old(search) && exams == old(exams) && showForm == old(showForm)
      ensures form == old(form) && imageFile == old(imageFile) && preview == old(preview)
      ensures editingId == old(editingId) && loading == old(loading) && submitting == old(submitting)
      ensures saveEdit == old(saveEdit) && calls == old(calls) && alerts == old(alerts) && loads == old(loads)
      ensures old(Valid()) ==> Valid()
    {
      error := None;
    }

    /** "Showing n of m exams". */
    function Showing(): (n: nat)
      reads this
      ensures n <= |exams|
    {
      |Filtered(exams, search)|
    }
  }

  /** Editing a row and saving it without picking a file never uploads an
      image again: the update carries no image entry. */
  method EditAndSave(p: Page, e: Exam)
    requires !p.submitting && !p.saveReload && e.id != 0 && e.examName != [] && e.price != []
    modifies p
    ensures |p.calls| == |old(p.calls)| + 1
    ensures p.calls[|p.calls| - 1].op == UpdateExam
    ensures "image" !in Names(p.calls[|p.calls| - 1].entries)
  {
    p.Edit(e);
    p.Submit();
  }
}
