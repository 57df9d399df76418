/** The admin API client (`src/lib/api.ts`): the multipart bodies it builds for
    the exam, course and test endpoints, and how it turns a response into a
    value or a thrown error. */
module Api {
  import opened Base
  import opened Text
  import opened Json

  // ---------------------------------------------------------------- multipart bodies

  /** A chosen file; only its identity matters here. */
  datatype File = File(name: string)

  /** One value of a multipart body. */
  datatype Part = Text(s: string) | Blob(file: File)

  type Entry = (string, Part)

  /** A `FormData` object: its entries in the order they were appended. */
  class FormData {
    var entries: seq<Entry>

    constructor ()
      ensures entries == []
    {
      entries := [];
    }

    method Append(name: string, value: Part)
      modifies this
      ensures entries == old(entries) + [(name, value)]
    {
      entries := entries + [(name, value)];
    }
  }

  /** The names of a body's entries, in order. */
  function Names(es: seq<Entry>): (ns: seq<string>)
    ensures |ns| == |es|
    ensures forall i :: 0 <= i < |es| ==> ns[i] == es[i].0
  {
    seq(|es|, i requires 0 <= i < |es| => es[i].0)
  }

  /** `x || ""` for an optional string field. */
  function OrEmpty(x: Option<string>): (s: string)
    ensures x.Some? ==> s == x.value
    ensures x.None? ==> s == []
  {
    if x.Some? then x.value else []
  }

  /** The entry of the image, present only when a file was chosen. */
  function ImageEntry(image: Option<File>): (es: seq<Entry>)
    ensures image.None? <==> es == []
    ensures image.Some? ==> es == [("image", Blob(image.value))]
  {
    if image.Some? then [("image", Blob(image.value))] else []
  }

  /** `ExamFormData`. */
  datatype ExamForm = ExamForm(examName: string, subject: Option<string>, price: string,
                               duration: Option<string>, image: Option<File>)

  /** `CourseFormData`. */
  datatype CourseForm = CourseForm(courseName: string, description: string, price: string,
                                   duration: string, image: Option<File>)

  /** The exam fields shared by `addExam` and `updateExam`. */
  function ExamEntries(f: ExamForm): (es: seq<Entry>)
    ensures Names(es) == ["exam_name", "subject", "price", "duration"] + Names(ImageEntry(f.image))
    ensures es[1] == ("subject", Text(OrEmpty(f.subject))) && es[3] == ("duration", Text(OrEmpty(f.duration)))
    ensures es[0] == ("exam_name", Text(f.examName)) && es[2] == ("price", Text(f.price))
  {
    [("exam_name", Text(f.examName)), ("subject", Text(OrEmpty(f.subject))),
     ("price", Text(f.price)), ("duration", Text(OrEmpty(f.duration)))] + ImageEntry(f.image)
  }

  /** The course fields shared by `addCourse` and `updateCourse`. */
  function CourseEntries(f: CourseForm): (es: seq<Entry>)
    ensures Names(es) == ["course_name", "description", "price", "duration"] + Names(ImageEntry(f.image))
    ensures es[..4] == [("course_name", Text(f.courseName)), ("description", Text(f.description)),
                        ("price", Text(f.price)), ("duration", Text(f.duration))]
  {
    [("course_name", Text(f.courseName)), ("description", Text(f.description)),
     ("price", Text(f.price)), ("duration", Text(f.duration))] + ImageEntry(f.image)
  }

  /** `id.toString()`. */
  function IdEntry(id: int): Entry {
    ("id", Text(IntToStr(id)))
  }

  /** `addExam`: action=create, then the exam fields. */
  method AddExamForm(f: ExamForm) returns (fd: FormData)
    ensures fresh(fd)
    ensures fd.entries == [("action", Text("create"))] + ExamEntries(f)
  {
    fd := new FormData();
    fd.Append("action", Text("create"));
    fd.Append("exam_name", Text(f.examName));
    fd.Append("subject", Text(OrEmpty(f.subject)));
    fd.Append("price", Text(f.price));
    fd.Append("duration", Text(OrEmpty(f.duration)));
    if f.image.Some? {
      fd.Append("image", Blob(f.image.value));
    }
  }

  /** `updateExam`: action=update and the id, then the exam fields. */
  method UpdateExamForm(id: int, f: ExamForm) returns (fd: FormData)
    ensures fresh(fd)
    ensures fd.entries == [("action", Text("update")), IdEntry(id)] + ExamEntries(f)
  {
    fd := new FormData();
    fd.Append("action", Text("update"));
    fd.Append("id", Text(IntToStr(id)));
    fd.Append("exam_name", Text(f.examName));
    fd.Append("subject", Text(OrEmpty(f.subject)));
    fd.Append("price", Text(f.price));
    fd.Append("duration", Text(OrEmpty(f.duration)));
    if f.image.Some? {
      fd.Append("image", Blob(f.image.value));
    }
  }

  /** `deleteExam`: action=delete, then the id. */
  method DeleteExamForm(id: int) returns (fd: FormData)
    ensures fresh(fd)
    ensures fd.entries == [("action", Text("delete")), IdEntry(id)]
  {
    fd := new FormData();
    fd.Append("action", Text("delete"));
    fd.Append("id", Text(IntToStr(id)));
  }

  /** `addCourse`: the course fields. */
  method AddCourseForm(f: CourseForm) returns (fd: FormData)
    ensures fresh(fd)
    ensures fd.entries == CourseEntries(f)
  {
    fd := new FormData();
    fd.Append("course_name", Text(f.courseName));
    fd.Append("description", Text(f.description));
    fd.Append("price", Text(f.price));
    fd.Append("duration", Text(f.duration));
    if f.image.Some? {
      fd.Append("image", Blob(f.image.value));
    }
  }

  /** `updateCourse`: the id first, then the course fields. */
  method UpdateCourseForm(id: int, f: CourseForm) returns (fd: FormData)
    ensures fresh(fd)
    ensures fd.entries == [IdEntry(id)] + CourseEntries(f)
  {
    fd := new FormData();
    fd.Append("id", Text(IntToStr(id)));
    fd.Append("course_name", Text(f.courseName));
    fd.Append("description", Text(f.description));
    fd.Append("price", Text(f.price));
    fd.Append("duration", Text(f.duration));
    if f.image.Some? {
      fd.Append("image", Blob(f.image.value));
    }
  }

  /** `deleteCourse` and `deleteTest`: the id alone. */
  method DeleteByIdForm(id: int) returns (fd: FormData)
    ensures fresh(fd)
    ensures fd.entries == [IdEntry(id)]
  {
    fd := new FormData();
    fd.Append("id", Text(IntToStr(id)));
  }

  /** A `TestFormData` object: its string fields in key order. */
  type TestForm = seq<(string, string)>

  /** The entries of the text fields, in the same order. */
  function TextEntries(form: TestForm): (es: seq<Entry>)
    ensures |es| == |form|
    ensures forall i :: 0 <= i < |form| ==> es[i] == (form[i].0, Text(form[i].1))
  {
    seq(|form|, i requires 0 <= i < |form| => (form[i].0, Text(form[i].1)))
  }

  /** The `Object.keys(testData).forEach(…)` loop: every field, in key order. */
  method AppendAll(fd: FormData, form: TestForm)
    modifies fd
    ensures fd.entries == old(fd.entries) + TextEntries(form)
  {
    var i := 0;
    while i < |form|
      invariant 0 <= i <= |form|
      invariant fd.entries == old(fd.entries) + TextEntries(form[..i])
    {
      assert TextEntries(form[..i + 1]) == TextEntries(form[..i]) + [(form[i].0, Text(form[i].1))];
      fd.Append(form[i].0, Text(form[i].1));
      i := i + 1;
    }
    assert form[..|form|] == form;
  }

  /** `addTest`. */
  method AddTestForm(form: TestForm) returns (fd: FormData)
    ensures fresh(fd)
    ensures fd.entries == TextEntries(form)
  {
    fd := new FormData();
    AppendAll(fd, form);
  }

  /** `updateTest`: the id first, then every field in key order. */
  method UpdateTestForm(id: int, form: TestForm) returns (fd: FormData)
    ensures fresh(fd)
    ensures fd.entries == [IdEntry(id)] + TextEntries(form)
  {
    fd := new FormData();
    fd.Append("id", Text(IntToStr(id)));
    AppendAll(fd, form);
  }

  /** An update body is the create body with the action changed and the id put
      right after it; only the image part depends on whether a file was chosen. */
  lemma UpdateExamIsAddWithId(id: int, f: ExamForm)
    ensures ([("action", Text("update")), IdEntry(id)] + ExamEntries(f))[2..] ==
            ([("action", Text("create"))] + ExamEntries(f))[1..]
    ensures |ExamEntries(f)| == if f.image.Some? then 5 else 4
  {
    assert |Names(ExamEntries(f))| == |ExamEntries(f)|;
  }

  /** Every update body starts with the id; the create bodies carry none. */
  lemma IdComesFirst(id: int, f: CourseForm, t: TestForm)
    requires forall i :: 0 <= i < |t| ==> t[i].0 != "id"
    ensures ([IdEntry(id)] + CourseEntries(f))[0].0 == "id"
    ensures ([IdEntry(id)] + TextEntries(t))[0].0 == "id"
    ensures "id" !in Names(CourseEntries(f)) && "id" !in Names(TextEntries(t))
  {
    var ns := Names(CourseEntries(f));
    assert ns == ["course_name", "description", "price", "duration"] + Names(ImageEntry(f.image));
  }

  // ---------------------------------------------------------------- responses

  /** What came back: the `ok` flag, the status, the body text and what
      `JSON.parse` makes of it (`None` when it throws). */
  datatype Response = Response(ok: bool, status: int, text: string, parsed: Option<Json>)

  const MAX_ERROR_TEXT: nat := 300

  /** `parseResponse`: the parsed body, or an error carrying at most the first
      300 characters of the text (an HTML error page, typically). */
  function ParseResponse(r: Response): (p: Result<Json>)
    ensures r.parsed.Some? <==> p.Ok?
    ensures p.Ok? ==> p.value == r.parsed.value
    ensures p.Err? ==> |p.error| <= MAX_ERROR_TEXT && p.error <= r.text
    ensures p.Err? && |r.text| <= MAX_ERROR_TEXT ==> p.error == r.text
    ensures p.Err? && |r.text| > MAX_ERROR_TEXT ==> |p.error| == MAX_ERROR_TEXT
  {
    if r.parsed.Some? then Ok(r.parsed.value)
    else Err(r.text[..if |r.text| <= MAX_ERROR_TEXT then |r.text| else MAX_ERROR_TEXT])
  }

  /** The error thrown for a response whose `ok` is false. */
  function HttpError(status: int): string {
    "HTTP error! status: " + IntToStr(status)
  }

  /** `if (!data.success) throw new Error(data.message || fallback)`; a null body
      makes the read of `success` throw. */
  function RequireSuccess(data: Json, fallback: string): (r: Result<Json>)
    ensures r.Ok? <==> data != JNull && Truthy(Get(Some(data), "success"))
    ensures r.Ok? ==> r.value == data
    ensures data == JNull ==> r == Err(NullAccessError("success"))
    ensures data != JNull && !Truthy(Get(Some(data), "success")) ==>
              r == Err(MessageOr(Get(Some(data), "message"), fallback))
  {
    if data == JNull then Err(NullAccessError("success"))
    else if !Truthy(Get(Some(data), "success")) then Err(MessageOr(Get(Some(data), "message"), fallback))
    else Ok(data)
  }

  /** The CRUD calls. */
  datatype Op =
    | FetchExams | AddExam | UpdateExam | DeleteExam
    | FetchCourses | AddCourse | UpdateCourse | DeleteCourse
    | FetchTests | AddTest | UpdateTest | DeleteTest

  /** The exam calls go straight to `parseResponse`; the course and test calls
      check `response.ok` first. */
  predicate ChecksStatus(op: Op) {
    !(op.FetchExams? || op.AddExam? || op.UpdateExam? || op.DeleteExam?)
  }

  /** Each call's own fallback message. */
  function Fallback(op: Op): string {
    match op
    case FetchExams => "Failed to fetch exams"
    case AddExam => "Failed to save exam"
    case UpdateExam => "Failed to update exam"
    case DeleteExam => "Failed to delete exam"
    case FetchCourses => "Failed to fetch courses"
    case AddCourse => "Failed to add course"
    case UpdateCourse => "Failed to update course"
    case DeleteCourse => "Failed to delete course"
    case FetchTests => "Failed to fetch tests"
    case AddTest => "Failed to add test"
    case UpdateTest => "Failed to update test"
    case DeleteTest => "Failed to delete test"
  }

  /** A call's answer: the body when the server reports success, otherwise the
      error it throws. */
  function Call(op: Op, r: Response): (res: Result<Json>)
    ensures res.Ok? <==> ((r.ok || !ChecksStatus(op)) && r.parsed.Some? && r.parsed.value != JNull &&
                          Truthy(Get(r.parsed, "success")))
    ensures res.Ok? ==> res.value == r.parsed.value
    ensures ChecksStatus(op) && !r.ok ==> res == Err(HttpError(r.status))
    ensures (r.ok || !ChecksStatus(op)) && r.parsed.None? ==> res == ParseResponse(r)
    ensures (r.ok || !ChecksStatus(op)) && r.parsed == Some(JNull) ==> res == Err(NullAccessError("success"))
    ensures (r.ok || !ChecksStatus(op)) && r.parsed.Some? && r.parsed.value != JNull &&
            !Truthy(Get(r.parsed, "success")) ==>
              res == Err(MessageOr(Get(r.parsed, "message"), Fallback(op)))
  {
    if ChecksStatus(op) && !r.ok then Err(HttpError(r.status))
    else
      match ParseResponse(r)
      case Err(e) => Err(e)
      case Ok(data) => RequireSuccess(data, Fallback(op))
  }

  /** `getExams` and `getTests`: `data.data || []`. */
  function FetchList(op: Op, r: Response): (res: Result<Json>)
    requires op == FetchExams || op == FetchTests
    ensures res.Ok? <==> Call(op, r).Ok?
    ensures res.Ok? && Truthy(Get(r.parsed, "data")) ==> res.value == Get(r.parsed, "data").value
    ensures res.Ok? && !Truthy(Get(r.parsed, "data")) ==> res.value == JArr([])
  {
    match Call(op, r)
    case Err(e) => Err(e)
    case Ok(data) => Ok(Or(Get(Some(data), "data"), Some(JArr([]))).value)
  }

  /** `getCourses`: `data.data` as it is, `undefined` included. */
  function FetchCourseList(r: Response): (res: Result<Val>)
    ensures res.Ok? <==> Call(FetchCourses, r).Ok?
    ensures res.Ok? ==> res.value == Get(r.parsed, "data")
  {
    match Call(FetchCourses, r)
    case Err(e) => Err(e)
    case Ok(data) => Ok(Get(Some(data), "data"))
  }

  /** A list fetch never yields a falsy value: the fallback is an empty array. */
  lemma FetchListIsTruthy(op: Op, r: Response)
    requires op == FetchExams || op == FetchTests
    requires FetchList(op, r).Ok?
    ensures Truthy(Some(FetchList(op, r).value))
  {
  }

  /** The pattern of `adminLogin` (and of the admin pages that call `fetch`
      themselves): the status check, then `response.json()` (whose failure
      message `parseError` comes from the platform), then the success check. */
  function JsonCall(r: Response, parseError: string, fallback: string): (res: Result<Json>)
    ensures !r.ok ==> res == Err(HttpError(r.status))
    ensures r.ok && r.parsed.None? ==> res == Err(parseError)
    ensures r.ok && r.parsed.Some? ==> res == RequireSuccess(r.parsed.value, fallback)
    ensures res.Ok? ==> r.ok && r.parsed.Some? && Truthy(Get(r.parsed, "success"))
  {
    if !r.ok then Err(HttpError(r.status))
    else if r.parsed.None? then Err(parseError)
    else RequireSuccess(r.parsed.value, fallback)
  }

  /** `adminLogin`. */
  function AdminLogin(r: Response, parseError: string): (res: Result<Json>)
    ensures r.ok && r.parsed.Some? && r.parsed.value != JNull && !Truthy(Get(r.parsed, "success")) ==>
              res == Err(MessageOr(Get(r.parsed, "message"), "Invalid credentials"))
    ensures res.Ok? <==> (r.ok && r.parsed.Some? && r.parsed.value != JNull && Truthy(Get(r.parsed, "success")))
  {
    JsonCall(r, parseError, "Invalid credentials")
  }

  /** An exam call reads the body even when the status is an error: a failing
      status with a successful body still succeeds, unlike a course call. */
  lemma ExamIgnoresStatus(r: Response)
    requires !r.ok && r.parsed.Some? && r.parsed.value != JNull && Truthy(Get(r.parsed, "success"))
    ensures Call(AddExam, r).Ok? && Call(AddCourse, r).Err?
  {
  }
}
