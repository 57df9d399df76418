# tomaths — a Dafny model of the storefront and admin logic

tomaths is a React storefront and admin panel for a mathematics course site. Students browse exams, courses and subcategories, sign up and log in, and buy courses or a test series through the Razorpay payment widget. Administrators manage exams, tests and subcategories and review payments and students. This project models the logic behind those pages and proves properties of it.

What is modelled:

- The image-URL, slug and name normalisers: `Slug`, `CourseList`, `CoursesBySub`, `ExamDetails`, `ExamGrid`, `CourseDetails`.
- The endpoint-fallback loops: `Attempts`, `CourseList`, `CoursesBySub`.
- The three purchase flows: `CourseDetails`, `TestSeries` and `PaidCourses`, with the messages they share in `Gateway`.
- The navigation bar's stored user and avatar colour: `Navigation`.
- The sign-in pop-up: `EmailLogin`.
- The API client's request bodies and success decisions: `Api`.
- The admin pages: `Payments`, `Users`, `TestsAdmin`, `ExamAdmin`, `SubcategoryAdmin`.

Shared modules:

- `Base`: `Option` and `Result`.
- `Json`: JavaScript values and their coercions. Truthiness, `||`, `??`, `String(…)` and `Number(…)` are included. `undefined` is a missing value and `null` is `JNull`.
- `Text`: string operations.
- `Seqs`: filtering, with its order and multiset facts.

Pure code is written as functions with lemmas. Components that change state step by step are classes:

- React state becomes fields that the handlers' methods reassign.
- Each request the page sends is appended to a `requests`, `posts` or `calls` field.
- Alerts go to `alerts`.
- Network answers, timers and widget callbacks are events, each fed to a method of its own.

## Model

| member | source | states |
|---|---|---|
| Api.FormData.Append | src/lib/api.ts:86-95 | appending adds exactly one entry at the end of the body |
| Api.ImageEntry | src/lib/api.ts:92-94 | the image part is present exactly when a file was chosen |
| Api.ExamEntries | src/lib/api.ts:87-95 | the exam body names are exam_name, subject, price, duration, then image only when chosen; a missing subject or duration is sent as "" |
| Api.CourseEntries | src/lib/api.ts:211-218 | the course body names are course_name, description, price, duration, then image only when chosen |
| Api.AddExamForm | src/lib/api.ts:85-95 | the `addExam` body is action=create followed by the exam fields |
| Api.UpdateExamForm | src/lib/api.ts:112-123 | the `updateExam` body is action=update, the id, then the exam fields |
| Api.DeleteExamForm | src/lib/api.ts:140-143 | the `deleteExam` body is action=delete and the id, nothing else |
| Api.AddCourseForm | src/lib/api.ts:208-218 | the `addCourse` body is the course fields alone |
| Api.UpdateCourseForm | src/lib/api.ts:243-254 | the `updateCourse` body is the id followed by the course fields |
| Api.DeleteByIdForm | src/lib/api.ts:279-282 | the `deleteCourse` and `deleteTest` bodies are the id alone |
| Api.TextEntries | src/lib/api.ts:361-363 | one text entry per form field, same names and values, same order |
| Api.AppendAll | src/lib/api.ts:361-363 | the `forEach` over the keys appends every field in key order after what was there |
| Api.AddTestForm | src/lib/api.ts:358-363 | the `addTest` body is every test field in key order |
| Api.UpdateTestForm | src/lib/api.ts:388-394 | the `updateTest` body is the id, then every test field in key order |
| Api.UpdateExamIsAddWithId | src/lib/api.ts:85-123 | an update body is the create body with the action changed and the id inserted after it; the exam part has 5 entries with an image and 4 without |
| Api.IdComesFirst | src/lib/api.ts:208-254 | course and test update bodies start with the id, and the create bodies carry no id |
| Api.ParseResponse | src/lib/api.ts:7-15 | it succeeds exactly when the text parses, with the parsed value; otherwise the error is a prefix of the text of at most 300 characters, the whole text when it is that short and exactly its first 300 characters otherwise |
| Api.RequireSuccess | src/lib/api.ts:77-79 | it accepts exactly a non-null body with a truthy `success`; a null body throws the null-read error; otherwise the error is the message or the fallback |
| Api.Call | src/lib/api.ts:69-444 | a CRUD call succeeds exactly when the status check passes (or is absent, for the exam calls), the body parses and is not null, and `success` is truthy, and then it returns the body; each failure gives the error that call throws: the HTTP error, the parse error, the null-body `success` read error, or the message or the call's fallback |
| Api.FetchList | src/lib/api.ts:69-80 | `getExams` and `getTests` succeed with the call, returning `data.data` when it is truthy and `[]` otherwise |
| Api.FetchCourseList | src/lib/api.ts:183-200 | `getCourses` succeeds with the call and returns `data.data` as it is, undefined included |
| Api.FetchListIsTruthy | src/lib/api.ts:80 | a successful list fetch never yields a falsy value |
| Api.JsonCall | src/lib/api.ts:31-40 | the status check comes first, then the JSON read, then the success check; a success implies an ok status and a truthy `success` |
| Api.AdminLogin | src/lib/api.ts:20-46 | the login succeeds exactly when the status is ok, the body parses, is not null and has a truthy `success`; otherwise a parsed body's message or "Invalid credentials" is the error |
| Api.ExamIgnoresStatus | src/lib/api.ts:97-107 | an exam call with an error status but a successful body succeeds, while the same answer fails a course call |
| Slug.Collapse | src/pages/CourseListPage.tsx:71 | every run of characters outside [a-z0-9] becomes one hyphen: the result has only [a-z0-9-], no "--", is empty exactly when the input is, and starts with a hyphen exactly when the input starts outside [a-z0-9] |
| Slug.StripEdgeHyphens | src/pages/CourseListPage.tsx:72 | on a string without "--", the result has no hyphen at either end, no "--" and no new characters |
| Slug.Slugify | src/pages/CourseListPage.tsx:66-73 | the result has only a–z, 0–9 and '-', never starts or ends with '-', and never contains "--" (the same code is at src/pages/CoursesBySubCategoryPage.tsx:63-70) |
| Slug.CollapseKeeps | src/pages/CourseListPage.tsx:71 | a string of [a-z0-9-] without "--" is left unchanged by the run collapse |
| Slug.SlugifyKeepsSlugs | src/pages/CourseListPage.tsx:66-73 | a slug-shaped string is its own slug |
| Slug.SlugifyIdempotent | src/pages/CourseListPage.tsx:66-73 | slugify(slugify(s)) = slugify(s) for every s |
| Attempts.Judge | src/pages/CourseListPage.tsx:170-181 | one attempt succeeds exactly when the request completed, the text parsed, the body is not null, `ok` is true and `success` is not false, and then it yields the body; otherwise the error is the thrown message, "API did not return JSON (HTTP status)", the null-body read error of `success` or `message`, or, for a non-ok reply or `success: false`, the body's `message` or "HTTP status" (see also lines 137-147) |
| Attempts.Steps | src/pages/CourseListPage.tsx:173-186 | there is one outcome per reply, each being that attempt's judgement followed by normalisation |
| Attempts.FirstOk | src/pages/CourseListPage.tsx:173-186 | the position of the first success: every earlier attempt failed, and the one there (if any) succeeded |
| Attempts.RunAttempts | src/pages/CourseListPage.tsx:170-188 | the loop stops at the first success with its list and no error, after that many requests; if none succeeds every request was made and the error left is the last attempt's (the loop at src/pages/CoursesBySubCategoryPage.tsx:155-175 is the same) |
| Attempts.FirstOkIs | src/pages/CourseListPage.tsx:173-186 | a success preceded only by failures is the first success |
| Attempts.FirstOkNone | src/pages/CourseListPage.tsx:173-186 | with no success anywhere, the first-success position is the length |
| Attempts.ResponseRows | src/pages/CourseListPage.tsx:86-91 | the rows come from `courses` if it is an array, else `data` if it is an array, else `data.courses` if it is an array, else none |
| CourseList.CleanStr | src/pages/CourseListPage.tsx:24-29 | the cleaned text has no backslash and no surrounding white space, and null or undefined clean to "" |
| CourseList.NormalizeImageUrl | src/pages/CourseListPage.tsx:30-65 | the URL is never empty; null gives the placeholder; every result is the placeholder, an upload URL, or the cleaned input unchanged |
| CourseList.FromClean | src/pages/CourseListPage.tsx:34-64 | "", "null" and "undefined" give the placeholder; a non-API absolute URL is returned unchanged; a relative path with "uploads/" gives the upload folder plus the text after its last "uploads/", or the placeholder when that text is empty; a relative path without "uploads/" gives the upload folder plus its last "/"-segment, or plus the whole path when that segment is empty; the result is never empty |
| CourseList.CleanKeeps | src/pages/CourseListPage.tsx:24-29 | a string with no backslash, no quote at either end and no surrounding white space is already clean |
| CourseList.CleanQuoted | src/pages/CourseListPage.tsx:27 | a plain file name in quotes cleans to the bare name |
| CourseList.ImageUrlConverges | src/pages/CourseListPage.tsx:30-65 | "f", "\"f\"", "uploads/f", "/uploads/f" and ".../api/uploads/f" all map to the same upload URL of f |
| CourseList.BareName | src/pages/CourseListPage.tsx:61-64 | a bare file name maps to the upload base plus the name |
| CourseList.QuotedName | src/pages/CourseListPage.tsx:24-34 | a quoted bare file name maps to the upload base plus the name |
| CourseList.ApiPath | src/pages/CourseListPage.tsx:37-42 | an API upload URL maps to the upload base plus its last path segment |
| CourseList.CleanPlainPath | src/pages/CourseListPage.tsx:24-29 | a prefix without backslashes that starts with neither a quote nor white space, followed by a plain name, is left unchanged by cleaning |
| CourseList.UploadsBranch | src/pages/CourseListPage.tsx:55-59 | a relative path containing "uploads/" (and not "/api/uploads/") maps to the upload base plus the text after the last "uploads/" when that text is not empty |
| CourseList.ApiBranch | src/pages/CourseListPage.tsx:37-42 | a path containing "/api/uploads/" maps to the upload base plus its last "/"-segment, whether or not it is absolute: this test runs before the absolute-URL test |
| CourseList.BareBranch | src/pages/CourseListPage.tsx:61-64 | a relative path with no "uploads/" and no "/" maps to the upload base plus itself |
| CourseList.UploadsPath | src/pages/CourseListPage.tsx:55-59 | "uploads/f" maps to the upload base plus f |
| CourseList.SlashUploadsPath | src/pages/CourseListPage.tsx:55-59 | "/uploads/f" maps to the upload base plus f |
| CourseList.ToTitle | src/pages/CourseListPage.tsx:75-84 | the title is the first of `course_name`, `name`, `title`, `course_title`, `course` that is neither null nor undefined, cleaned; an empty string stops the search; with all five keys missing the title is ""; the title never starts or ends with a space |
| CourseList.NormalizeRow | src/pages/CourseListPage.tsx:93-98 | a null row throws; any other row gives a course with id `Number(r.id)`, named by `ToTitle` or "Untitled Course" when that is empty, whose image is the first non-nullish of `image_url`, `image`, `imagePath` (else null) and whose subcategory id is the first non-nullish of `subcategory_id`, `sub_cat_id`, `subCategoryId` (else null) |
| CourseList.NormalizeCourses | src/pages/CourseListPage.tsx:86-99 | it succeeds exactly when the body is not null and no row is null, with one course per row, in order |
| CourseList.NormalizedCoursesNamed | src/pages/CourseListPage.tsx:93-98 | every course of a normalised response is named, and its id comes from its row |
| CourseList.CapitalizeWords | src/pages/CourseListPage.tsx:103 | the length is kept; exactly the word characters that start a word are upper-cased |
| CourseList.TitleCaseFromSlug | src/pages/CourseListPage.tsx:101-104 | an empty name gives "MORE COURSES"; otherwise the heading has the same length and no hyphen |
| CourseList.ParseSlug | src/pages/CourseListPage.tsx:113-121 | the heading is never empty, and the id is the number before the first "-" |
| CourseList.ParseSlugOfLink | src/pages/CourseListPage.tsx:113-121 | a slug built as id-name reads back as that id and the title case of name |
| CourseList.ParseSlugExample | src/pages/CourseListPage.tsx:113-121 | "12-foo-bar" is subcategory 12 with the heading "Foo Bar" |
| CourseList.FooBarTitle | src/pages/CourseListPage.tsx:101-104 | "foo-bar" gets the heading "Foo Bar" |
| CourseList.FooBarCapitalized | src/pages/CourseListPage.tsx:103 | "foo bar" is capitalised to "Foo Bar" |
| CourseList.ParseSlugNoName | src/pages/CourseListPage.tsx:101-119 | a slug that is only an id gets the heading "MORE COURSES" |
| CourseList.ParseSlugInvalid | src/pages/CourseListPage.tsx:113-132 | a slug whose first part starts with a letter has no id, which is the invalid-slug case |
| CourseList.FilterBySubcategory | src/pages/CourseListPage.tsx:190-192 | when some course carries a subcategory id, the kept courses are exactly those whose id string equals the requested one, in order, each kept as many times as it occurs; when none does, the list is kept whole |
| CourseList.Load | src/pages/CourseListPage.tsx:127-206 | an invalid slug gives "Invalid subcategory slug", no courses and no request; otherwise the three requests run in order until one succeeds, whose filtered list is shown; if all fail, the last error (or "Failed to load courses") is shown with no courses; loading ends in every case |
| CoursesBySub.Cleaned | src/pages/CoursesBySubCategoryPage.tsx:27 | the cleaned text has no backslash and no surrounding white space |
| CoursesBySub.NormalizeImageUrl | src/pages/CoursesBySubCategoryPage.tsx:24-32 | a falsy value gives the placeholder; a cleaned absolute URL is returned unchanged; anything else lands under the upload base; the result is never empty |
| CoursesBySub.ImageUrlStable | src/pages/CoursesBySubCategoryPage.tsx:24-32 | normalising a URL this function produced for a truthy value gives the same URL again |
| CoursesBySub.UploadFixed | src/pages/CoursesBySubCategoryPage.tsx:30-31 | what the rewrite puts under the upload base is a fixed point of normalisation |
| CoursesBySub.UnderUploadFixed | src/pages/CoursesBySubCategoryPage.tsx:24-32 | a URL under the upload base with no backslash and no trailing space is its own normal form |
| CoursesBySub.AbsoluteFixed | src/pages/CoursesBySubCategoryPage.tsx:28 | a clean absolute URL is its own normal form |
| CoursesBySub.ImageUrlConverges | src/pages/CoursesBySubCategoryPage.tsx:30-31 | "a.png", "uploads/a.png" and "/uploads/a.png" give the same URL |
| CoursesBySub.BareConverges | src/pages/CoursesBySubCategoryPage.tsx:30-31 | a bare name goes directly under the upload base |
| CoursesBySub.UploadsConverges | src/pages/CoursesBySubCategoryPage.tsx:30-31 | one leading "uploads/" is removed |
| CoursesBySub.SlashUploadsConverges | src/pages/CoursesBySubCategoryPage.tsx:30-31 | leading slashes, then one "uploads/", are removed |
| CoursesBySub.CleanInput | src/pages/CoursesBySubCategoryPage.tsx:24-32 | a non-empty string that cleaning leaves alone is rewritten directly |
| CoursesBySub.PlainCleaned | src/pages/CoursesBySubCategoryPage.tsx:27 | a clean prefix followed by a plain name is left unchanged by cleaning |
| CoursesBySub.BlankImageIsFolder | src/pages/CoursesBySubCategoryPage.tsx:25-31 | the truthy but blank value " " gives the bare upload folder, not the placeholder |
| CoursesBySub.ToTitle | src/pages/CoursesBySubCategoryPage.tsx:34-44 | the title is `String` of the first of `course_name`, `name`, `title`, `course_title`, `course` that is neither null nor undefined, trimmed; an empty string stops the search; with all keys missing it is "" |
| CoursesBySub.NormalizeRow | src/pages/CoursesBySubCategoryPage.tsx:54-60 | a null row throws; otherwise the course has id `Number(r.id)`, is named by `ToTitle` or "Untitled Course" when that is empty, takes `image_url`, else `image`, else null as its image, and keeps its price and duration when present and has "" for each when it is null or missing |
| CoursesBySub.NormalizeCourses | src/pages/CoursesBySubCategoryPage.tsx:46-61 | it succeeds exactly when the body is not null and no row is null, with one course per row, in order |
| CoursesBySub.NormalizedCoursesFilled | src/pages/CoursesBySubCategoryPage.tsx:54-60 | every course of a normalised response has a name, a price and a duration |
| CoursesBySub.IdText | src/pages/CoursesBySubCategoryPage.tsx:227 | the printed id is never empty, and a non-negative id prints without '-' and reads back as itself |
| CoursesBySub.CourseSlug | src/pages/CoursesBySubCategoryPage.tsx:227 | a course link's slug is its id, a hyphen, and a slug-shaped name |
| CoursesBySub.SlugParts | src/pages/CoursesBySubCategoryPage.tsx:227 | the part of a link before the first '-' is the id and the part after it is the slugified name |
| CoursesBySub.RouteId | src/pages/CoursesBySubCategoryPage.tsx:78-81 | a missing parameter has no id; otherwise the id is the parameter's number |
| CoursesBySub.Load | src/pages/CoursesBySubCategoryPage.tsx:87-187 | a missing or non-numeric id gives the invalid-URL error with no request; otherwise the four requests run in order until one succeeds and its list is shown; if all fail, the last error (or "Failed to load courses") is shown with no courses; loading ends in every case |
| Uploads.Rewrite | src/pages/CoursesBySubCategoryPage.tsx:28-31 | an absolute URL passes unchanged; anything else goes under the upload base (the same rewrite is at src/components/ExamGrid.tsx:19-23) |
| Uploads.UploadName | src/pages/CoursesBySubCategoryPage.tsx:30 | the file part is a suffix of the text, and equals it when the text starts with neither "/" nor "uploads/" |
| Uploads.RewriteIdempotent | src/components/ExamGrid.tsx:17-24 | rewriting a rewritten path changes nothing |
| Uploads.RewriteBare | src/components/ExamGrid.tsx:21-23 | a bare name goes directly under the upload base |
| Uploads.RewriteUploads | src/components/ExamGrid.tsx:21-23 | "uploads/f" goes to the upload base plus f |
| Uploads.RewriteSlashUploads | src/components/ExamGrid.tsx:21-23 | "/uploads/f" goes to the upload base plus f |
| Uploads.RewriteEmpty | src/pages/CoursesBySubCategoryPage.tsx:30-31 | an empty relative path gives the bare upload folder |
| ExamDetails.ToNumberOrNull | src/pages/ExamDetails.tsx:22-25 | a number is itself; null is 0; undefined is null; a string is its numeric reading, or null when that is not finite |
| ExamDetails.FirstNumber | src/pages/ExamDetails.tsx:60-65 | the first listed property with a finite number, or none |
| ExamDetails.SafeId | src/pages/ExamDetails.tsx:59-66 | the number of the first of `id`, `category_id`, `subcategory_id` whose number is finite, each earlier one having none; 0 when none has one |
| ExamDetails.SafeName | src/pages/ExamDetails.tsx:47-57 | the string of the first truthy property among `name`, `category_name`, `subcategory_name`, `title`, `exam_name`, `course_name`, each earlier one being falsy; "Unnamed" when none is truthy |
| ExamDetails.Cleaned | src/pages/ExamDetails.tsx:31-33 | the cleaned text has no backslash |
| ExamDetails.NormalizeImageUrl | src/pages/ExamDetails.tsx:28-45 | a falsy value gives null, and so does one that cleans to ""; every URL returned is absolute and backslash-free; an absolute input is returned cleaned |
| ExamDetails.FromClean | src/pages/ExamDetails.tsx:35-44 | "" gives null; an absolute URL is kept; anything else is placed under the site |
| ExamDetails.Place | src/pages/ExamDetails.tsx:38-44 | each of the four placements gives an https URL without backslashes |
| ExamDetails.ImageUrlConverges | src/pages/ExamDetails.tsx:38-44 | "f", "/uploads/f", "uploads/f", "admin_maths/uploads/f" and "../uploads/f" all give the same upload URL |
| ExamDetails.CleanPath | src/pages/ExamDetails.tsx:31-33 | a clean prefix and a plain name are left unchanged by cleaning |
| ExamDetails.CleanInput | src/pages/ExamDetails.tsx:28-45 | a non-empty clean text is rewritten directly |
| ExamDetails.BareConverges | src/pages/ExamDetails.tsx:44 | a bare name goes under the uploads folder |
| ExamDetails.SlashUploadsConverges | src/pages/ExamDetails.tsx:40 | "/uploads/f" gives the uploads URL of f |
| ExamDetails.SlashUploadsPlaced | src/pages/ExamDetails.tsx:40 | the "/uploads/" placement of a cleaned path |
| ExamDetails.UploadsConverges | src/pages/ExamDetails.tsx:41 | "uploads/f" gives the uploads URL of f |
| ExamDetails.UploadsPlaced | src/pages/ExamDetails.tsx:41 | the "uploads/" placement of a cleaned path |
| ExamDetails.AdminConverges | src/pages/ExamDetails.tsx:42 | "admin_maths/uploads/f" gives the uploads URL of f |
| ExamDetails.AdminPlaced | src/pages/ExamDetails.tsx:42 | the "admin_maths/" placement of a cleaned path |
| ExamDetails.ParentConverges | src/pages/ExamDetails.tsx:38-41 | "../uploads/f" loses its "../" and gives the uploads URL of f |
| ExamDetails.ParentPlaced | src/pages/ExamDetails.tsx:38-41 | one leading "../" is dropped before placement |
| ExamDetails.SafeImage | src/pages/ExamDetails.tsx:68-72 | the image is the normalised value of the first of `image_url`, `image`, `img`, `icon`, `photo` that is neither null nor undefined; a present image is an absolute URL; with all five missing there is none |
| ExamDetails.NormalizeItem | src/pages/ExamDetails.tsx:84-88 | a null row throws; any other becomes the category of its safe id, name and image |
| ExamDetails.ListRows | src/pages/ExamDetails.tsx:75-81 | the rows are the body when it is an array, else its `data` when that is an array, else its `items` when that is an array, else none |
| ExamDetails.NormalizeList | src/pages/ExamDetails.tsx:74-90 | it succeeds exactly when no row is null; the result is an order-preserving subsequence of the mapped rows in which every mapped row with a non-zero id is kept as many times as it occurs, and no row with id 0 is kept |
| ExamDetails.NormalizeListKeeps | src/pages/ExamDetails.tsx:89 | every row whose id is not 0 is kept |
| ExamDetails.Load | src/pages/ExamDetails.tsx:96-145 | a missing or non-numeric id gives "Exam id missing / invalid in URL"; otherwise there is no error exactly when the body parsed, is not null, has a truthy `success` and its rows normalise, and then the categories shown are `normalizeList(json.data)`; a failed request shows its error text, or "Failed to load categories" when that text is empty; any error leaves no categories and a non-empty message; loading ends |
| ExamDetails.Fetch | src/pages/ExamDetails.tsx:116-132 | it succeeds exactly when the body parsed, is not null, has a truthy `success` and `data` normalises, giving that list; `res.ok` is not consulted |
| ExamGrid.ToFullImageUrl | src/components/ExamGrid.tsx:17-24 | a falsy value gives null; a string gives a URL, unchanged when absolute and under the upload base otherwise; a truthy non-string throws |
| ExamGrid.FullImageUrlIdempotent | src/components/ExamGrid.tsx:17-24 | a URL it produced comes back unchanged |
| ExamGrid.FullImageUrlConverges | src/components/ExamGrid.tsx:21-23 | "a.png", "uploads/a.png" and "/uploads/a.png" give the same URL |
| ExamGrid.UrlValue | src/components/ExamGrid.tsx:55 | a missing URL is stored back as null |
| ExamGrid.FixExam | src/components/ExamGrid.tsx:53-56 | a null exam throws; an object keeps its fields with `image_url` replaced by its full URL; any other value spreads its own properties (an array's elements and a string's characters under "0", "1", …, nothing for a number or boolean) beside a null `image_url` |
| ExamGrid.Indexed | src/components/ExamGrid.tsx:53-56 | the properties `{...list}` copies: element i under the key "i" for every index, no other key, and never an `image_url` key |
| ExamGrid.FixList | src/components/ExamGrid.tsx:50-56 | a falsy `data` gives []; an array is fixed element by element, keeping its length |
| ExamGrid.Load | src/components/ExamGrid.tsx:39-67 | there is no error exactly when the body is not null, has a truthy `success` and its list fixes; then the fixed list is shown; otherwise no exams and a non-empty message (`message` or "API failed", or "Failed"); loading ends |
| ExamGrid.Fetch | src/components/ExamGrid.tsx:45-58 | it succeeds exactly when the body is not null, `success` is truthy and the list fixes, giving the fixed list |
| ExamGrid.Img.OnError | src/components/ExamGrid.tsx:26-30 | the element's address becomes the fallback picture unless it already shows it |
| ExamGrid.AfterError | src/components/ExamGrid.tsx:26-30 | the address after an error contains the fallback, and an address already on it is kept |
| ExamGrid.AfterErrorIdempotent | src/components/ExamGrid.tsx:28 | a second error changes nothing, so there is no retry loop |
| ExamGrid.TwoErrors | src/components/ExamGrid.tsx:26-30 | two errors in a row leave the element as one does |
| CourseDetails.FromPath | src/pages/CourseDetails.tsx:35-36 | the URL is the upload base plus the last "/"-segment, or the placeholder when that segment is empty; it is never empty |
| CourseDetails.LastPiece | src/pages/CourseDetails.tsx:35 | the last segment has no "/", is empty when the text ends with "/", and is the whole text when there is no "/" |
| CourseDetails.GetImage | src/pages/CourseDetails.tsx:31-37 | `image_url`, else `image`, else the placeholder; a truthy non-string throws |
| CourseDetails.GetImageConverges | src/pages/CourseDetails.tsx:35-36 | whatever folder precedes a file name, the URL is the same |
| CourseDetails.FromPathStable | src/pages/CourseDetails.tsx:35-36 | a URL under the upload base is a fixed point |
| CourseDetails.DefaultNotStable | src/pages/CourseDetails.tsx:14-36 | the placeholder itself, fed back in, is moved under the upload base |
| CourseDetails.Find | src/pages/CourseDetails.tsx:61-63 | `find` returns the first element whose `String(id)` equals the slug id, none when no element matches, and throws on a null element reached first |
| CourseDetails.Load | src/pages/CourseDetails.tsx:52-70 | with no slug, or when the request fails, loading never ends and no course is set; a found course has the slug's id and ends loading; a body without `courses` ends loading with no course |
| CourseDetails.LinkFindsCourse | src/pages/CourseDetails.tsx:56-63 | the link built by the courses-by-subcategory page leads back to the course with that id |
| CourseDetails.LoadFinds | src/pages/CourseDetails.tsx:61-66 | a list whose search ends on an object shows that object and ends loading |
| CourseDetails.SlugOfLink | src/pages/CourseDetails.tsx:56 | such a link is non-empty and its part before the first "-" is the id |
| CourseDetails.OrderAmount | src/pages/CourseDetails.tsx:85 | the amount is `Number(price) * 100`, a multiple of 100, and none exactly when the price is not a number |
| CourseDetails.OrderAmountOfPrice | src/pages/CourseDetails.tsx:85 | an integer price n is charged as n * 100 |
| CourseDetails.Released | src/pages/CourseDetails.tsx:112-122 | the lock and `loadingPay` are released together, with an alert and no new request |
| CourseDetails.Buy | src/pages/CourseDetails.tsx:73-89 | nothing happens without a course, without a user id, or while locked; otherwise the lock and `loadingPay` are taken and one order request is sent |
| CourseDetails.OrderReturned | src/pages/CourseDetails.tsx:89-123 | a failed order, a null body or a missing widget releases with "Payment Failed"; otherwise the widget opens still locked; no request is sent |
| CourseDetails.Dismissed | src/pages/CourseDetails.tsx:91-118 | as written: closing the widget runs nothing, so the lock and `loadingPay` stay held |
| CourseDetails.DismissedReleasing | src/pages/CourseDetails.tsx:91-118 | corrected: a dismiss handler releases the lock and `loadingPay` |
| CourseDetails.Paid | src/pages/CourseDetails.tsx:99-110 | the verification request carries the gateway's three ids, the user id and the course id; the lock stays |
| CourseDetails.VerifyAnswered | src/pages/CourseDetails.tsx:112-114 | whatever the verification says, "Payment Success" is shown and the lock released |
| CourseDetails.VerifyLost | src/pages/CourseDetails.tsx:99-115 | a verification lost on the network leaves the lock and `loadingPay` held |
| CourseDetails.Apply | src/pages/CourseDetails.tsx:73-123 | an event that cannot happen in the current phase changes nothing |
| CourseDetails.ApplyConsistent | src/pages/CourseDetails.tsx:73-123 | every event keeps the flow consistent: the lock and `loadingPay` move together, the lock is held while anything is pending, and at most one order is outstanding |
| CourseDetails.RunConsistent | src/pages/CourseDetails.tsx:73-123 | any run of events keeps the flow consistent |
| CourseDetails.InitialConsistent | src/pages/CourseDetails.tsx:45-47 | the initial state is consistent |
| CourseDetails.NoSecondOrder | src/pages/CourseDetails.tsx:75 | while an order, the widget or a verification is pending, a click sends nothing |
| CourseDetails.StuckAfterDismiss | src/pages/CourseDetails.tsx:75-118 | as written: after a dismiss, no number of clicks sends another order |
| CourseDetails.BuyAfterDismissReleasing | src/pages/CourseDetails.tsx:73-89 | corrected: after a releasing dismiss the flow is consistent and the next click sends a new order |
| CourseDetails.StuckAfterLostVerify | src/pages/CourseDetails.tsx:99-115 | after a lost verification, clicks send nothing |
| CourseDetails.Page.constructor | src/pages/CourseDetails.tsx:43-47 | the page starts loading with no course, the lock and `loadingPay` released, nothing sent, in a consistent purchase state |
| CourseDetails.Page.LoadCourse | src/pages/CourseDetails.tsx:52-70 | the page's course and loading flag follow `Load`, and the purchase state is untouched |
| CourseDetails.Page.ClickBuy | src/pages/CourseDetails.tsx:73-89 | the page's purchase state follows `Buy` |
| CourseDetails.Page.OrderDone | src/pages/CourseDetails.tsx:89-123 | the page's purchase state follows `OrderReturned` |
| CourseDetails.Page.Dismiss | src/pages/CourseDetails.tsx:91-118 | the page's purchase state follows `Dismissed` |
| CourseDetails.Page.GatewayPaid | src/pages/CourseDetails.tsx:99-110 | the page's purchase state follows `Paid` |
| CourseDetails.Page.VerifyDone | src/pages/CourseDetails.tsx:112-114 | the page's purchase state follows `VerifyAnswered` |
| CourseDetails.Page.VerifyFailed | src/pages/CourseDetails.tsx:99-115 | the page's purchase state follows `VerifyLost` |
| Navigation.ToInt32 | src/components/Navigation.tsx:34 | the 32-bit signed reading of a number: in [-2^31, 2^31), congruent to it modulo 2^32, and equal to it when it already fits |
| Navigation.ShiftLeft5 | src/components/Navigation.tsx:34 | `h << 5` is a 32-bit signed value |
| Navigation.ShiftLeft5Small | src/components/Navigation.tsx:34 | below 2^26 in size, the shift is a plain multiplication by 32 |
| Navigation.ShiftLeft5Wraps | src/components/Navigation.tsx:34 | the shift wraps: 2^31 shifts to 0 and 2^26 to -2^31 |
| Navigation.CharCode | src/components/Navigation.tsx:34 | a character code is below 0x110000 |
| Navigation.ColorFor | src/components/Navigation.tsx:36 | the colour is always one of the seven avatar colours |
| Navigation.AvatarColor | src/components/Navigation.tsx:31-37 | the loop computes the hash of the whole name, so the colour is the one `ColorFor` assigns, always one of the seven |
| Navigation.HashBound | src/components/Navigation.tsx:32-35 | the hash grows by at most 2^31 plus a character code per character |
| Navigation.HashExact | src/components/Navigation.tsx:32-35 | for names shorter than 2^21 characters the hash stays below 2^53, so the double arithmetic of the source is exact |
| Navigation.ColorExamples | src/components/Navigation.tsx:21-37 | "" is blue, "U" is green and "ab" is indigo |
| Navigation.AvatarKey | src/components/Navigation.tsx:140-142 | the colour key is the name when truthy, else the email when truthy, else "U", and it is always truthy |
| Navigation.FirstUpper | src/components/Navigation.tsx:95-98 | a string gives its first character upper-cased; a truthy non-string has no `charAt` and throws |
| Navigation.Initial | src/components/Navigation.tsx:93-101 | the initial is one character that is not a lower-case letter; with no name and no email it is "U" |
| Navigation.InitialOfKey | src/components/Navigation.tsx:93-142 | the initial is the upper-cased first character of the colour key |
| Navigation.AnonymousAvatar | src/components/Navigation.tsx:93-142 | a user with no name and no email shows "U" on a green avatar |
| Navigation.Nav.constructor | src/components/Navigation.tsx:40-45 | a new bar has a null user and a closed dropdown |
| Navigation.Nav.LoadStored | src/components/Navigation.tsx:48-58 | a non-empty stored user that parses becomes the user; one that does not parse is removed from the store; nothing happens without one |
| Navigation.Nav.LoginSuccess | src/components/Navigation.tsx:80-83 | the user is set and stored, encoded, under "user" |
| Navigation.Nav.Logout | src/components/Navigation.tsx:86-90 | the stored user is removed, the user is null and the dropdown closes |
| Navigation.Nav.ToggleDropdown | src/components/Navigation.tsx:139 | a click on the avatar toggles the dropdown and changes nothing else |
| Navigation.Nav.ClickOutside | src/components/Navigation.tsx:61-72 | a mouse-down outside closes the dropdown and changes nothing else |
| Navigation.LogoutThenReload | src/components/Navigation.tsx:48-90 | after a logout, a new mount finds nobody signed in |
| Navigation.LoginThenReload | src/components/Navigation.tsx:48-83 | a login survives a reload whose parse gives back the stored user |
| EmailLogin.RegisterError | src/components/email.tsx:50-58 | a registration is refused with "All fields are required" when any field is empty, else with the terms message when the box is unticked, and accepted exactly when all four fields are filled and the box is ticked |
| EmailLogin.LoginError | src/components/email.tsx:97-100 | a login is refused, with "Email / Mobile & password required", exactly when the identifier or the password is empty |
| EmailLogin.AnswerMessage | src/components/email.tsx:68-85 | an unreadable answer or a `null` body gives "Server error"; a truthy `success` gives the success text; otherwise the server's truthy message, else the fallback |
| EmailLogin.SuccessIsGreen | src/components/email.tsx:142-144 | both success messages carry the tick and are shown green |
| EmailLogin.NoTickIsRed | src/components/email.tsx:142-144 | a message without the tick is shown red |
| EmailLogin.FieldsRequiredIsRed | src/components/email.tsx:51 | the missing-fields message is red (see also lines 142-144) |
| EmailLogin.AcceptTermsIsRed | src/components/email.tsx:56 | the terms message is red (see also lines 142-144) |
| EmailLogin.LoginRequiredIsRed | src/components/email.tsx:98 | the missing-credentials message is red (see also lines 142-144) |
| EmailLogin.AnswerErrorsAreRed | src/components/email.tsx:80 | the fixed failure messages and the empty message are red (see also lines 84, 127, 131, 142-144) |
| EmailLogin.AnswerColour | src/components/email.tsx:73-85 | a successful answer is shown green; a failed one is red unless the server's own message carries the tick (see also lines 114-132, 142-144) |
| EmailLogin.Popup.constructor | src/components/email.tsx:16-29 | the pop-up opens on the login form with every field empty, nothing posted and nothing pending |
| EmailLogin.Popup.ResetAll | src/components/email.tsx:36-44 | every field and the message are cleared and the box is unticked; nothing else changes |
| EmailLogin.Popup.TypeMobile | src/components/email.tsx:271 | the mobile field keeps only the digits typed, so it only ever holds digits |
| EmailLogin.Popup.TypeOther | src/components/email.tsx:199 | the other inputs and the box take what is typed or ticked; nothing else changes (see also lines 213, 256, 285, 299, 310) |
| EmailLogin.Popup.SwitchMode | src/components/email.tsx:233-236 | the "Sign up" and "Login" links switch the form and clear every field (see also lines 344-347) |
| EmailLogin.Popup.Back | src/components/email.tsx:158-161 | the back arrow returns to the login form and keeps the fields |
| EmailLogin.Popup.SubmitRegister | src/components/email.tsx:47-66 | a refused form shows the check's message and posts nothing; an accepted one clears the message, starts loading and posts the four fields once |
| EmailLogin.Popup.SubmitLogin | src/components/email.tsx:93-109 | callable while loading, as Enter in the password field is; a refused form shows the check's message, posts nothing and leaves loading as it was; an accepted one clears the message, starts loading and posts the identifier and password once, beside any request in flight (see also lines 217-219) |
| EmailLogin.Popup.RegisterAnswered | src/components/email.tsx:67-88 | the message becomes the answer's message and loading stops; only a success schedules the return to the login form |
| EmailLogin.Popup.LoginAnswered | src/components/email.tsx:110-135 | the message becomes the answer's message and loading stops; only a success hands the user to `onLoginSuccess` and schedules the close |
| EmailLogin.Popup.TimerFired | src/components/email.tsx:75-78 | a pending callback runs once: back to the login form or `onClose`, then every field is cleared (see also lines 122-125) |
| EmailLogin.SignUp | src/components/email.tsx:47-66 | a filled sign-up form with the box ticked posts exactly what was typed, the mobile number reduced to its digits (see also line 271) |
| Gateway.VerifyFailure | src/components/paid-courses.tsx:165-173 | a failed verification shows the backend's truthy message, otherwise (and for a request that threw or a `null` body) "Payment verification failed" |
| Gateway.OrderFailure | src/components/paid-courses.tsx:106-140 | the widget opens exactly when the order body has a truthy `success` and `order_id` and the widget is loaded; otherwise the shown message is never empty: the backend's message, "Order creation failed", or the error thrown |
| PaidCourses.StoredUserId | src/components/paid-courses.tsx:47-61 | without a stored user, or with one that does not parse, the courses are loaded for user 0; otherwise for the stored user's id |
| PaidCourses.Split | src/components/paid-courses.tsx:195-196 | the owned and available sections are order-preserving sub-lists of the courses that together hold every course exactly once, owned ones having a truthy `paid` and available ones not; a non-array fails as `.filter` would, and a `null` course fails with the error of reading its `paid` |
| PaidCourses.Owned | src/components/paid-courses.tsx:228 | for a list the page renders (an array with no `null` course), the owned count plus the available count is the number of courses |
| PaidCourses.OrderAmount | src/components/paid-courses.tsx:104 | a numeric price is sent as it is |
| PaidCourses.OrderAmountOfPrice | src/components/paid-courses.tsx:104 | a price held as the decimal text of an integer n, the declared `string` type of `price`, is sent as n (see also line 25) |
| PaidCourses.AtMostOneProcessing | src/components/paid-courses.tsx:271-293 | among cards with distinct ids, at most one shows "Processing..." |
| PaidCourses.OrderCounts | src/components/paid-courses.tsx:98-105 | starting a purchase adds one order request, no verification request and one purchase awaiting verification |
| PaidCourses.Page.constructor | src/components/paid-courses.tsx:39-44 | no user, no courses, loading, no card processing, no message |
| PaidCourses.Page.Mount | src/components/paid-courses.tsx:47-61 | the parsed stored user is kept and one course load goes out for `StoredUserId` |
| PaidCourses.Page.LoadCourses | src/components/paid-courses.tsx:64-70 | loading starts and one course request for the given user goes out |
| PaidCourses.Page.CoursesAnswered | src/components/paid-courses.tsx:71-87 | a body with truthy `success` and `courses` replaces the courses; anything else keeps them and shows "Failed to load courses" as an error; loading stops either way |
| PaidCourses.Page.HandlePayment | src/components/paid-courses.tsx:91-105 | without a user only the login error is shown; with one, the card is marked processing, the message cleared and one order request sent; every verification request still follows an order of its own |
| PaidCourses.Page.StartPurchase | src/components/paid-courses.tsx:98-105 | the card is marked processing, the message cleared and one order request and one purchase added |
| PaidCourses.Page.ClickBuy | src/components/paid-courses.tsx:293 | a click on a processing card changes nothing, not even the message; on another card without a user it shows the login error and sends nothing; with a user it marks that card processing, clears the message and sends one order for `parseFloat(course.price)` with a new purchase for that card (see also line 400) |
| PaidCourses.Page.OrderAnswered | src/components/paid-courses.tsx:106-140 | the widget opens when `OrderFailure` finds nothing; otherwise its message is shown as an error, the purchase ends and no card is processing |
| PaidCourses.Page.Dismiss | src/components/paid-courses.tsx:123-127 | closing the widget ends that purchase, shows "Payment cancelled" as an error and clears the processing mark |
| PaidCourses.Page.GatewayPaid | src/components/paid-courses.tsx:119-155 | the gateway's three fields, the current user's id and the card's course id go out in one verification request |
| PaidCourses.Page.VerifyAnswered | src/components/paid-courses.tsx:156-177 | success shows the unlocked message and reloads the courses for a present user; failure shows `VerifyFailure`; the purchase ends and no card is processing |
| TestSeries.Page.constructor | src/pages/Testseries.tsx:36-42 | no user, not enrolled, no tests, loading, no payment in progress |
| TestSeries.Page.Mount | src/pages/Testseries.tsx:53-67 | without a stored user, or with one that does not parse, loading just stops; a stored `null` becomes the user and loading stops; otherwise the user is set and the enrollment check for their id goes out; only that last case starts an enrollment check |
| TestSeries.Page.CheckEnrollmentFor | src/pages/Testseries.tsx:71-79 | loading starts and one enrollment request for the user and course 8 goes out |
| TestSeries.Page.EnrollmentAnswered | src/pages/Testseries.tsx:80-97 | truthy `success` and `enrolled` enroll the user and load the tests; another body un-enrolls and stops loading; a request that threw shows "Failed to check enrollment" |
| TestSeries.Page.LoadTests | src/pages/Testseries.tsx:100-108 | one tests request for the user and course 8 goes out |
| TestSeries.Page.TestsAnswered | src/pages/Testseries.tsx:109-125 | a body with truthy `success` and `tests` replaces the tests; another body shows its message or "Failed to load tests"; a request that threw shows "Failed to load tests"; loading stops |
| TestSeries.Page.HandlePayment | src/pages/Testseries.tsx:129-144 | without a user only the login error is shown; with one, the payment is in progress, the message cleared and the order for the course price sent |
| TestSeries.Page.ClickBuy | src/pages/Testseries.tsx:219-233 | the Buy button, shown only to a logged-in, unenrolled user after loading, does nothing while a payment is in progress (no request, no message change) and otherwise clears the message, sets `paymentLoading` and starts exactly one order; the enrollment state is untouched (see also lines 252, 320-322) |
| TestSeries.Page.OrderAnswered | src/pages/Testseries.tsx:145-179 | the widget opens when `OrderFailure` finds nothing; otherwise its message is shown as an error and the payment ends |
| TestSeries.Page.Dismiss | src/pages/Testseries.tsx:161-165 | closing the widget ends the payment and shows "Payment cancelled" as an error |
| TestSeries.Page.GatewayPaid | src/pages/Testseries.tsx:157-193 | the gateway's three fields, the user's id and course 8 go out in one verification request |
| TestSeries.Page.VerifyAnswered | src/pages/Testseries.tsx:194-215 | success enrolls the user, shows the success message and loads the tests of a present user; failure shows `VerifyFailure`; the payment ends either way |
| Payments.NormalizeOne | src/pages/Payments.tsx:37-40 | a "success" status becomes "completed"; every other row is kept as it is |
| Payments.Normalize | src/pages/Payments.tsx:37-40 | the rename maps row by row, keeps the length and leaves no "success" status |
| Payments.NormalizeIdempotent | src/pages/Payments.tsx:37-40 | renaming twice is renaming once |
| Payments.SumConcat | src/pages/Payments.tsx:64-67 | the amount sum of two lists joined is the sum of their sums |
| Payments.TotalRevenue | src/pages/Payments.tsx:64-67 | the total of no payments is 0 |
| Payments.PendingAmount | src/pages/Payments.tsx:70-72 | with no pending payment the pending amount is 0 |
| Payments.ZeroWhenNonePending | src/pages/Payments.tsx:70-72 | with no pending payment, no row is kept by the pending filter |
| Payments.TotalSplits | src/pages/Payments.tsx:64-72 | the total is the pending amount plus the amounts of the other rows |
| Payments.PendingWithinTotal | src/pages/Payments.tsx:64-72 | with no negative amount, the pending amount lies between 0 and the total |
| Payments.NonNegativeSum | src/pages/Payments.tsx:64-67 | amounts that are not negative sum to a figure that is not negative |
| Payments.NormalizeKeepsTotal | src/pages/Payments.tsx:37-67 | the rename does not change the total |
| Payments.NormalizeKeepsPending | src/pages/Payments.tsx:37-72 | the rename keeps exactly the same pending rows |
| Payments.NormalizeKeepsFigures | src/pages/Payments.tsx:37-72 | both figures are those of the rows before the rename |
| Payments.Filtered | src/pages/Payments.tsx:53-59 | the search keeps, in order, exactly the rows whose student or course contains the query ignoring case; an empty query keeps all; each matching row is kept as many times as it occurs, and no other row is kept |
| Payments.EmptyQueryKeepsAll | src/pages/Payments.tsx:53-59 | an empty query keeps every row |
| Payments.StatsOf | src/pages/Payments.tsx:74-85 | the cards show the total of every amount and the number of all rows |
| Payments.Load | src/pages/Payments.tsx:27-50 | loading ends; the rows are the renamed `data.data` exactly when the response was ok with a truthy `success` and a list; otherwise "Failed to load payments" and no rows |
| Payments.LoadedHasNoSuccess | src/pages/Payments.tsx:36-42 | a loaded page shows no "success" status |
| Users.Filtered | src/pages/Users.tsx:43-49 | the search keeps, in order, exactly the students whose name or email contains the query ignoring case; each matching row is kept as many times as it occurs, and no other row is kept |
| Users.EmptyQueryShowsAll | src/pages/Users.tsx:43-49 | an empty query shows every student |
| Users.CountsOf | src/pages/Users.tsx:52-53 | total and active are both the number of loaded students, and the footer never shows more than that, all of them for an empty query (see also line 135) |
| Users.Load | src/pages/Users.tsx:32-40 | loading always ends; the list is replaced by `data.data` only on a truthy `success` |
| TestsAdmin.SaveEndpoint | src/pages/Tests.tsx:116 | an edit with a non-zero id saves to "update_test.php", anything else to "add_test.php" |
| TestsAdmin.SaveEntries | src/pages/Tests.tsx:107-114 | the body holds the name, the URL and the course id in that order, followed by the id only when editing |
| TestsAdmin.UpdateIffId | src/pages/Tests.tsx:107-116 | the update endpoint is used exactly when the body carries an id |
| TestsAdmin.Filtered | src/pages/Tests.tsx:189-192 | the search keeps, in order, exactly the tests whose name, or course name when there is one, contains the query ignoring case; each matching row is kept as many times as it occurs, and no other row is kept |
| TestsAdmin.NoCourseNameMatchesName | src/pages/Tests.tsx:189-192 | a test without a course name is found by its own name only |
| TestsAdmin.Page.constructor | src/pages/Tests.tsx:17-31 | the page starts loading its first list and its courses, with no tests, no courses, no error, an empty search, the form hidden and nothing submitting (see also lines 72-75) |
| TestsAdmin.Page.ResetForm | src/pages/Tests.tsx:84-92 | the form is emptied, nothing is edited and the form is hidden; nothing else changes |
| TestsAdmin.Page.ToggleForm | src/pages/Tests.tsx:198-206 | Cancel resets the form; Add Test shows it with its contents kept |
| TestsAdmin.Page.ChangeFields | src/pages/Tests.tsx:78-81 | the inputs replace the form's fields and nothing else |
| TestsAdmin.Page.Edit | src/pages/Tests.tsx:144-153 | the row's name, URL and course id as text go into the form, the row's id is edited and the form is shown |
| TestsAdmin.Page.Submit | src/pages/Tests.tsx:95-120 | an incomplete form only raises the fill-in alert; a complete one clears the error, starts submitting and posts `SaveEntries` to `SaveEndpoint` once |
| TestsAdmin.Page.StartLoad | src/pages/Tests.tsx:34-41 | loading starts, the error is cleared and one list request goes out |
| TestsAdmin.Page.SaveAnswered | src/pages/Tests.tsx:122-140 | a successful save alerts "updated" or "added" according to the edit the save was for, resets the form and starts the reload it awaits, still submitting; a failed one shows its error, keeps the form and ends submitting |
| TestsAdmin.Page.LoadAnswered | src/pages/Tests.tsx:43-59 | loading ends; a successful answer replaces the tests, a failed one keeps them and shows its error; a save awaiting this reload stops submitting, and nothing else does (see also lines 133-139) |
| TestsAdmin.Page.CoursesAnswered | src/pages/Tests.tsx:63-75 | the course choices become the `data` of a successful answer; a failed one keeps them and shows no error; nothing else changes |
| TestsAdmin.Page.Delete | src/pages/Tests.tsx:156-168 | nothing happens unless confirmed; otherwise the id alone is posted to "delete_test.php" |
| TestsAdmin.Page.DeleteAnswered | src/pages/Tests.tsx:170-185 | a successful delete alerts and reloads; a failed one shows its error |
| TestsAdmin.Page.SetSearch | src/pages/Tests.tsx:315 | the search box sets the query and nothing else |
| TestsAdmin.Page.DismissError | src/pages/Tests.tsx:224 | the close button clears the error and nothing else |
| TestsAdmin.Page.Showing | src/pages/Tests.tsx:400 | the footer never shows more tests than are loaded |
| TestsAdmin.EditAndSave | src/pages/Tests.tsx:95-120 | editing a row and saving it unchanged posts an update of that row with its own fields and its id last (see also lines 144-153) |
| ExamAdmin.SaveCall | src/pages/Exam.tsx:97-108 | an edit with a non-zero id calls `updateExam`, anything else `addExam`; the body names an id exactly when editing, carries every exam field, and carries an image exactly when a file was chosen |
| ExamAdmin.SaveNames | src/lib/api.ts:84-122 | a save body lists its leading entries, then the four exam fields in order, then the image when there is one |
| ExamAdmin.ErrorText | src/pages/Exam.tsx:40 | the error's own message when it has one, otherwise the fallback, so a shown error is never empty (see also lines 114, 146) |
| ExamAdmin.Filtered | src/pages/Exam.tsx:151-154 | the search keeps, in order, exactly the exams whose name, or subject when there is one, contains the query ignoring case; each matching row is kept as many times as it occurs, and no other row is kept |
| ExamAdmin.Page.constructor | src/pages/Exam.tsx:13-49 | the page starts its first load with no exams, no error, an empty search and the form hidden |
| ExamAdmin.Page.ResetForm | src/pages/Exam.tsx:71-82 | fields, file, preview and the edited id are cleared and the form is hidden; nothing else changes |
| ExamAdmin.Page.ToggleForm | src/pages/Exam.tsx:163 | Cancel resets the form: empty fields, no file, no preview, no edited id, hidden; Add Exam shows it with its contents kept; nothing else changes |
| ExamAdmin.Page.ChangeFields | src/pages/Exam.tsx:52-57 | the inputs replace the text fields and nothing else |
| ExamAdmin.Page.ChooseFile | src/pages/Exam.tsx:60-68 | a picked file becomes the image to upload; nothing else changes at once |
| ExamAdmin.Page.Edit | src/pages/Exam.tsx:121-133 | the row goes into the form with a missing subject or duration as empty text, any chosen file is dropped, a non-empty stored image becomes the preview, and the row's id is edited |
| ExamAdmin.Page.Submit | src/pages/Exam.tsx:85-106 | without a name or a price only the alert is raised; otherwise the error is cleared, submitting starts and exactly one `SaveCall` is made |
| ExamAdmin.Page.StartLoad | src/pages/Exam.tsx:33-37 | loading starts, the error is cleared and one list call is made |
| ExamAdmin.Page.SaveAnswered | src/pages/Exam.tsx:102-117 | a successful save alerts "updated" or "added" according to the edit the save was for, resets the form and starts the reload it awaits, still submitting; a failed one shows its error or "Failed to save exam", keeps the form and ends submitting |
| ExamAdmin.Page.LoadAnswered | src/pages/Exam.tsx:37-44 | loading ends; a successful answer replaces the exams, a failed one keeps them and shows its error or "Failed to load exams"; a save awaiting this reload stops submitting, and nothing else does (see also lines 110-116) |
| ExamAdmin.Page.Delete | src/pages/Exam.tsx:136-141 | nothing happens unless confirmed; otherwise the error is cleared and one delete call with the id is made |
| ExamAdmin.Page.DeleteAnswered | src/pages/Exam.tsx:141-147 | a successful delete alerts and reloads; a failed one shows its error or "Failed to delete exam" |
| ExamAdmin.Page.SetSearch | src/pages/Exam.tsx:304 | the search box sets the query and nothing else |
| ExamAdmin.Page.DismissError | src/pages/Exam.tsx:176 | the close button clears the error and nothing else |
| ExamAdmin.Page.Showing | src/pages/Exam.tsx:380 | the footer never shows more exams than are loaded |
| ExamAdmin.EditAndSave | src/pages/Exam.tsx:97-133 | editing a row and saving it without picking a file makes one update call that uploads no image |
| SubcategoryAdmin.AcceptedList | src/pages/Subcategory.tsx:55-91 | a list is accepted exactly when the body is an object with a truthy `success` and an array `data`, or is itself an array; the rows are that array |
| SubcategoryAdmin.LoadedCategories | src/pages/Subcategory.tsx:42-66 | the categories are the accepted list, and empty on a failure or any other body |
| SubcategoryAdmin.StrField | src/pages/Subcategory.tsx:228-229 | a string field is read as it is; a missing or non-string field reads as empty |
| SubcategoryAdmin.Filtered | src/pages/Subcategory.tsx:227-232 | the search keeps, in order, exactly the rows whose name or category name contains the term ignoring case; an empty term keeps all; each matching row is kept as many times as it occurs, and no other row is kept |
| SubcategoryAdmin.EmptyTermKeepsAll | src/pages/Subcategory.tsx:227-232 | an empty term keeps every row |
| SubcategoryAdmin.WithoutId | src/pages/Subcategory.tsx:219 | a delete keeps, in order, exactly the rows whose id is not the deleted one |
| SubcategoryAdmin.WithoutIdRemovesExactly | src/pages/Subcategory.tsx:219 | the kept rows and the rows carrying the id together are the list, counted with multiplicity |
| SubcategoryAdmin.WithoutAbsentId | src/pages/Subcategory.tsx:219 | deleting an id no row carries changes nothing |
| SubcategoryAdmin.SaveEntries | src/pages/Subcategory.tsx:139-143 | the body starts with the category id and the name, then the image when one is chosen, then the id last when editing |
| SubcategoryAdmin.SavePost | src/pages/Subcategory.tsx:139-153 | the update action is used exactly when editing, and then the body names the id; the body names an image exactly when a file is chosen |
| SubcategoryAdmin.SaveNames | src/pages/Subcategory.tsx:139-143 | the body names the id exactly when editing and the image exactly when a file is chosen |
| SubcategoryAdmin.Page.constructor | src/pages/Subcategory.tsx:25-39 | the page starts both loads with no rows, no error, an empty search and the form hidden (see also lines 100-103) |
| SubcategoryAdmin.Page.CategoriesAnswered | src/pages/Subcategory.tsx:42-66 | the categories become `LoadedCategories` of the answer; nothing else changes |
| SubcategoryAdmin.Page.StartLoad | src/pages/Subcategory.tsx:69-74 | loading starts, the error is cleared and one list request goes out |
| SubcategoryAdmin.Page.LoadAnswered | src/pages/Subcategory.tsx:75-97 | loading ends; an accepted list replaces the rows; any other body shows its message or "Failed to load subcategories"; a failure shows "Server error (API not JSON)"; a save awaiting this reload stops submitting, and nothing else does (see also lines 170-176) |
| SubcategoryAdmin.Page.ResetForm | src/pages/Subcategory.tsx:106-114 | fields, file, preview and the edited id are cleared and the form is hidden; nothing else changes |
| SubcategoryAdmin.Page.ToggleForm | src/pages/Subcategory.tsx:242 | Cancel resets the form: empty fields, no file, no preview, no edited id, hidden; Add SubCategory shows it with its contents kept; nothing else changes |
| SubcategoryAdmin.Page.ChangeFields | src/pages/Subcategory.tsx:265-281 | the select and the name input replace the fields and nothing else |
| SubcategoryAdmin.Page.HandleFile | src/pages/Subcategory.tsx:116-126 | the chosen file, or none, is kept and previewed through its object URL, or the preview is cleared |
| SubcategoryAdmin.Page.Edit | src/pages/Subcategory.tsx:181-189 | the row's category id as text and name go into the form, a truthy stored image becomes the preview, the row's id is edited, and a chosen file is kept |
| SubcategoryAdmin.Page.Submit | src/pages/Subcategory.tsx:129-153 | without a category or a name only the alert is raised; otherwise submitting starts and exactly one `SavePost` goes out |
| SubcategoryAdmin.Page.SaveAnswered | src/pages/Subcategory.tsx:155-177 | success resets the form and starts the reload it awaits, still submitting; a body without a truthy `success` alerts its message or "Save failed" and keeps the form; a failure alerts "Save failed (API error)"; on those two paths submitting ends |
| SubcategoryAdmin.Page.Delete | src/pages/Subcategory.tsx:192-223 | nothing happens unless confirmed; a row whose id is null or missing throws in `id.toString()`, so the catch alerts "Delete failed (API error)" and nothing is posted; any other id is posted alone with the delete action |
| SubcategoryAdmin.Page.DeleteAnswered | src/pages/Subcategory.tsx:204-223 | success drops exactly the rows with that id; otherwise the rows are kept and the alert gives the message, "Delete failed", or "Delete failed (API error)" |
| SubcategoryAdmin.Page.SetSearch | src/pages/Subcategory.tsx:331 | the search box sets the term and nothing else |
| SubcategoryAdmin.Page.Shown | src/pages/Subcategory.tsx:227-232 | the grid never shows more rows than are loaded, and all of them for an empty term |
| SubcategoryAdmin.EditKeepsChosenFile | src/pages/Subcategory.tsx:116-126 | choosing a file, then editing a row and saving, posts one update that uploads the file (see also lines 139-153, 181-189) |

## Left out

- Rendering: JSX, styling, modals, iframes, routing, `window.scrollTo` and redirects are not modelled.
- I/O as inputs:
  - `fetch`, `res.text()`/`res.json()`, `JSON.parse`, `localStorage`, `console` and `window.confirm` are inputs to the functions or events fed to the methods.
  - A failed request and an unparsable body are one `Broken`/`Failure` case where the page treats them alike.
  - `JSON.stringify` of a stored user is a parameter.
- The Razorpay widget is not modelled. Its `open`, `handler` and `ondismiss` are events; whether `window.Razorpay` is loaded is a boolean.
- Timers: `setTimeout` callbacks are pending entries that an event runs. Their delays (1000 and 1500 ms) are not modelled.
- Concurrency: async interleaving and the `AbortController` of the exam details page are not modelled.
  - Each request is answered by its own event, in any order the caller chooses.
  - A page that was unmounted, or a slug that changed while a request was in flight, is not modelled.
- Numbers are integers. A decimal price, `avgScore` and any fractional amount are not modelled.
  - `Number(s)` of a decimal string is not a number in the model.
  - `Intl.NumberFormat` and `toLocaleDateString` are not modelled.
- PaidCourses.OrderAmount: `parseFloat(course.price)` keeps only the integer part of a decimal price, because amounts are integers here.
- CourseDetails.OrderAmount: `Number(price) * 100` is exact only for integer prices, for the same reason.
- Text.ParseNumber: only optional sign, decimal digits and surrounding white space are read. JavaScript's `Number` also accepts `0x`/`0b`/`0o` prefixes, exponents and "Infinity"; those strings read as not a number here.
  - Json.ToNumber uses it, and so CoursesBySub.RouteId, ExamDetails.SafeId and CourseDetails.OrderAmount inherit the gap.
- EmailLogin.Popup.TypeMobile: the input's `maxLength={10}` is enforced by the browser and is not modelled, so a typed mobile number is not bounded to 10 digits.
- TestsAdmin.Page.LoadAnswered, ExamAdmin.Page.LoadAnswered, SubcategoryAdmin.Page.LoadAnswered: a save's awaited reload is tracked by one flag. If another list load (a delete's reload) is in flight at the same time, the first list answer to arrive ends `submitting`, whichever request it answers.
- Dates: the "new this month" count of the students page depends on the clock and is not modelled.
- Text: case mapping (`toLowerCase`, `toUpperCase`) and `\w`/`\D` classes are ASCII only. Unicode case folding is not modelled.
- Navigation.Hash: the loop's floating-point arithmetic is exact only below 2^53. HashExact bounds the hash only for names shorter than 2^21 characters. A character above U+FFFF counts as one code here, where JavaScript counts two UTF-16 units.
- Typed list rows: the loaded lists are a parameter `rows` holding the typed reading of `data.data || []`.
  - This applies to TestsAdmin.Page.LoadAnswered, ExamAdmin.Page.LoadAnswered, Users.Load and Payments.Load.
  - A row with a missing or non-string `name`, `email`, `student` or `course` is not modelled, nor a `null` row; on such rows `toLowerCase` would throw.
- SubcategoryAdmin.StrField: a `name` or `category_name` that is a number or an object is read as "", where `toLowerCase` on it would throw.
- ExamAdmin.Page.ChooseFile: the preview that `FileReader` delivers later is not modelled.
- SubcategoryAdmin.Page.HandleFile: the object URL is a parameter. `URL.revokeObjectURL` is not modelled in HandleFile, ResetForm or Edit.
- Courses.tsx is not part of this model: it calls an undefined `handleCategoryChange` and uses hard-coded options.
- Thin or presentational files are not part of this model:
  - Category.tsx, Dashboard.tsx, TestseriesGird.tsx, Login.tsx, Sidebar.tsx and AuthGuard.tsx.
  - CourseCard.tsx, CourseGrid.tsx, Hero.tsx, Footer.tsx, Home.tsx, App.tsx and the ui components.

## Findings

| source | as written | input that shows it | evidently intended | confidence | as-written member | corrected member |
|---|---|---|---|---|---|---|
| src/pages/CourseDetails.tsx:91-118 | the widget options have no `modal.ondismiss`, so closing the widget leaves `paymentLock` and `loadingPay` set | click "Buy Now" with a user and a course, get an order, then close the widget: every later click returns at the lock | closing the widget releases the lock, as the test-series and paid-courses pages do | not executed | CourseDetails.StuckAfterDismiss | CourseDetails.BuyAfterDismissReleasing |
