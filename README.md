# Lesson platform front end: URLs, catalogue, lesson viewer, lesson authoring

A Dafny model of the decision logic in four parts of the learning platform's
web client:

- **the URL registry** (`client/config/urls.ts`), modelled as pure functions.
  `buildUrl` puts the backend origin in front of an endpoint path.
  `buildFileUrl` turns a stored file path into `""`, the path itself, an S3
  virtual-hosted URL or a backend URL. Every `URLS.API` entry is one
  constructor of `Urls.Endpoint`. The build environment and the backend
  origin are a parameter record, `Urls.Env`.
- **the course catalogue** (`client/pages/Courses.tsx`).
  - Category labels are turned into slugs.
  - Three filters apply: search, category and level.
  - Five comparators sort a *copy* of the filtered list. The copy is
    modelled as a fresh array, sorted in place by a stable insertion sort.
  - The set of enrolled course ids is the field of a `Catalogue` class.
- **the lesson viewer** (`client/pages/LessonViewer.tsx`).
  - Deciding which quiz a lesson has.
  - The disabled rules of "Mark as Done" and "Next Lesson", and the guard in
    the next-lesson handler.
  - Classifying attachments and formatting the duration.
  - A `ViewerState` class. It holds the quiz, the latest attempt, the
    loading and done flags, and the per-file PDF view-mode and loading maps.
- **lesson authoring** (`client/pages/ManageLessons.tsx`).
  - The suggested order, the quiz check and the attachment payload.
  - The local list updates.
  - A `LessonManager` class. Its handlers take every server reply as an
    input and return the requests they send, in order.

Every server reply is an input value: `Replies.Reply` is `Ok(data)` or
`Failed`. `Failed` is a request that threw, or an answer that makes the
handler throw while it reads it:
- On the catalogue page an answer whose `success` flag is false is also
  `Failed`, because that page reads the flag.
- The viewer and authoring pages never read the flag, so an answer that
  carries its `data` is `Ok` there whatever the flag says.
- On the authoring page an upload answered without `data` is `Failed`, on
  add and on update alike: the handler throws at `uploadedFilesInfo.length`
  (`ManageLessons.tsx:201`, `:211`, `:312`, `:324`) before the create or
  the update is sent.
- A create answered without `data` is `Failed` when the quiz is switched on.
  The handler throws at `createdLesson._id` (`ManageLessons.tsx:227`,
  `:233`), so no quiz request, reset or refetch follows. With the quiz off
  the created id is never read, so such an answer is `Ok` with any id.
- A lesson list answered without `data` is `Ok([])`, because the fetch
  falls back to an empty list (`ManageLessons.tsx:132`).

A missing value is `Replies.Option`. Strings are ASCII:
- `Text.IsSpace` is the ASCII part of JavaScript's `\s`;
- `Text.Lower` is `toLowerCase` on ASCII letters.

Prices, ratings, counters and timestamps are integers.

The category filter compares the course's stored category, unchanged,
with the slug of the selected label (`Courses.tsx:133`); it does not
slugify the stored category. See `Courses.MatchesCategory` and
`Courses.CategoryFilterKeepsSlugOnly`.

Duration is shown in two ways, each modelled as written:
- the authoring form treats it as minutes;
- the viewer prints it as `m`/`s` of a number of seconds.

## Model

| member | source | states |
|---|---|---|
| Text.LowerChar | client/pages/Courses.tsx:41 | an upper-case letter becomes its own lower-case letter (32 code points on); every other character is left alone |
| Text.Lower | client/pages/Courses.tsx:41 | `toLowerCase` keeps the length and maps each character on its own |
| Text.Contains | client/pages/Courses.tsx:128-129 | `includes` is true exactly when the query occurs at some index of the text |
| Text.TrimStart | client/pages/ManageLessons.tsx:177 | the result is a suffix, starts with a non-space, and everything dropped is whitespace |
| Text.TrimEnd | client/pages/ManageLessons.tsx:177 | the result is a prefix, ends with a non-space, and everything dropped is whitespace |
| Text.BlankIffAllSpace | client/pages/ManageLessons.tsx:177 | `!s.trim()` holds exactly when every character is whitespace |
| Urls.Region | client/config/urls.ts:22 | the region is never empty; a configured region is used as given, otherwise `ap-south-1` |
| Urls.UsesS3 | client/config/urls.ts:24 | the S3 branch is taken in production with a non-empty bucket name |
| Urls.S3Url | client/config/urls.ts:26 | `https://`, the bucket, `.s3.`, the region, `.amazonaws.com`, then the path |
| Urls.BuildUrl | client/config/urls.ts:10-12 | the URL starts with the backend origin and what follows it is exactly the endpoint |
| Urls.BuildFileUrl | client/config/urls.ts:15-31 | empty in, empty out (and only then); the path always ends the URL; an `http...` path is returned unchanged in every environment; otherwise the S3 URL in production with a bucket, the backend URL in every other case |
| Urls.S3UrlIsAbsolute | client/config/urls.ts:26 | an S3 URL starts with `http` |
| Urls.BuildFileUrlIdempotent | client/config/urls.ts:15-31 | rewriting a rewritten path changes nothing, with S3 or with an absolute backend origin |
| Urls.RelativePathIsExtended | client/config/urls.ts:24-30 | a relative path is strictly lengthened when S3 is used or the origin is non-empty |
| Urls.EndpointPath | client/config/urls.ts:36-132 | every `URLS.API` path starts with `/api/` |
| Urls.ApiUrl | client/config/urls.ts:36-132 | every API URL is the backend origin followed by an `/api/` path |
| Urls.NeighbourUrls | client/config/urls.ts:93-94 | the next and previous lesson URLs are origin, `/api/lessons/`, the id, then `/next` or `/prev` |
| Urls.NextPrevInjective | client/config/urls.ts:93-94 | `LESSONS.NEXT` and `LESSONS.PREV` give different URLs to different ids |
| Urls.NextNeverPrev | client/config/urls.ts:93-94 | no next-lesson URL equals any previous-lesson URL |
| Urls.SharedLessonUrls | client/config/urls.ts:90-92 | a lesson's update, delete and detail entries build one and the same URL |
| Urls.SharedEnrollUrls | client/config/urls.ts:57-63 | `COURSES.ENROLL` and `ENROLLMENTS.ENROLL` build one and the same URL |
| Urls.FileUrl | client/config/urls.ts:135-139 | a logo URL is non-empty and ends in `/logo/<name>`; thumbnails and uploads go through `buildFileUrl` unchanged |
| Urls.LogoIsRewritten | client/config/urls.ts:136 | a logo path is never passed through: it always gets the S3 or backend origin |
| Courses.Hyphenate | client/pages/Courses.tsx:41 | the `\s+` to `-` replacement leaves no whitespace |
| Courses.HyphenateKeepsNoUpper | client/pages/Courses.tsx:41 | the replacement adds no upper-case letter |
| Courses.ToSlug | client/pages/Courses.tsx:41 | a slug has no upper-case letter and no whitespace |
| Courses.HyphenateSpaceFree | client/pages/Courses.tsx:41 | a string without whitespace is left unchanged by the replacement |
| Courses.SlugIdempotent | client/pages/Courses.tsx:41 | `toSlug(toSlug(s)) == toSlug(s)` |
| Courses.HyphenateLeadingRun | client/pages/Courses.tsx:41 | a leading whitespace run becomes one `-` |
| Courses.HyphenateRun | client/pages/Courses.tsx:41 | a maximal whitespace run anywhere becomes exactly one `-`, and the text on both sides is hyphenated on its own |
| Courses.HyphenateRunAfterSpace | client/pages/Courses.tsx:41 | the same when the text before the run itself starts with whitespace |
| Courses.MatchesSearch | client/pages/Courses.tsx:127-129 | the lower-cased query occurs in the lower-cased title or the lower-cased description |
| Courses.MatchesCategory | client/pages/Courses.tsx:131-133 | "All Categories", or the stored category equals the slug of the label |
| Courses.MatchesLevel | client/pages/Courses.tsx:135-137 | "All Levels", or the difficulty and the level agree once lower-cased |
| Courses.FilterCourses | client/pages/Courses.tsx:126-140 | the result is an order-preserving subsequence; every kept course passes the search, category and level tests; every copy of a passing course is kept and every failing course is dropped, counted by multiset |
| Courses.EmptyQueryMatches | client/pages/Courses.tsx:127-129 | the empty query matches every course |
| Courses.NoFiltersKeepAll | client/pages/Courses.tsx:126-140 | with an empty query, "All Categories" and "All Levels" every course is kept, in order |
| Courses.CategoryFilterKeepsSlugOnly | client/pages/Courses.tsx:131-133 | under a specific category, every kept course stores exactly the slug of that label |
| Courses.SortKey | client/pages/Courses.tsx:143-158 | the ascending key of each mode: `-createdAt`, `-(enrollments or 0)`, `-(rating or 0)`, `price`, `-price`; 0 for any other mode |
| Courses.Compare | client/pages/Courses.tsx:142-159 | each comparator is the difference of one sort key: `-createdAt`, `-(enrollments or 0)`, `-(rating or 0)`, `price`, `-price`, or 0 for an unknown mode |
| Courses.SwapKeepsTies | client/pages/Courses.tsx:142 | swapping neighbours with different keys keeps every group of tied courses in its order |
| Courses.SameTiesPermutation | client/pages/Courses.tsx:142 | keeping every group of ties makes the result a permutation |
| Courses.UnknownModeAllTied | client/pages/Courses.tsx:156-157 | under an unknown mode all courses are tied |
| Courses.UnknownModeKeepsOrder | client/pages/Courses.tsx:156-157 | a stable sort under an unknown mode returns the input order |
| Courses.SortedMeaning | client/pages/Courses.tsx:143-158 | sorted means: price non-decreasing (`price-low`); price non-increasing (`price-high`); createdAt non-increasing (`newest`); enrollments or rating non-increasing, missing counted as 0 (`popular`, `rating`) |
| Courses.PriceLowUnique | client/pages/Courses.tsx:152-153 | when different courses have different prices, two ascending-price orderings of the same courses are equal |
| Courses.PriceHighIsReversedPriceLow | client/pages/Courses.tsx:152-155 | when different courses have different prices, the `price-high` order is exactly the `price-low` order reversed |
| Courses.SiftDown | client/pages/Courses.tsx:142 | one insertion pass extends the sorted prefix by one element and keeps every group of ties |
| Courses.SortCourses | client/pages/Courses.tsx:142-159 | the copy is sorted, is a permutation of the filtered list, and keeps tied courses in their input order, as JavaScript's stable `sort` does |
| Courses.Catalogue.constructor | client/pages/Courses.tsx:45-52 | the page starts with no courses, no enrolled ids, no filters and sort `popular` |
| Courses.Catalogue.LoadCourses | client/pages/Courses.tsx:56-73 | the list is replaced on success and kept on failure |
| Courses.Catalogue.LoadEnrolled | client/pages/Courses.tsx:75-93 | on success the enrolled set is exactly the ids of the returned courses; on failure it is kept |
| Courses.Catalogue.HandleEnroll | client/pages/Courses.tsx:99-124 | only a successful enrolment adds the id (and nothing else) and navigates to `/course/<id>`; enrolling an id already present changes nothing; a failure or rejection keeps the set |
| Courses.Catalogue.SetFilters | client/pages/Courses.tsx:180-220 | the search box and selects replace the filters and nothing else |
| Courses.Catalogue.SetSort | client/pages/Courses.tsx:233 | the sort select replaces the mode and nothing else |
| Courses.Catalogue.ShowsEnrolled | client/pages/Courses.tsx:280 | a card shows the enrolled button exactly when its id is in the enrolled set |
| Courses.Catalogue.Cards | client/pages/Courses.tsx:126-159 | the cards are the filtered courses, sorted, as a permutation that keeps ties in order; the course list itself is not reordered |
| LessonViewer.QuizFetchId | client/pages/LessonViewer.tsx:54-56 | a quiz is fetched exactly when `lesson.quiz` is a non-empty string, and by that id |
| LessonViewer.ResolveQuiz | client/pages/LessonViewer.tsx:53-67 | a kept quiz always has questions and is the inline quiz or the fetched one; an inline quiz with questions is kept; a fetched quiz with questions is kept; any other value, a failed fetch or an empty quiz gives none |
| LessonViewer.ResolveWithoutFetch | client/pages/LessonViewer.tsx:54-67 | when no request is made the reply plays no part |
| LessonViewer.Passed | client/pages/LessonViewer.tsx:380 | `attempt?.passed`: an attempt exists and passed |
| LessonViewer.MarkDoneDisabled | client/pages/LessonViewer.tsx:379-381 | never without a quiz; with one, when the attempt did not pass, is still loading, or the lesson is done |
| LessonViewer.NextDisabled | client/pages/LessonViewer.tsx:393 | a quiz exists and the attempt did not pass or is still loading |
| LessonViewer.ShowsPassWarning | client/pages/LessonViewer.tsx:397 | a quiz exists, the attempt has loaded, and it is missing or not passed |
| LessonViewer.NextRefused | client/pages/LessonViewer.tsx:133 | a quiz exists and the attempt is missing or not passed |
| LessonViewer.NoQuizNothingDisabled | client/pages/LessonViewer.tsx:379-393 | without a quiz both buttons are enabled, the handler does not refuse and no warning shows, whatever the attempt, loading and done flags |
| LessonViewer.QuizGating | client/pages/LessonViewer.tsx:379-393 | with a quiz, Next is enabled iff a loaded attempt passed; Mark as Done iff, in addition, the lesson is not done |
| LessonViewer.MarkDoneEnabledImpliesNextEnabled | client/pages/LessonViewer.tsx:379-393 | whenever Mark as Done is enabled, so is Next |
| LessonViewer.RefusalMatchesButton | client/pages/LessonViewer.tsx:133-136 | the handler refuses only when Next is disabled, and a disabled Next with a loaded attempt means the handler refuses |
| LessonViewer.WarningMatchesRefusal | client/pages/LessonViewer.tsx:397 | the warning shows iff a quiz exists, the attempt has loaded, and it is missing or not passed |
| LessonViewer.Classify | client/pages/LessonViewer.tsx:194-195 | video iff the type starts with `video/`, PDF iff it is `application/pdf`; never both |
| LessonViewer.AttachmentPanel | client/pages/LessonViewer.tsx:192-264 | the file URL goes through `URLS.FILES.UPLOAD`; the Download link next to the name exists iff the file is downloadable; the "Open in New Tab" link exists iff the file is a PDF; both point at the file URL |
| LessonViewer.JsRem | client/pages/LessonViewer.tsx:365 | JavaScript's `%`: `a` is `b` times the quotient rounded toward zero plus the result, which lies in `[0, b)` for a non-negative dividend and in `(-b, 0]` for a negative one |
| LessonViewer.FormatDuration | client/pages/LessonViewer.tsx:364-366 | "N/A" iff the duration is missing or 0; for a positive duration, `60*m + s == d` and `0 <= s < 60` |
| LessonViewer.NegativeDurationText | client/pages/LessonViewer.tsx:365 | a negative duration that is not whole minutes shows one minute less than it is |
| LessonViewer.ViewerState.constructor | client/pages/LessonViewer.tsx:23-30 | no quiz, no attempt, attempt loading, not done, empty PDF maps |
| LessonViewer.ViewerState.LoadQuiz | client/pages/LessonViewer.tsx:52-70 | `QUIZZES.DETAIL` is requested exactly for a non-empty quiz id; the quiz becomes the resolved quiz; nothing else changes |
| LessonViewer.ViewerState.LoadAttempt | client/pages/LessonViewer.tsx:73-93 | the attempt is requested iff there is a quiz and a lesson id; then loading ends and the attempt is the reply's, or none on failure |
| LessonViewer.ViewerState.LoadProgress | client/pages/LessonViewer.tsx:96-112 | `PROGRESS.LESSON` is requested exactly with a token and a lesson id; then done is the reply's `completed` (false on failure); otherwise unchanged |
| LessonViewer.ViewerState.MarkAsDone | client/pages/LessonViewer.tsx:114-130 | posts the lesson's id to `PROGRESS.MARK_DONE`; done becomes true exactly when the request succeeds, and is kept otherwise |
| LessonViewer.ViewerState.PdfDownloadLink | client/pages/LessonViewer.tsx:291-301 | the "Download PDF" link exists iff the file is a PDF in download mode, and it points at the file URL |
| LessonViewer.ViewerState.PdfLinksIgnoreFlag | client/pages/LessonViewer.tsx:213-222 | a PDF that is not downloadable has no Download link by its name, yet still has "Open in New Tab", and in download mode "Download PDF", at the file URL |
| LessonViewer.ViewerState.HandleNextLesson | client/pages/LessonViewer.tsx:132-148 | no request exactly when a quiz exists and the attempt is missing or not passed; navigation needs a pass (or no quiz) and a next lesson with an id |
| LessonViewer.ViewerState.HandlePreviousLesson | client/pages/LessonViewer.tsx:150-162 | always requests `LESSONS.PREV`, and navigates iff the reply names a lesson |
| LessonViewer.ViewerState.ShowsPreview | client/pages/LessonViewer.tsx:267 | the embedded viewer shows unless the file's mode is `download` (a file with no mode yet previews) |
| LessonViewer.ViewerState.ShowsFallback | client/pages/LessonViewer.tsx:291 | the fallback shows exactly when the file's mode is `download` |
| LessonViewer.ViewerState.ShowsSpinner | client/pages/LessonViewer.tsx:269 | the spinner shows inside the viewer while the file's loading flag is true |
| LessonViewer.ViewerState.OnePanel | client/pages/LessonViewer.tsx:267-291 | for every file exactly one of the embedded viewer and the download fallback shows; the spinner only over the viewer |
| LessonViewer.ViewerState.ChoosePreview | client/pages/LessonViewer.tsx:233-236 | mode preview and loading true for that file only; the viewer and spinner show |
| LessonViewer.ViewerState.ChooseDownload | client/pages/LessonViewer.tsx:246 | mode download for that file only; the fallback shows |
| LessonViewer.ViewerState.PdfLoaded | client/pages/LessonViewer.tsx:282 | loading false for that file only; the spinner goes |
| LessonViewer.ViewerState.PdfFailed | client/pages/LessonViewer.tsx:283-286 | loading false and mode download for that file only; every other file's panel is unchanged |
| ManageLessons.ResetForm | client/pages/ManageLessons.tsx:256-261 | a reset clears title and content, sets duration 10 and order to the previous order plus one |
| ManageLessons.EditForm | client/pages/ManageLessons.tsx:385-395 | edit mode copies title, content, order and duration from the lesson |
| ManageLessons.MaxOrder | client/pages/ManageLessons.tsx:146 | `Math.max` of the orders bounds every order and is one of them |
| ManageLessons.NextOrder | client/pages/ManageLessons.tsx:145-147 | 1 for no lessons; otherwise strictly above every order and one more than some order |
| ManageLessons.NextOrderSameOrders | client/pages/ManageLessons.tsx:145-147 | two lesson lists with the same set of orders get the same suggestion |
| ManageLessons.NextOrderAppend | client/pages/ManageLessons.tsx:145-147 | listing an existing lesson again at the end leaves the suggestion unchanged |
| ManageLessons.NextOrderPrepend | client/pages/ManageLessons.tsx:145-147 | likewise for an existing lesson listed again at the front |
| ManageLessons.SomeBlank | client/pages/ManageLessons.tsx:238 | the option check is true iff some option is blank once trimmed |
| ManageLessons.Incomplete | client/pages/ManageLessons.tsx:236-238 | a question is incomplete when its text or some option is blank once trimmed |
| ManageLessons.SomeIncomplete | client/pages/ManageLessons.tsx:235-240 | the quiz check fails iff some question has a blank text or a blank option |
| ManageLessons.SampleQuizComplete | client/pages/ManageLessons.tsx:55-73 | the sample quiz the builder starts with passes the check |
| ManageLessons.BlankQuestionBlocks | client/pages/ManageLessons.tsx:598-611 | a quiz with an added blank question fails the check until that question is filled in |
| ManageLessons.ResetQuizBlocked | client/pages/ManageLessons.tsx:264-282 | the quiz builder after a reset fails the check until its question is filled in |
| ManageLessons.AttachmentPayload | client/pages/ManageLessons.tsx:211-219 | same count and order; every file tagged with the checkbox value; name, URL and type unchanged; none uploaded gives the empty list |
| ManageLessons.RetagOverrides | client/pages/ManageLessons.tsx:211-219 | tagging twice is tagging once with the last flag |
| ManageLessons.DetachQuiz | client/pages/ManageLessons.tsx:86-90 | same length and order; the quiz is cleared on the lessons with that id and every other lesson is unchanged |
| ManageLessons.DetachQuizProperties | client/pages/ManageLessons.tsx:86-90 | detaching is idempotent, changes nothing when no lesson has the id, and leaves no quiz on a matching lesson |
| ManageLessons.RemoveAt | client/pages/ManageLessons.tsx:507 | filtering out index `i` drops exactly that element and keeps the rest in order; an index out of range changes nothing |
| ManageLessons.LessonManager.constructor | client/pages/ManageLessons.tsx:43-107 | the initial form (order 1, duration 10), the sample quiz, switches off, nothing selected or being edited |
| ManageLessons.LessonManager.CanAdd | client/pages/ManageLessons.tsx:172-180 | a course is selected and neither title nor content is blank once trimmed |
| ManageLessons.LessonManager.Payload | client/pages/ManageLessons.tsx:204-219 | the lesson body carries the form's four fields, the selected course and the tagged attachments |
| ManageLessons.LessonManager.UploadTrace | client/pages/ManageLessons.tsx:186-202 | an upload is sent iff files were chosen, and it carries them |
| ManageLessons.LessonManager.Uploaded | client/pages/ManageLessons.tsx:185-202 | no files gives none to attach; otherwise the upload's reply, or a stop when it failed |
| ManageLessons.LessonManager.FetchLessons | client/pages/ManageLessons.tsx:126-155 | on success the list is replaced and the form's order becomes the suggested order; on failure nothing changes |
| ManageLessons.LessonManager.SelectCourse | client/pages/ManageLessons.tsx:381-383 | a non-empty course choice requests its lessons and takes them on success; a failed fetch keeps the previous lessons and form; the empty choice sends nothing |
| ManageLessons.LessonManager.SubmitQuiz | client/pages/ManageLessons.tsx:230-253 | no quiz request when the quiz is off or a question is incomplete (the latter stops the handler); otherwise one quiz create for the new lesson |
| ManageLessons.LessonManager.FinishAdd | client/pages/ManageLessons.tsx:229-284 | a refused or failed quiz skips the reset and the refetch; otherwise the form, files and quiz builder are reset and the list refetched |
| ManageLessons.LessonManager.HandleAddLesson | client/pages/ManageLessons.tsx:171-291 | no course, or a blank title or content: no request and no change. A failed upload or create stops there. An incomplete quiz stops after the lesson was created, with no quiz request, no reset and no refetch. Full success sends upload?, create, quiz?, refetch, in that order, and resets the form |
| ManageLessons.LessonManager.HandleUpdateLesson | client/pages/ManageLessons.tsx:293-362 | needs only a lesson being edited (title and content are not checked); sends upload?, update, then a refetch on success; success leaves edit mode, clears the files and resets the form; the quiz builder is untouched |
| ManageLessons.LessonManager.HandleDeleteLesson | client/pages/ManageLessons.tsx:364-375 | nothing without confirmation; a successful delete is followed by a refetch |
| ManageLessons.LessonManager.HandleDeleteQuiz | client/pages/ManageLessons.tsx:75-96 | nothing without confirmation; on success the quiz is detached locally from exactly that lesson; on failure the list is untouched |
| ManageLessons.LessonManager.StartEdit | client/pages/ManageLessons.tsx:385-395 | a newly chosen lesson is loaded into the form and the chosen files are cleared; choosing the lesson already being edited keeps the form and files |
| ManageLessons.LessonManager.CancelEdit | client/pages/ManageLessons.tsx:636-644 | leaves edit mode, clears files and resets the form with order plus one |
| ManageLessons.LessonManager.SetForm | client/pages/ManageLessons.tsx:432-471 | the four inputs replace the form and nothing else |
| ManageLessons.LessonManager.SetDownloadable | client/pages/ManageLessons.tsx:484-487 | the checkbox sets the flag and nothing else |
| ManageLessons.LessonManager.ToggleQuiz | client/pages/ManageLessons.tsx:529-532 | the quiz switch flips; the builder keeps its contents |
| ManageLessons.LessonManager.SetQuizDetails | client/pages/ManageLessons.tsx:540-556 | the quiz title and description change; the questions are kept |
| ManageLessons.LessonManager.ChooseFiles | client/pages/ManageLessons.tsx:476 | the chosen files replace the previous choice |
| ManageLessons.LessonManager.RemoveFile | client/pages/ManageLessons.tsx:507 | drops exactly the file at that index: one fewer, the rest in order |
| ManageLessons.LessonManager.AddQuestion | client/pages/ManageLessons.tsx:598-611 | appends one blank question (empty text, four empty options, answer 0, one point); earlier questions unchanged; the quiz then fails the check |
| ManageLessons.LessonManager.SetQuestionText | client/pages/ManageLessons.tsx:563-567 | only question `i`'s text changes |
| ManageLessons.LessonManager.SetOption | client/pages/ManageLessons.tsx:575-579 | only option `j` of question `i` changes |
| ManageLessons.LessonManager.SetCorrectAnswer | client/pages/ManageLessons.tsx:587-591 | only question `i`'s answer index changes |

## Left out

- HTTP calls, toasts, console output, `window.confirm` and `alert`, navigation and `localStorage` are left out. Replies, the confirmation answer and the presence of a token are inputs. Navigation is a returned path.
- The scheduling of `useEffect` and the fetch chaining in the viewer are left out (`LessonViewer.tsx:35-112`). Each fetch is a method the caller runs. The lesson fetch itself, with its loading and error flags, only drives rendering and is not modelled.
- The `Promise.all` quiz hydration in authoring (`ManageLessons.tsx:133-141`) is left out: lessons arrive with their quiz already resolved.
- The course dropdown of the authoring page is left out: `fetchCourses`, the `loadingCourses` and `loadingLessons` flags, and the selected-course title. It is rendering only.
- `handleEditQuiz` is left out. It is never wired to a button and only sets `window.location`.
- `FormData`, `JSON.stringify` and request headers are left out. Payloads are structured values.
- JSX rendering, the MB size text, `dangerouslySetInnerHTML` and the pdf.js viewer URL are left out.
- The hard-coded CloudFront URLs of the catalogue page (`Courses.tsx:64, 79, 102`) are not modelled. They bypass `URLS`, so the catalogue's handlers return no request.
- `import.meta.env` and `API_BASE_URL` are fields of `Urls.Env`, not constants. The development-only configuration log is left out.
- Floating point, `Date` parsing and `NaN` are left out. Prices, ratings, counters, orders and durations are integers, and `createdAt` is already a timestamp.
- Unicode case mapping and whitespace beyond ASCII are left out.
- The order of comparator calls inside `Array.prototype.sort` is not modelled. An insertion sort stands in for it. Both are stable and use the same comparator, so they yield the same order.
- Aliasing in question edits is not modelled. The page copies only the outer question array and then mutates the shared question objects. The model updates a value instead. The new state is the same; the old state, which is discarded, is not updated in place.
- The two lesson checks in `handleAddLesson` are merged into one. They differ only in the toast they show.
- The `success` flag of an answered request is ignored by the viewer and the authoring page: a `{success: false}` answer with a 2xx status marks the lesson done, detaches the quiz, refetches after a delete and resets the form after an update. The model does the same, since such an answer is `Ok` there as long as it carries its `data`. An upload answer without `data`, or a create answer without `data` while the quiz is on, is `Failed` instead, because the handler throws reading it.
- ManageLessons.LessonManager.StartEdit: the page compares the chosen lesson with the one being edited by object identity. The model compares values, so a refetched copy of the lesson being edited, equal in every field, counts as the same lesson and does not reload the form.
- The submit handlers keep `isSubmitting` true while their requests are in flight. All replies are inputs here, so that interval is never visible, and the model sets only the flag's final value (false).
