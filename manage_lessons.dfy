/** The lesson authoring page: the suggested order of the next lesson, the
    checks before a lesson or quiz is submitted, the attachment payload, the
    local list and form updates, and the handlers that send requests. Every
    server reply is an input; every handler returns the requests it sends,
    in order. */
module ManageLessons {
  import opened Text
  import opened Replies
  import opened Quizzes
  import Urls

  // ---------------------------------------------------------------------
  // Entities

  /** A file returned by the upload endpoint; `isDownloadable` is the
      optional `is_downloadable` flag. */
  datatype UploadedFile = UploadedFile(
    filename: string,
    url: string,
    mimeType: string,
    isDownloadable: Option<bool>)

  /** A file picked in the file input, not uploaded yet. */
  datatype SelectedFile = SelectedFile(name: string, mimeType: string)

  /** A lesson of the selected course, with its quiz already resolved. */
  datatype Lesson = Lesson(
    id: string,
    title: string,
    content: string,
    order: int,
    duration: int,
    attachments: seq<UploadedFile>,
    quiz: Option<Quiz>)

  /** The lesson form (`newLesson`). */
  datatype LessonForm = LessonForm(title: string, content: string, order: int, duration: int)

  /** The quiz builder (`quizData`). */
  datatype QuizForm = QuizForm(
    title: string,
    description: string,
    timeLimit: int,
    passingScore: int,
    maxAttempts: int,
    shuffleQuestions: bool,
    showResults: bool,
    questions: seq<Question>)

  /** What a lesson create or update sends. */
  datatype LessonPayload = LessonPayload(
    title: string,
    content: string,
    order: int,
    duration: int,
    courseId: string,
    attachments: seq<UploadedFile>)

  /** The body of a request. */
  datatype Body =
    | NoBody
    | Files(files: seq<SelectedFile>)
    | LessonBody(lesson: LessonPayload)
    | QuizBody(quiz: QuizForm, lessonId: string)

  /** One request: the endpoint it goes to and what it carries. */
  datatype Request = Request(endpoint: Urls.Endpoint, body: Body)

  // ---------------------------------------------------------------------
  // Initial and reset values

  const InitialForm: LessonForm := LessonForm("", "", 1, 10)

  /** The sample question the quiz builder starts with. */
  const SampleQuestion: Question :=
    Question("Sample question?", "mcq", ["Option 1", "Option 2", "Option 3", "Option 4"], 0, "", 1)

  /** The question "+ Add Question" appends and the reset builder holds. */
  const BlankQuestion: Question := Question("", "mcq", ["", "", "", ""], 0, "", 1)

  const InitialQuizForm: QuizForm := QuizForm("", "", 10, 70, 3, false, true, [SampleQuestion])

  const ResetQuizForm: QuizForm := QuizForm("", "", 10, 70, 3, false, true, [BlankQuestion])

  /** The form after a successful add or update, or on cancel: everything
      cleared, the order one past the one that was in the form. */
  function ResetForm(f: LessonForm): (r: LessonForm)
    ensures r.title == "" && r.content == "" && r.duration == 10
    ensures r.order == f.order + 1
  {
    LessonForm("", "", f.order + 1, 10)
  }

  /** Edit mode copies the four fields of the lesson into the form. */
  function EditForm(l: Lesson): (r: LessonForm)
    ensures r.title == l.title && r.content == l.content
    ensures r.order == l.order && r.duration == l.duration
  {
    LessonForm(l.title, l.content, l.order, l.duration)
  }

  // ---------------------------------------------------------------------
  // Suggested order

  /** `Math.max(...orders)` of a non-empty list. */
  function MaxOrder(lessons: seq<Lesson>): (m: int)
    requires lessons != []
    ensures forall i :: 0 <= i < |lessons| ==> lessons[i].order <= m
    ensures exists i :: 0 <= i < |lessons| && lessons[i].order == m
  {
    if |lessons| == 1 then lessons[0].order
    else
      var rest := MaxOrder(lessons[1..]);
      assert forall i :: 1 <= i < |lessons| ==> lessons[i] == lessons[1..][i - 1];
      if lessons[0].order >= rest then lessons[0].order else rest
  }

  /** The order suggested after a fetch: 1 for no lessons, otherwise one past
      the largest order. */
  function NextOrder(lessons: seq<Lesson>): (n: int)
    ensures lessons == [] ==> n == 1
    ensures forall i :: 0 <= i < |lessons| ==> lessons[i].order < n
    ensures lessons != [] ==> exists i :: 0 <= i < |lessons| && lessons[i].order == n - 1
  {
    if lessons == [] then 1 else MaxOrder(lessons) + 1
  }

  /** Adding an existing lesson again at the end changes nothing. */
  lemma NextOrderAppend(lessons: seq<Lesson>, l: Lesson)
    requires l in lessons
    ensures NextOrder(lessons + [l]) == NextOrder(lessons)
  {
    var longer := lessons + [l];
    var n := NextOrder(lessons);
    var k :| 0 <= k < |lessons| && lessons[k].order == n - 1;
    assert longer[k] == lessons[k];
    var m := NextOrder(longer);
    var j :| 0 <= j < |longer| && longer[j].order == m - 1;
    if j < |lessons| {
      assert longer[j] == lessons[j];
    }
  }

  /** The set of orders of a list of lessons. */
  ghost function Orders(lessons: seq<Lesson>): set<int> {
    set l | l in lessons :: l.order
  }

  /** The suggestion depends on the set of orders only. */
  lemma NextOrderSameOrders(a: seq<Lesson>, b: seq<Lesson>)
    requires Orders(a) == Orders(b)
    ensures NextOrder(a) == NextOrder(b)
  {
    OrdersEmpty(a);
    OrdersEmpty(b);
    if a != [] {
      var i :| 0 <= i < |a| && a[i].order == NextOrder(a) - 1;
      assert a[i].order in Orders(b);
      var j :| 0 <= j < |b| && b[j].order == NextOrder(b) - 1;
      assert b[j].order in Orders(a);
    }
  }

  /** Only the empty list has no orders. */
  lemma OrdersEmpty(lessons: seq<Lesson>)
    ensures Orders(lessons) == {} <==> lessons == []
  {
    if lessons != [] {
      assert lessons[0].order in Orders(lessons);
    }
  }

  /** Nor does adding an existing lesson again at the front. */
  lemma NextOrderPrepend(lessons: seq<Lesson>, l: Lesson)
    requires l in lessons
    ensures NextOrder([l] + lessons) == NextOrder(lessons)
  {
    var longer := [l] + lessons;
    var n := NextOrder(lessons);
    var k :| 0 <= k < |lessons| && lessons[k].order == n - 1;
    assert longer[k + 1] == lessons[k];
    var m := NextOrder(longer);
    var j :| 0 <= j < |longer| && longer[j].order == m - 1;
    if j > 0 {
      assert longer[j] == lessons[j - 1];
    }
  }

  // ---------------------------------------------------------------------
  // Submission checks

  /** A question is incomplete when its text or one of its options is blank
      once trimmed. */
  predicate Incomplete(q: Question) {
    IsBlank(q.text) || exists j :: 0 <= j < |q.options| && IsBlank(q.options[j])
  }

  /** `options.some((opt) => !opt.trim())`, scanning left to right. */
  function SomeBlank(options: seq<string>): (r: bool)
    ensures r <==> exists j :: 0 <= j < |options| && IsBlank(options[j])
  {
    if options == [] then false
    else if IsBlank(options[0]) then true
    else
      var rest := SomeBlank(options[1..]);
      assert forall j :: 1 <= j < |options| ==> options[j] == options[1..][j - 1];
      rest
  }

  /** `questions.some(...)`: the check that stops the quiz from being
      created. */
  function SomeIncomplete(questions: seq<Question>): (r: bool)
    ensures r <==> exists i :: 0 <= i < |questions| && Incomplete(questions[i])
  {
    if questions == [] then false
    else if IsBlank(questions[0].text) || SomeBlank(questions[0].options) then
      assert Incomplete(questions[0]);
      true
    else
      var tail := questions[1..];
      var rest := SomeIncomplete(tail);
      assert !Incomplete(questions[0]);
      assert forall i :: 1 <= i < |questions| ==> questions[i] == tail[i - 1];
      rest
  }

  /** A string that starts with a non-space character is not blank. */
  lemma NotBlank(s: string)
    requires s != [] && !IsSpace(s[0])
    ensures !IsBlank(s)
  {
    BlankIffAllSpace(s);
  }

  /** The sample quiz the builder starts with passes the check. */
  lemma SampleQuizComplete()
    ensures !SomeIncomplete(InitialQuizForm.questions)
  {
    var q := SampleQuestion;
    NotBlank(q.text);
    forall j | 0 <= j < |q.options|
      ensures !IsBlank(q.options[j])
    {
      assert q.options[j][0] == 'O';
      NotBlank(q.options[j]);
    }
    assert !Incomplete(q);
    assert InitialQuizForm.questions == [q];
  }

  /** The empty text of a blank question is blank. */
  lemma EmptyIsBlank()
    ensures IsBlank("")
  {
  }

  /** Appending a blank question makes any quiz fail the check until that
      question is filled in. */
  lemma {:induction false} BlankQuestionBlocks(questions: seq<Question>)
    ensures SomeIncomplete(questions + [BlankQuestion])
    decreases |questions|
  {
    var qs := questions + [BlankQuestion];
    if questions == [] {
      EmptyIsBlank();
      assert qs[0].text == "";
    } else {
      assert qs[1..] == questions[1..] + [BlankQuestion];
      BlankQuestionBlocks(questions[1..]);
    }
  }

  /** An untouched reset quiz fails the check. */
  lemma ResetQuizBlocked()
    ensures SomeIncomplete(ResetQuizForm.questions)
  {
    BlankQuestionBlocks([]);
    assert ResetQuizForm.questions == [] + [BlankQuestion];
  }

  // ---------------------------------------------------------------------
  // List updates

  /** The `attachments` sent with a lesson: every uploaded file, in order,
      with `is_downloadable` set to the checkbox; nothing when nothing was
      uploaded. */
  function AttachmentPayload(uploaded: seq<UploadedFile>, downloadable: bool): (r: seq<UploadedFile>)
    ensures |r| == |uploaded|
    ensures forall i :: 0 <= i < |r| ==>
              r[i].isDownloadable == Some(downloadable)
              && r[i].filename == uploaded[i].filename
              && r[i].url == uploaded[i].url
              && r[i].mimeType == uploaded[i].mimeType
  {
    if |uploaded| > 0 then
      seq(|uploaded|, i requires 0 <= i < |uploaded| => uploaded[i].(isDownloadable := Some(downloadable)))
    else []
  }

  /** Tagging twice keeps only the last flag. */
  lemma RetagOverrides(uploaded: seq<UploadedFile>, a: bool, b: bool)
    ensures AttachmentPayload(AttachmentPayload(uploaded, a), b) == AttachmentPayload(uploaded, b)
  {
  }

  /** `handleDeleteQuiz`'s local update: the quiz of every lesson with that
      id is cleared; nothing else changes. */
  function DetachQuiz(lessons: seq<Lesson>, lessonId: string): (r: seq<Lesson>)
    ensures |r| == |lessons|
    ensures forall i :: 0 <= i < |r| ==>
              if lessons[i].id == lessonId then r[i] == lessons[i].(quiz := None) else r[i] == lessons[i]
  {
    seq(|lessons|, i requires 0 <= i < |lessons| =>
      if lessons[i].id == lessonId then lessons[i].(quiz := None) else lessons[i])
  }

  /** Detaching is idempotent, leaves a list without that id as it was, and
      leaves the matching lessons without a quiz. */
  lemma DetachQuizProperties(lessons: seq<Lesson>, lessonId: string)
    ensures DetachQuiz(DetachQuiz(lessons, lessonId), lessonId) == DetachQuiz(lessons, lessonId)
    ensures (forall i :: 0 <= i < |lessons| ==> lessons[i].id != lessonId) ==>
              DetachQuiz(lessons, lessonId) == lessons
    ensures forall l :: l in DetachQuiz(lessons, lessonId) && l.id == lessonId ==> l.quiz.None?
  {
  }

  /** `files.filter((_, i) => i !== index)`, one position at a time. */
  function RemoveAt<T>(s: seq<T>, index: int): (r: seq<T>)
    ensures 0 <= index < |s| ==> r == s[..index] + s[index + 1..]
    ensures !(0 <= index < |s|) ==> r == s
  {
    if s == [] then []
    else
      var rest := RemoveAt(s[1..], index - 1);
      if index == 0 then rest
      else
        assert index > 0 && index < |s| ==> s[..index] + s[index + 1..] == [s[0]] + (s[1..][..index - 1] + s[1..][index..]);
        [s[0]] + rest
  }

  // ---------------------------------------------------------------------
  // Requests

  function UploadRequest(files: seq<SelectedFile>): Request {
    Request(Urls.LessonsUpload, Files(files))
  }

  function FetchRequest(courseId: string): Request {
    Request(Urls.LessonsCourseLessons(courseId), NoBody)
  }

  // ---------------------------------------------------------------------
  // Page state

  /** The page's state: the selected course, its lessons, the lesson form,
      the chosen files, the quiz builder and its switch, the downloadable
      switch, the lesson being edited and the submitting flag. */
  class LessonManager {
    var selectedCourseId: string
    var lessons: seq<Lesson>
    var form: LessonForm
    var files: seq<SelectedFile>
    var quizEnabled: bool
    var quizData: QuizForm
    var isDownloadable: bool
    var editingLesson: Option<Lesson>
    var isSubmitting: bool

    constructor ()
      ensures selectedCourseId == "" && lessons == [] && files == []
      ensures form == InitialForm && quizData == InitialQuizForm
      ensures !quizEnabled && !isDownloadable && editingLesson.None? && !isSubmitting
    {
      selectedCourseId := "";
      lessons := [];
      form := InitialForm;
      files := [];
      quizEnabled := false;
      quizData := InitialQuizForm;
      isDownloadable := false;
      editingLesson := None;
      isSubmitting := false;
    }

    /** The two checks at the top of `handleAddLesson`. */
    predicate CanAdd()
      reads this`selectedCourseId, this`form
    {
      selectedCourseId != "" && !IsBlank(form.title) && !IsBlank(form.content)
    }

    /** The lesson payload built from the form. */
    function Payload(uploaded: seq<UploadedFile>): (p: LessonPayload)
      reads this`form, this`selectedCourseId, this`isDownloadable
      ensures p.title == form.title && p.content == form.content
      ensures p.order == form.order && p.duration == form.duration
      ensures p.courseId == selectedCourseId
      ensures p.attachments == AttachmentPayload(uploaded, isDownloadable)
    {
      LessonPayload(form.title, form.content, form.order, form.duration,
                    selectedCourseId, AttachmentPayload(uploaded, isDownloadable))
    }

    /** `fetchLessons`: on success the list is replaced and the form's order
        becomes the suggested one; on failure nothing changes. */
    method FetchLessons(courseId: string, reply: Reply<seq<Lesson>>) returns (request: Request)
      modifies this
      ensures request == FetchRequest(courseId)
      ensures reply.Ok? ==> lessons == reply.data && form == old(form).(order := NextOrder(reply.data))
      ensures reply.Failed? ==> lessons == old(lessons) && form == old(form)
      ensures selectedCourseId == old(selectedCourseId) && files == old(files)
      ensures quizEnabled == old(quizEnabled) && quizData == old(quizData)
      ensures isDownloadable == old(isDownloadable) && editingLesson == old(editingLesson)
      ensures isSubmitting == old(isSubmitting)
    {
      request := FetchRequest(courseId);
      if reply.Ok? {
        lessons := reply.data;
        form := form.(order := NextOrder(reply.data));
      }
    }

    /** Choosing a course; a non-empty choice loads its lessons. */
    method SelectCourse(courseId: string, reply: Reply<seq<Lesson>>) returns (requests: seq<Request>)
      modifies this
      ensures selectedCourseId == courseId
      ensures requests == if courseId == "" then [] else [FetchRequest(courseId)]
      ensures courseId == "" ==> lessons == old(lessons) && form == old(form)
      ensures courseId != "" && reply.Ok? ==>
                lessons == reply.data && form == old(form).(order := NextOrder(reply.data))
      ensures courseId != "" && reply.Failed? ==> lessons == old(lessons) && form == old(form)
      ensures files == old(files) && quizEnabled == old(quizEnabled) && quizData == old(quizData)
      ensures isDownloadable == old(isDownloadable) && editingLesson == old(editingLesson)
      ensures isSubmitting == old(isSubmitting)
    {
      selectedCourseId := courseId;
      requests := [];
      if courseId != "" {
        var r := FetchLessons(courseId, reply);
        requests := [r];
      }
    }

    /** The upload both submit handlers start with. */
    function UploadTrace(): (r: seq<Request>)
      reads this`files
      ensures r == [] <==> files == []
      ensures r != [] ==> r == [Request(Urls.LessonsUpload, Files(files))]
    {
      if |files| > 0 then [UploadRequest(files)] else []
    }

    /** The files the lesson will list: none when none were chosen, the
        upload's reply otherwise, and `None` when the upload failed. */
    function Uploaded(uploadReply: Reply<seq<UploadedFile>>): (r: Option<seq<UploadedFile>>)
      reads this`files
      ensures r.None? <==> files != [] && uploadReply.Failed?
      ensures r.Some? && files != [] ==> r.value == uploadReply.data
      ensures r.Some? && files == [] ==> r.value == []
    {
      if |files| == 0 then Some([])
      else if uploadReply.Ok? then Some(uploadReply.data)
      else None
    }

    /** The quiz create request for the new lesson. */
    function QuizRequest(lessonId: string): Request
      reads this`quizData
    {
      Request(Urls.QuizzesCreate, QuizBody(quizData, lessonId))
    }

    /** The quiz step of `handleAddLesson`: skipped when the quiz is off,
        refused when a question is incomplete, otherwise sent; `proceed` says
        whether the handler goes on to reset the form. */
    method SubmitQuiz(lessonId: string, quizReply: Reply<()>) returns (requests: seq<Request>, proceed: bool)
      ensures !quizEnabled ==> requests == [] && proceed
      ensures quizEnabled && SomeIncomplete(quizData.questions) ==> requests == [] && !proceed
      ensures quizEnabled && !SomeIncomplete(quizData.questions) ==>
                requests == [QuizRequest(lessonId)] && proceed == quizReply.Ok?
    {
      requests, proceed := [], true;
      if quizEnabled {
        if SomeIncomplete(quizData.questions) {
          proceed := false;
        } else {
          requests := [QuizRequest(lessonId)];
          proceed := quizReply.Ok?;
        }
      }
    }

    /** What `handleAddLesson` does once the lesson exists: the quiz step,
        then (unless it stopped the handler) the reset and the refetch. */
    method FinishAdd(lessonId: string, quizReply: Reply<()>, fetchReply: Reply<seq<Lesson>>)
      returns (requests: seq<Request>)
      modifies this
      ensures quizEnabled == false || old(quizEnabled)
      ensures old(quizEnabled) && (SomeIncomplete(old(quizData).questions) || quizReply.Failed?) ==>
                requests == (if SomeIncomplete(old(quizData).questions) then [] else [old(QuizRequest(lessonId))])
                && lessons == old(lessons) && form == old(form) && files == old(files)
                && quizEnabled == old(quizEnabled) && quizData == old(quizData)
      ensures (old(quizEnabled) ==> !SomeIncomplete(old(quizData).questions) && quizReply.Ok?) ==>
                requests == (if old(quizEnabled) then [old(QuizRequest(lessonId))] else [])
                            + [FetchRequest(old(selectedCourseId))]
                && files == [] && !quizEnabled && quizData == ResetQuizForm
                && form == (if fetchReply.Ok? then ResetForm(old(form)).(order := NextOrder(fetchReply.data))
                            else ResetForm(old(form)))
                && lessons == (if fetchReply.Ok? then fetchReply.data else old(lessons))
      ensures selectedCourseId == old(selectedCourseId) && isDownloadable == old(isDownloadable)
      ensures editingLesson == old(editingLesson) && isSubmitting == old(isSubmitting)
    {
      var proceed;
      requests, proceed := SubmitQuiz(lessonId, quizReply);
      if !proceed {
        return;
      }
      form := ResetForm(form);
      files := [];
      quizEnabled := false;
      quizData := ResetQuizForm;
      var fetch := FetchLessons(selectedCourseId, fetchReply);
      requests := requests + [fetch];
    }

    /** `handleAddLesson`. `uploadReply` answers the upload, `createReply`
        carries the new lesson's id, `quizReply` answers the quiz create and
        `fetchReply` the refetch. */
    method HandleAddLesson(uploadReply: Reply<seq<UploadedFile>>, createReply: Reply<string>,
                           quizReply: Reply<()>, fetchReply: Reply<seq<Lesson>>)
      returns (requests: seq<Request>)
      modifies this
      // no course, or a blank title or content: nothing is sent or changed
      ensures !old(CanAdd()) ==> requests == [] && unchanged(this)
      // the upload failed: nothing else is sent and only the flag changes
      ensures old(CanAdd()) && old(Uploaded(uploadReply)).None? ==>
                requests == old(UploadTrace()) && lessons == old(lessons) && form == old(form)
                && files == old(files) && quizEnabled == old(quizEnabled) && quizData == old(quizData)
      // otherwise the lesson is created with the uploaded files tagged
      ensures old(CanAdd()) && old(Uploaded(uploadReply)).Some? ==>
                var created := old(UploadTrace())
                               + [Request(Urls.LessonsCreate, LessonBody(old(Payload(Uploaded(uploadReply).value))))];
                |requests| >= |created| && requests[..|created|] == created
                && (createReply.Failed? ==>
                      requests == created && lessons == old(lessons) && form == old(form)
                      && files == old(files) && quizEnabled == old(quizEnabled) && quizData == old(quizData))
      // the lesson exists but the quiz stops the handler: no reset, no refetch
      ensures old(CanAdd()) && old(Uploaded(uploadReply)).Some? && createReply.Ok?
              && old(quizEnabled) && (SomeIncomplete(old(quizData).questions) || quizReply.Failed?) ==>
                requests == old(UploadTrace())
                            + [Request(Urls.LessonsCreate, LessonBody(old(Payload(Uploaded(uploadReply).value))))]
                            + (if SomeIncomplete(old(quizData).questions) then [] else [old(QuizRequest(createReply.data))])
                && lessons == old(lessons) && form == old(form) && files == old(files)
                && quizEnabled == old(quizEnabled) && quizData == old(quizData)
      // every step succeeded: the quiz (if enabled) is sent, the form is
      // reset and the list refetched
      ensures old(CanAdd()) && old(Uploaded(uploadReply)).Some? && createReply.Ok?
              && (old(quizEnabled) ==> !SomeIncomplete(old(quizData).questions) && quizReply.Ok?) ==>
                requests == old(UploadTrace())
                            + [Request(Urls.LessonsCreate, LessonBody(old(Payload(Uploaded(uploadReply).value))))]
                            + ((if old(quizEnabled) then [old(QuizRequest(createReply.data))] else [])
                               + [FetchRequest(old(selectedCourseId))])
                && files == [] && !quizEnabled && quizData == ResetQuizForm
                && form == (if fetchReply.Ok? then ResetForm(old(form)).(order := NextOrder(fetchReply.data))
                            else ResetForm(old(form)))
                && lessons == (if fetchReply.Ok? then fetchReply.data else old(lessons))
      ensures old(CanAdd()) ==> !isSubmitting
      ensures selectedCourseId == old(selectedCourseId) && isDownloadable == old(isDownloadable)
      ensures editingLesson == old(editingLesson)
    {
      requests := [];
      if !CanAdd() {
        return;
      }
      // `isSubmitting` is true while the requests are in flight; with the
      // replies given up front only its final value can be observed.
      var uploaded := Uploaded(uploadReply);
      requests := UploadTrace();
      if uploaded.None? {
        isSubmitting := false;
        return;
      }
      requests := requests + [Request(Urls.LessonsCreate, LessonBody(Payload(uploaded.value)))];
      if createReply.Failed? {
        isSubmitting := false;
        return;
      }
      var rest := FinishAdd(createReply.data, quizReply, fetchReply);
      requests := requests + rest;
      isSubmitting := false;
    }

    /** `handleUpdateLesson`: only needs a lesson being edited (the title and
        content are not checked); the quiz builder plays no part. */
    method HandleUpdateLesson(uploadReply: Reply<seq<UploadedFile>>, updateReply: Reply<()>,
                              fetchReply: Reply<seq<Lesson>>)
      returns (requests: seq<Request>)
      modifies this
      ensures old(editingLesson).None? ==> requests == [] && unchanged(this)
      // the upload or the update failed: only the flag changes
      ensures old(editingLesson).Some? && (old(Uploaded(uploadReply)).None? || updateReply.Failed?) ==>
                editingLesson == old(editingLesson) && files == old(files)
                && form == old(form) && lessons == old(lessons)
      ensures old(editingLesson).Some? && old(Uploaded(uploadReply)).None? ==> requests == old(UploadTrace())
      // otherwise the update is sent; on success the form is reset and the
      // list refetched
      ensures old(editingLesson).Some? && old(Uploaded(uploadReply)).Some? ==>
                var updated := old(UploadTrace())
                               + [Request(Urls.LessonsUpdate(old(editingLesson).value.id),
                                          LessonBody(old(Payload(Uploaded(uploadReply).value))))];
                requests == updated + (if updateReply.Ok? then [FetchRequest(old(selectedCourseId))] else [])
      ensures old(editingLesson).Some? && old(Uploaded(uploadReply)).Some? && updateReply.Ok? ==>
                editingLesson.None? && files == []
                && form == (if fetchReply.Ok? then ResetForm(old(form)).(order := NextOrder(fetchReply.data))
                            else ResetForm(old(form)))
                && lessons == (if fetchReply.Ok? then fetchReply.data else old(lessons))
      ensures old(editingLesson).Some? ==> !isSubmitting
      ensures quizEnabled == old(quizEnabled) && quizData == old(quizData)
      ensures selectedCourseId == old(selectedCourseId) && isDownloadable == old(isDownloadable)
    {
      requests := [];
      if editingLesson.None? {
        return;
      }
      // `isSubmitting` is true while the requests are in flight; with the
      // replies given up front only its final value can be observed.
      var uploaded := Uploaded(uploadReply);
      requests := UploadTrace();
      if uploaded.None? {
        isSubmitting := false;
        return;
      }
      requests := requests + [Request(Urls.LessonsUpdate(editingLesson.value.id), LessonBody(Payload(uploaded.value)))];
      if updateReply.Failed? {
        isSubmitting := false;
        return;
      }
      editingLesson := None;
      files := [];
      form := ResetForm(form);
      var fetch := FetchLessons(selectedCourseId, fetchReply);
      requests := requests + [fetch];
      isSubmitting := false;
    }

    /** `handleDeleteLesson`: nothing without confirmation; the list is
        refetched only after a successful delete. */
    method HandleDeleteLesson(confirmed: bool, lessonId: string, deleteReply: Reply<()>,
                              fetchReply: Reply<seq<Lesson>>)
      returns (requests: seq<Request>)
      modifies this
      ensures !confirmed ==> requests == [] && unchanged(this)
      ensures confirmed ==> requests == [Request(Urls.LessonsDelete(lessonId), NoBody)]
                                        + (if deleteReply.Ok? then [FetchRequest(old(selectedCourseId))] else [])
      ensures lessons == (if confirmed && deleteReply.Ok? && fetchReply.Ok? then fetchReply.data else old(lessons))
      ensures form == (if confirmed && deleteReply.Ok? && fetchReply.Ok?
                       then old(form).(order := NextOrder(fetchReply.data)) else old(form))
      ensures selectedCourseId == old(selectedCourseId) && files == old(files)
      ensures quizEnabled == old(quizEnabled) && quizData == old(quizData)
      ensures isDownloadable == old(isDownloadable) && editingLesson == old(editingLesson)
      ensures isSubmitting == old(isSubmitting)
    {
      requests := [];
      if !confirmed {
        return;
      }
      requests := [Request(Urls.LessonsDelete(lessonId), NoBody)];
      if deleteReply.Ok? {
        var fetch := FetchLessons(selectedCourseId, fetchReply);
        requests := requests + [fetch];
      }
    }

    /** `handleDeleteQuiz`: after a successful delete the quiz is cleared
        locally on the lesson with that id; on failure nothing changes. */
    method HandleDeleteQuiz(confirmed: bool, lessonId: string, quizId: string, reply: Reply<()>)
      returns (requests: seq<Request>)
      modifies this
      ensures requests == if confirmed then [Request(Urls.QuizzesDelete(quizId), NoBody)] else []
      ensures lessons == if confirmed && reply.Ok? then DetachQuiz(old(lessons), lessonId) else old(lessons)
      ensures selectedCourseId == old(selectedCourseId) && form == old(form) && files == old(files)
      ensures quizEnabled == old(quizEnabled) && quizData == old(quizData)
      ensures isDownloadable == old(isDownloadable) && editingLesson == old(editingLesson)
      ensures isSubmitting == old(isSubmitting)
    {
      requests := [];
      if !confirmed {
        return;
      }
      requests := [Request(Urls.QuizzesDelete(quizId), NoBody)];
      if reply.Ok? {
        lessons := DetachQuiz(lessons, lessonId);
      }
    }

    /** The Edit button together with the effect it triggers: the lesson is
        loaded into the form and the chosen files are cleared. Choosing the
        lesson already being edited sets the same state again, so the effect
        does not run and the form and files are kept. */
    method StartEdit(lesson: Lesson)
      modifies this
      ensures editingLesson == Some(lesson)
      ensures old(editingLesson) != Some(lesson) ==> form == EditForm(lesson) && files == []
      ensures old(editingLesson) == Some(lesson) ==> form == old(form) && files == old(files)
      ensures selectedCourseId == old(selectedCourseId) && lessons == old(lessons)
      ensures quizEnabled == old(quizEnabled) && quizData == old(quizData)
      ensures isDownloadable == old(isDownloadable) && isSubmitting == old(isSubmitting)
    {
      if editingLesson != Some(lesson) {
        editingLesson := Some(lesson);
        form := EditForm(lesson);
        files := [];
      }
    }

    /** The Cancel button. */
    method CancelEdit()
      modifies this
      ensures editingLesson.None? && files == [] && form == ResetForm(old(form))
      ensures selectedCourseId == old(selectedCourseId) && lessons == old(lessons)
      ensures quizEnabled == old(quizEnabled) && quizData == old(quizData)
      ensures isDownloadable == old(isDownloadable) && isSubmitting == old(isSubmitting)
    {
      editingLesson := None;
      files := [];
      form := ResetForm(form);
    }

    /** The title, content, order and duration inputs. */
    method SetForm(f: LessonForm)
      modifies this
      ensures form == f
      ensures selectedCourseId == old(selectedCourseId) && lessons == old(lessons) && files == old(files)
      ensures quizEnabled == old(quizEnabled) && quizData == old(quizData)
      ensures isDownloadable == old(isDownloadable) && editingLesson == old(editingLesson)
      ensures isSubmitting == old(isSubmitting)
    {
      form := f;
    }

    /** The "Mark files as downloadable" checkbox. */
    method SetDownloadable(checked: bool)
      modifies this
      ensures isDownloadable == checked
      ensures selectedCourseId == old(selectedCourseId) && lessons == old(lessons) && form == old(form)
      ensures files == old(files) && quizEnabled == old(quizEnabled) && quizData == old(quizData)
      ensures editingLesson == old(editingLesson) && isSubmitting == old(isSubmitting)
    {
      isDownloadable := checked;
    }

    /** The "Add Quiz to this Lesson" checkbox: flips the switch and keeps
        whatever the builder holds. */
    method ToggleQuiz()
      modifies this
      ensures quizEnabled == !old(quizEnabled)
      ensures selectedCourseId == old(selectedCourseId) && lessons == old(lessons) && form == old(form)
      ensures files == old(files) && quizData == old(quizData)
      ensures isDownloadable == old(isDownloadable) && editingLesson == old(editingLesson)
      ensures isSubmitting == old(isSubmitting)
    {
      quizEnabled := !quizEnabled;
    }

    /** The quiz title and description inputs: the questions are kept. */
    method SetQuizDetails(title: string, description: string)
      modifies this
      ensures quizData == old(quizData).(title := title, description := description)
      ensures selectedCourseId == old(selectedCourseId) && lessons == old(lessons) && form == old(form)
      ensures files == old(files) && quizEnabled == old(quizEnabled)
      ensures isDownloadable == old(isDownloadable) && editingLesson == old(editingLesson)
      ensures isSubmitting == old(isSubmitting)
    {
      quizData := quizData.(title := title, description := description);
    }

    /** The file input: the chosen files replace the previous choice. */
    method ChooseFiles(chosen: seq<SelectedFile>)
      modifies this
      ensures files == chosen
      ensures selectedCourseId == old(selectedCourseId) && lessons == old(lessons) && form == old(form)
      ensures quizEnabled == old(quizEnabled) && quizData == old(quizData)
      ensures isDownloadable == old(isDownloadable) && editingLesson == old(editingLesson)
      ensures isSubmitting == old(isSubmitting)
    {
      files := chosen;
    }

    /** A Remove button next to a chosen file. */
    method RemoveFile(index: int)
      requires 0 <= index < |files|
      modifies this
      ensures files == old(files[..index]) + old(files[index + 1..])
      ensures |files| == |old(files)| - 1
      ensures selectedCourseId == old(selectedCourseId) && lessons == old(lessons) && form == old(form)
      ensures quizEnabled == old(quizEnabled) && quizData == old(quizData)
      ensures isDownloadable == old(isDownloadable) && editingLesson == old(editingLesson)
      ensures isSubmitting == old(isSubmitting)
    {
      files := RemoveAt(files, index);
    }

    /** "+ Add Question". */
    method AddQuestion()
      modifies this
      ensures quizData == old(quizData).(questions := old(quizData.questions) + [BlankQuestion])
      ensures SomeIncomplete(quizData.questions)
      ensures selectedCourseId == old(selectedCourseId) && lessons == old(lessons) && form == old(form)
      ensures files == old(files) && quizEnabled == old(quizEnabled)
      ensures isDownloadable == old(isDownloadable) && editingLesson == old(editingLesson)
      ensures isSubmitting == old(isSubmitting)
    {
      BlankQuestionBlocks(quizData.questions);
      quizData := quizData.(questions := quizData.questions + [BlankQuestion]);
    }

    /** Editing the text of question `i`. */
    method SetQuestionText(i: int, text: string)
      requires 0 <= i < |quizData.questions|
      modifies this
      ensures |quizData.questions| == |old(quizData.questions)|
      ensures quizData.questions[i] == old(quizData.questions[i]).(text := text)
      ensures forall k :: 0 <= k < |quizData.questions| && k != i ==>
                quizData.questions[k] == old(quizData.questions[k])
      ensures quizData == old(quizData).(questions := quizData.questions)
      ensures selectedCourseId == old(selectedCourseId) && lessons == old(lessons) && form == old(form)
      ensures files == old(files) && quizEnabled == old(quizEnabled)
      ensures isDownloadable == old(isDownloadable) && editingLesson == old(editingLesson)
      ensures isSubmitting == old(isSubmitting)
    {
      var q := quizData.questions[i];
      quizData := quizData.(questions := quizData.questions[i := q.(text := text)]);
    }

    /** Editing option `j` of question `i`. */
    method SetOption(i: int, j: int, text: string)
      requires 0 <= i < |quizData.questions|
      requires 0 <= j < |quizData.questions[i].options|
      modifies this
      ensures |quizData.questions| == |old(quizData.questions)|
      ensures quizData.questions[i] ==
                old(quizData.questions[i]).(options := old(quizData.questions[i].options)[j := text])
      ensures forall k :: 0 <= k < |quizData.questions| && k != i ==>
                quizData.questions[k] == old(quizData.questions[k])
      ensures quizData == old(quizData).(questions := quizData.questions)
      ensures selectedCourseId == old(selectedCourseId) && lessons == old(lessons) && form == old(form)
      ensures files == old(files) && quizEnabled == old(quizEnabled)
      ensures isDownloadable == old(isDownloadable) && editingLesson == old(editingLesson)
      ensures isSubmitting == old(isSubmitting)
    {
      var q := quizData.questions[i];
      quizData := quizData.(questions := quizData.questions[i := q.(options := q.options[j := text])]);
    }

    /** Editing the correct-option index of question `i`. */
    method SetCorrectAnswer(i: int, answer: int)
      requires 0 <= i < |quizData.questions|
      modifies this
      ensures |quizData.questions| == |old(quizData.questions)|
      ensures quizData.questions[i] == old(quizData.questions[i]).(correctAnswer := answer)
      ensures forall k :: 0 <= k < |quizData.questions| && k != i ==>
                quizData.questions[k] == old(quizData.questions[k])
      ensures quizData == old(quizData).(questions := quizData.questions)
      ensures selectedCourseId == old(selectedCourseId) && lessons == old(lessons) && form == old(form)
      ensures files == old(files) && quizEnabled == old(quizEnabled)
      ensures isDownloadable == old(isDownloadable) && editingLesson == old(editingLesson)
      ensures isSubmitting == old(isSubmitting)
    {
      var q := quizData.questions[i];
      quizData := quizData.(questions := quizData.questions[i := q.(correctAnswer := answer)]);
    }
  }
}
