/** The lesson viewer page: which quiz a lesson has, when the "Mark as Done"
    and "Next Lesson" buttons are enabled, how attachments are shown, the
    per-file PDF viewer state, and the duration text. */
module LessonViewer {
  import opened Text
  import opened Replies
  import opened Quizzes
  import Urls

  // ---------------------------------------------------------------------
  // Quiz resolution

  /** What `lesson.quiz` holds: a quiz id (a string), an inlined quiz object,
      or anything else (`null`, `undefined`, a number, ...). */
  datatype QuizField = Absent | Ref(id: string) | Inline(quiz: Quiz)

  /** The quiz id that is fetched, if any: only a non-empty string passes the
      `lesson?.quiz && typeof lesson.quiz === "string"` test. */
  function QuizFetchId(field: QuizField): (r: Option<string>)
    ensures r.Some? <==> field.Ref? && field.id != ""
    ensures r.Some? ==> r.value == field.id
  {
    if field.Ref? && field.id != "" then Some(field.id) else None
  }

  /** `fetchQuiz`: the quiz the page keeps. `fetched` is the reply to the
      quiz request (`Ok(None)` when it carried no quiz) and is consulted only
      when a request was made. A quiz without questions is never kept. */
  function ResolveQuiz(field: QuizField, fetched: Reply<Option<Quiz>>): (r: Option<Quiz>)
    ensures r.Some? ==> |r.value.questions| > 0
    ensures r.Some? ==> (field.Inline? && r.value == field.quiz)
                        || (QuizFetchId(field).Some? && fetched == Ok(r))
    ensures field.Inline? && |field.quiz.questions| > 0 ==> r == Some(field.quiz)
    ensures (QuizFetchId(field).Some? && fetched.Ok? && fetched.data.Some?
             && |fetched.data.value.questions| > 0) ==> r == fetched.data
  {
    match field
    case Ref(id) =>
      if id != "" then
        (match fetched
         case Ok(Some(q)) => if |q.questions| > 0 then Some(q) else None
         case _ => None)
      else None
    case Inline(q) => if |q.questions| > 0 then Some(q) else None
    case Absent => None
  }

  /** Without a request the reply plays no part. */
  lemma ResolveWithoutFetch(field: QuizField, f1: Reply<Option<Quiz>>, f2: Reply<Option<Quiz>>)
    requires QuizFetchId(field).None?
    ensures ResolveQuiz(field, f1) == ResolveQuiz(field, f2)
  {
  }

  // ---------------------------------------------------------------------
  // Progression gating

  /** The state the two buttons read. */
  datatype Gate = Gate(hasQuiz: bool, attempt: Option<Attempt>, attemptLoading: bool, done: bool)

  /** `attempt?.passed`. */
  predicate Passed(attempt: Option<Attempt>) {
    attempt.Some? && attempt.value.passed
  }

  /** `disabled` of "Mark as Done". */
  predicate MarkDoneDisabled(g: Gate) {
    if !g.hasQuiz then false else !Passed(g.attempt) || g.attemptLoading || g.done
  }

  /** `disabled` of "Next Lesson". */
  predicate NextDisabled(g: Gate) {
    g.hasQuiz && (!Passed(g.attempt) || g.attemptLoading)
  }

  /** The "you must pass the quiz" text. */
  predicate ShowsPassWarning(g: Gate) {
    g.hasQuiz && !g.attemptLoading && !Passed(g.attempt)
  }

  /** The guard at the top of `handleNextLesson`. */
  predicate NextRefused(g: Gate) {
    g.hasQuiz && !Passed(g.attempt)
  }

  /** Without a quiz both buttons are enabled, whatever the attempt, the
      loading flag or the done flag say. */
  lemma NoQuizNothingDisabled(g: Gate)
    requires !g.hasQuiz
    ensures !MarkDoneDisabled(g) && !NextDisabled(g) && !NextRefused(g) && !ShowsPassWarning(g)
  {
  }

  /** With a quiz, "Next Lesson" is enabled exactly when a loaded attempt
      passed, and "Mark as Done" exactly when, in addition, the lesson is not
      done yet. */
  lemma QuizGating(g: Gate)
    requires g.hasQuiz
    ensures !NextDisabled(g) <==> Passed(g.attempt) && !g.attemptLoading
    ensures !MarkDoneDisabled(g) <==> Passed(g.attempt) && !g.attemptLoading && !g.done
  {
  }

  /** Whenever "Mark as Done" is enabled so is "Next Lesson". */
  lemma MarkDoneEnabledImpliesNextEnabled(g: Gate)
    ensures !MarkDoneDisabled(g) ==> !NextDisabled(g)
  {
  }

  /** The handler refuses exactly in the states where the button is
      disabled for want of a pass, not merely because the attempt is still
      loading. */
  lemma RefusalMatchesButton(g: Gate)
    ensures NextRefused(g) ==> NextDisabled(g)
    ensures NextDisabled(g) && !g.attemptLoading ==> NextRefused(g)
  {
  }

  /** The warning shows exactly when the handler would refuse and the
      attempt has finished loading. */
  lemma WarningMatchesRefusal(g: Gate)
    ensures ShowsPassWarning(g) <==> NextRefused(g) && !g.attemptLoading
  {
  }

  // ---------------------------------------------------------------------
  // Attachments

  /** A stored attachment. */
  datatype Attachment = Attachment(
    filename: string,
    originalName: string,
    url: string,
    mimeType: string,
    size: int,
    isDownloadable: bool)

  /** How an attachment is rendered. */
  datatype Kind = Video | Pdf | Other

  const PdfType: string := "application/pdf"

  /** `isVideo` and `isPDF`: a `video/...` type plays inline, exactly
      `application/pdf` gets the PDF viewer, and no type is both. */
  function Classify(mimeType: string): (k: Kind)
    ensures k == Video <==> StartsWith(mimeType, "video/")
    ensures k == Pdf <==> mimeType == PdfType
  {
    assert PdfType[0] != 'v';
    if StartsWith(mimeType, "video/") then Video
    else if mimeType == PdfType then Pdf
    else Other
  }

  /** One rendered attachment: its kind, the file URL, the "Download" link
      shown next to the name (only for downloadable files) and the "Open in
      New Tab" link (every PDF, whatever its flag). */
  datatype Panel = Panel(kind: Kind, url: string, downloadLink: Option<string>, openLink: Option<string>)

  function AttachmentPanel(env: Urls.Env, file: Attachment): (p: Panel)
    ensures p.url == Urls.FileUrl(env, Urls.Upload(file.url))
    ensures p.downloadLink.Some? <==> file.isDownloadable
    ensures p.downloadLink.Some? ==> p.downloadLink.value == p.url
    ensures p.openLink.Some? <==> Classify(file.mimeType) == Pdf
    ensures p.openLink.Some? ==> p.openLink.value == p.url
    ensures p.kind == Classify(file.mimeType)
  {
    var url := Urls.FileUrl(env, Urls.Upload(file.url));
    var kind := Classify(file.mimeType);
    Panel(kind, url,
          if file.isDownloadable then Some(url) else None,
          if kind == Pdf then Some(url) else None)
  }

  // ---------------------------------------------------------------------
  // Duration

  /** What the duration line shows: "N/A", or minutes and seconds. */
  datatype DurationText = NotAvailable | MinSec(minutes: int, seconds: int)

  /** `Math.trunc(a / b)`: the quotient rounded toward zero. */
  function JsQuot(a: int, b: int): int
    requires b > 0
  {
    if a >= 0 then a / b else -((-a) / b)
  }

  /** JavaScript's `%`: what is left of `a` after taking out the quotient
      rounded toward zero, so it takes the sign of the dividend. */
  function JsRem(a: int, b: int): (r: int)
    requires b > 0
    ensures a == b * JsQuot(a, b) + r
    ensures a >= 0 ==> 0 <= r < b
    ensures a < 0 ==> -b < r <= 0
  {
    if a >= 0 then a % b else -((-a) % b)
  }

  /** `${Math.floor(d / 60)}m ${d % 60}s`, or "N/A" for a missing or zero
      duration. For a positive duration the two parts recompose it. */
  function FormatDuration(d: Option<int>): (r: DurationText)
    ensures r.NotAvailable? <==> d.None? || d.value == 0
    ensures d.Some? && d.value > 0 ==>
              r.MinSec? && 60 * r.minutes + r.seconds == d.value && 0 <= r.seconds < 60
  {
    if d.None? || d.value == 0 then NotAvailable
    else MinSec(d.value / 60, JsRem(d.value, 60))
  }

  /** A negative duration that is not a whole number of minutes shows one
      minute less than it is: `Math.floor` rounds down while `%` keeps the
      sign, so -30 shows as -1m -30s. */
  lemma NegativeDurationText(d: int)
    requires d < 0 && d % 60 != 0
    ensures FormatDuration(Some(d)).MinSec?
    ensures 60 * FormatDuration(Some(d)).minutes + FormatDuration(Some(d)).seconds == d - 60
  {
    var q := (-d) / 60;
    var r := (-d) % 60;
    assert -d == 60 * q + r && 0 < r < 60;
    assert d / 60 == -q - 1 by {
      assert d == 60 * (-q - 1) + (60 - r);
    }
  }

  // ---------------------------------------------------------------------
  // Page state

  datatype ViewMode = Preview | Download

  /** The `PROGRESS.MARK_DONE` post with its `{ lessonId }` body. */
  datatype MarkDoneRequest = MarkDoneRequest(endpoint: Urls.Endpoint, lessonId: string)

  /** The viewer's state that its handlers update: the quiz, the latest
      attempt and its loading flag, the done flag, and per PDF file name the
      chosen view mode and whether the embedded viewer is still loading. */
  class ViewerState {
    var quiz: Option<Quiz>
    var attempt: Option<Attempt>
    var attemptLoading: bool
    var done: bool
    var pdfViewMode: map<string, ViewMode>
    var pdfLoading: map<string, bool>

    constructor ()
      ensures quiz.None? && attempt.None? && attemptLoading && !done
      ensures pdfViewMode == map[] && pdfLoading == map[]
    {
      quiz := None;
      attempt := None;
      attemptLoading := true;
      done := false;
      pdfViewMode := map[];
      pdfLoading := map[];
    }

    function Gating(): (g: Gate)
      reads this
      ensures g.hasQuiz <==> quiz.Some?
    {
      Gate(quiz.Some?, attempt, attemptLoading, done)
    }

    /** `fetchQuiz`: the quiz becomes whatever the lesson's quiz field
        resolves to; `QUIZZES.DETAIL` is requested only for a quiz id. */
    method LoadQuiz(field: QuizField, fetched: Reply<Option<Quiz>>)
      returns (request: Option<Urls.Endpoint>)
      modifies this
      ensures request.Some? <==> field.Ref? && field.id != ""
      ensures request.Some? ==> request.value == Urls.QuizzesDetail(field.id)
      ensures quiz == ResolveQuiz(field, fetched)
      ensures attempt == old(attempt) && attemptLoading == old(attemptLoading) && done == old(done)
      ensures pdfViewMode == old(pdfViewMode) && pdfLoading == old(pdfLoading)
    {
      var id := QuizFetchId(field);
      request := if id.Some? then Some(Urls.QuizzesDetail(id.value)) else None;
      quiz := ResolveQuiz(field, fetched);
    }

    /** `fetchAttempt`: skipped without a quiz or a lesson id; otherwise the
        attempt becomes the reply's (none on any failure) and loading ends. */
    method LoadAttempt(lessonId: string, reply: Reply<Option<Attempt>>)
      returns (request: Option<Urls.Endpoint>)
      modifies this
      ensures request.Some? <==> old(quiz).Some? && lessonId != ""
      ensures request.Some? ==> request.value == Urls.QuizAttemptsLatest(lessonId)
      ensures request.Some? ==>
                (!attemptLoading && attempt == (if reply.Ok? then reply.data else None))
      ensures request.None? ==> attempt == old(attempt) && attemptLoading == old(attemptLoading)
      ensures quiz == old(quiz) && done == old(done)
      ensures pdfViewMode == old(pdfViewMode) && pdfLoading == old(pdfLoading)
    {
      request := None;
      if quiz.Some? && lessonId != "" {
        request := Some(Urls.QuizAttemptsLatest(lessonId));
        attemptLoading := true;
        attempt := if reply.Ok? then reply.data else None;
        attemptLoading := false;
      }
    }

    /** `fetchProgress`: skipped without a token or a lesson id; otherwise
        done is the reply's `completed`, and false on failure. */
    method LoadProgress(hasToken: bool, lessonId: string, reply: Reply<bool>)
      returns (request: Option<Urls.Endpoint>)
      modifies this
      ensures request.Some? <==> hasToken && lessonId != ""
      ensures request.Some? ==> request.value == Urls.ProgressLesson(lessonId)
      ensures done == if hasToken && lessonId != "" then reply == Ok(true) else old(done)
      ensures quiz == old(quiz) && attempt == old(attempt) && attemptLoading == old(attemptLoading)
      ensures pdfViewMode == old(pdfViewMode) && pdfLoading == old(pdfLoading)
    {
      request := None;
      if hasToken && lessonId != "" {
        request := Some(Urls.ProgressLesson(lessonId));
        done := reply == Ok(true);
      }
    }

    /** `handleMarkAsDone`: posts the lesson's id to `PROGRESS.MARK_DONE`;
        done once the request succeeded. */
    method MarkAsDone(lessonId: string, reply: Reply<()>)
      returns (request: MarkDoneRequest)
      modifies this
      ensures request.endpoint == Urls.ProgressMarkDone && request.lessonId == lessonId
      ensures done == (old(done) || reply.Ok?)
      ensures quiz == old(quiz) && attempt == old(attempt) && attemptLoading == old(attemptLoading)
      ensures pdfViewMode == old(pdfViewMode) && pdfLoading == old(pdfLoading)
    {
      request := MarkDoneRequest(Urls.ProgressMarkDone, lessonId);
      if reply.Ok? {
        done := true;
      }
    }

    /** `handleNextLesson`: no request at all while a quiz is not passed;
        otherwise the next lesson is asked for and navigated to when the
        reply names one. `reply` is the next lesson's id, if any. */
    method HandleNextLesson(lessonId: string, reply: Reply<Option<string>>)
      returns (request: Option<Urls.Endpoint>, navigateTo: Option<string>)
      ensures request.None? <==> NextRefused(Gating())
      ensures request.Some? ==> request.value == Urls.LessonsNext(lessonId)
      ensures navigateTo.Some? ==> quiz.None? || Passed(attempt)
      ensures navigateTo.Some? <==> request.Some? && reply.Ok? && reply.data.Some? && reply.data.value != ""
      ensures navigateTo.Some? ==> navigateTo.value == "/lesson/" + reply.data.value
    {
      request, navigateTo := None, None;
      if quiz.Some? && !Passed(attempt) {
        return;
      }
      request := Some(Urls.LessonsNext(lessonId));
      if reply.Ok? && reply.data.Some? && reply.data.value != "" {
        navigateTo := Some("/lesson/" + reply.data.value);
      }
    }

    /** `handlePreviousLesson`: never gated. */
    method HandlePreviousLesson(lessonId: string, reply: Reply<Option<string>>)
      returns (request: Urls.Endpoint, navigateTo: Option<string>)
      ensures request == Urls.LessonsPrev(lessonId)
      ensures navigateTo.Some? <==> reply.Ok? && reply.data.Some? && reply.data.value != ""
      ensures navigateTo.Some? ==> navigateTo.value == "/lesson/" + reply.data.value
    {
      request := Urls.LessonsPrev(lessonId);
      navigateTo := None;
      if reply.Ok? && reply.data.Some? && reply.data.value != "" {
        navigateTo := Some("/lesson/" + reply.data.value);
      }
    }

    /** The embedded viewer is shown unless the mode is `Download`; a file
        with no entry counts as preview. */
    predicate ShowsPreview(file: string)
      reads this
    {
      file !in pdfViewMode || pdfViewMode[file] != Download
    }

    /** The "PDF preview disabled" fallback. */
    predicate ShowsFallback(file: string)
      reads this
    {
      file in pdfViewMode && pdfViewMode[file] == Download
    }

    /** The loading overlay, drawn over the embedded viewer. */
    predicate ShowsSpinner(file: string)
      reads this
    {
      ShowsPreview(file) && file in pdfLoading && pdfLoading[file]
    }

    /** The "Download PDF" anchor of the fallback panel: present for a PDF
        shown in download mode, pointing at the file URL. */
    function PdfDownloadLink(env: Urls.Env, file: Attachment): (r: Option<string>)
      reads this
      ensures r.Some? <==> Classify(file.mimeType) == Pdf && ShowsFallback(file.filename)
      ensures r.Some? ==> r.value == AttachmentPanel(env, file).url
    {
      if Classify(file.mimeType) == Pdf && ShowsFallback(file.filename)
      then Some(AttachmentPanel(env, file).url) else None
    }

    /** The download flag gates only the link next to the name: a PDF that is
        not downloadable still offers "Open in New Tab", and in download mode
        also "Download PDF", both at the file URL. */
    lemma PdfLinksIgnoreFlag(env: Urls.Env, file: Attachment)
      requires Classify(file.mimeType) == Pdf && !file.isDownloadable
      ensures AttachmentPanel(env, file).downloadLink == None
      ensures AttachmentPanel(env, file).openLink == Some(AttachmentPanel(env, file).url)
      ensures ShowsFallback(file.filename) ==>
                PdfDownloadLink(env, file) == Some(AttachmentPanel(env, file).url)
    {
    }

    /** Exactly one of the two PDF panels is shown for every file. */
    lemma OnePanel(file: string)
      ensures ShowsPreview(file) <==> !ShowsFallback(file)
      ensures ShowsSpinner(file) ==> !ShowsFallback(file)
    {
    }

    /** The Preview button. */
    method ChoosePreview(file: string)
      modifies this
      ensures pdfViewMode == old(pdfViewMode)[file := Preview]
      ensures pdfLoading == old(pdfLoading)[file := true]
      ensures ShowsPreview(file) && ShowsSpinner(file)
      ensures quiz == old(quiz) && attempt == old(attempt)
      ensures attemptLoading == old(attemptLoading) && done == old(done)
    {
      pdfViewMode := pdfViewMode[file := Preview];
      pdfLoading := pdfLoading[file := true];
    }

    /** The Download Only button. */
    method ChooseDownload(file: string)
      modifies this
      ensures pdfViewMode == old(pdfViewMode)[file := Download]
      ensures pdfLoading == old(pdfLoading)
      ensures ShowsFallback(file) && !ShowsPreview(file)
      ensures quiz == old(quiz) && attempt == old(attempt)
      ensures attemptLoading == old(attemptLoading) && done == old(done)
    {
      pdfViewMode := pdfViewMode[file := Download];
    }

    /** The embedded viewer finished loading. */
    method PdfLoaded(file: string)
      modifies this
      ensures pdfLoading == old(pdfLoading)[file := false]
      ensures pdfViewMode == old(pdfViewMode)
      ensures !ShowsSpinner(file)
      ensures quiz == old(quiz) && attempt == old(attempt)
      ensures attemptLoading == old(attemptLoading) && done == old(done)
    {
      pdfLoading := pdfLoading[file := false];
    }

    /** The embedded viewer failed: stop loading and fall back to download. */
    method PdfFailed(file: string)
      modifies this
      ensures pdfLoading == old(pdfLoading)[file := false]
      ensures pdfViewMode == old(pdfViewMode)[file := Download]
      ensures ShowsFallback(file) && !ShowsPreview(file) && !ShowsSpinner(file)
      ensures forall f :: f != file ==> (ShowsPreview(f) <==> old(ShowsPreview(f)))
      ensures quiz == old(quiz) && attempt == old(attempt)
      ensures attemptLoading == old(attemptLoading) && done == old(done)
    {
      pdfLoading := pdfLoading[file := false];
      pdfViewMode := pdfViewMode[file := Download];
    }
  }
}
