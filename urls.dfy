/** The URL registry: every backend endpoint is the backend origin followed by
    a fixed `/api/...` path, and a stored file path becomes either an object
    storage URL (production with a bucket) or a backend URL.

    The build environment (`import.meta.env.PROD`, `VITE_S3_BUCKET_NAME`,
    `VITE_S3_REGION`) and the backend origin (`API_BASE_URL`) are parameters.
    An unset variable and an empty one are both `""`: JavaScript treats
    `undefined` and `""` alike in `s3BucketName &&` and `s3Region ||`. */
module Urls {
  import opened Text

  datatype Env = Env(backend: string, production: bool, bucket: string, region: string)

  const DefaultRegion: string := "ap-south-1"

  /** `VITE_S3_REGION || "ap-south-1"`. */
  function Region(env: Env): (r: string)
    ensures r != ""
    ensures env.region != "" ==> r == env.region
    ensures env.region == "" ==> r == DefaultRegion
  {
    if env.region == "" then DefaultRegion else env.region
  }

  /** `https://{bucket}.s3.{region}.amazonaws.com{path}`. */
  function S3Url(env: Env, path: string): string {
    "https://" + env.bucket + ".s3." + Region(env) + ".amazonaws.com" + path
  }

  /** `buildUrl`: the backend origin, then the endpoint, nothing in between. */
  function BuildUrl(env: Env, endpoint: string): (r: string)
    ensures StartsWith(r, env.backend)
    ensures r[|env.backend|..] == endpoint
  {
    env.backend + endpoint
  }

  /** Both branches of `buildFileUrl` that rewrite a relative path. */
  predicate UsesS3(env: Env) {
    env.production && env.bucket != ""
  }

  /** `buildFileUrl`: empty stays empty, an absolute `http...` path passes
      through, anything else is prefixed by the S3 origin or the backend. */
  function BuildFileUrl(env: Env, path: string): (r: string)
    ensures r == "" <==> path == ""
    ensures EndsWith(r, path)
    ensures StartsWith(path, "http") ==> r == path
    ensures path != "" && !StartsWith(path, "http") ==>
              r == (if UsesS3(env) then S3Url(env, path) else BuildUrl(env, path))
  {
    if path == "" then ""
    else if StartsWith(path, "http") then path
    else if UsesS3(env) then S3Url(env, path)
    else BuildUrl(env, path)
  }

  /** An S3 URL begins with `https://`, hence with `http`. */
  lemma S3UrlIsAbsolute(env: Env, path: string)
    ensures StartsWith(S3Url(env, path), "http")
  {
    var u := S3Url(env, path);
    assert u == "https://" + (env.bucket + ".s3." + Region(env) + ".amazonaws.com" + path);
    assert u[..4] == "http";
  }

  /** A second rewrite changes nothing once the first one produced an
      absolute URL: always with S3, and in development whenever the backend
      origin is itself absolute. */
  lemma {:induction false} BuildFileUrlIdempotent(env: Env, path: string)
    requires UsesS3(env) || StartsWith(env.backend, "http")
    ensures BuildFileUrl(env, BuildFileUrl(env, path)) == BuildFileUrl(env, path)
  {
    var r := BuildFileUrl(env, path);
    if path != "" && !StartsWith(path, "http") {
      if UsesS3(env) {
        S3UrlIsAbsolute(env, path);
      } else {
        assert r[..4] == env.backend[..4];
      }
    }
  }

  /** A relative file path is never returned unchanged when the backend
      origin is non-empty or S3 is in use: the rewrite is a strict extension. */
  lemma RelativePathIsExtended(env: Env, path: string)
    requires path != "" && !StartsWith(path, "http")
    requires UsesS3(env) || env.backend != ""
    ensures |BuildFileUrl(env, path)| > |path|
  {
  }

  /** The entries of `URLS.API`, one constructor per endpoint; the
      parameterised ones carry their id. */
  datatype Endpoint =
    | AuthLogin | AuthRegister | AuthChangePassword
    | UsersList | UsersProfile | UsersUploadAvatar
    | UsersDetail(id: string) | UsersUpdate(id: string) | UsersDelete(id: string)
    | CoursesList | CoursesMyCourses | CoursesCreate
    | CoursesUpdate(id: string) | CoursesDelete(id: string) | CoursesDetail(id: string)
    | CoursesEnroll(id: string)
    | EnrollmentsMyCourses | EnrollmentsEnroll(id: string) | EnrollmentsStatus(id: string)
    | EnrollmentsProgress(id: string) | EnrollmentsCompleteLesson
    | QuizAttemptsLatest(id: string) | QuizAttemptsCreate | QuizAttemptsSubmit(id: string)
    | ProgressLesson(id: string) | ProgressMarkDone | ProgressCourse(id: string)
    | LessonsList | LessonsUpload | LessonsCourseLessons(id: string) | LessonsCreate
    | LessonsUpdate(id: string) | LessonsDelete(id: string) | LessonsDetail(id: string)
    | LessonsNext(id: string) | LessonsPrev(id: string)
    | QuizzesList | QuizzesCreate | QuizzesUpdate(id: string) | QuizzesDelete(id: string)
    | QuizzesDetail(id: string) | QuizzesCourseQuizzes(id: string)
    | AnalyticsProgress(id: string) | AnalyticsHours
    | NotificationsList | NotificationsCreate | NotificationsDelete(id: string)
    | AffiliationsList | AffiliationsCreate | AffiliationsUpdate(id: string)
    | AffiliationsDelete(id: string) | AffiliationsDetail(id: string)
    | FranchiseList | FranchiseCreate | FranchiseUpdate(id: string)
    | FranchiseDelete(id: string) | FranchiseDetail(id: string)
    | ContactSend

  /** The endpoint path passed to `buildUrl` for each entry. */
  function EndpointPath(e: Endpoint): (p: string)
    ensures StartsWith(p, "/api/")
  {
    match e
    case AuthLogin => "/api/auth/login"
    case AuthRegister => "/api/auth/register"
    case AuthChangePassword => "/api/auth/change-password"
    case UsersList => "/api/users"
    case UsersProfile => "/api/users/profile"
    case UsersUploadAvatar => "/api/users/upload-avatar"
    case UsersDetail(id) => "/api/users/" + id
    case UsersUpdate(id) => "/api/users/" + id
    case UsersDelete(id) => "/api/users/" + id
    case CoursesList => "/api/courses"
    case CoursesMyCourses => "/api/courses/my"
    case CoursesCreate => "/api/courses"
    case CoursesUpdate(id) => "/api/courses/" + id
    case CoursesDelete(id) => "/api/courses/" + id
    case CoursesDetail(id) => "/api/courses/" + id
    case CoursesEnroll(id) => "/api/enrollments/enroll/" + id
    case EnrollmentsMyCourses => "/api/enrollments/my-courses"
    case EnrollmentsEnroll(id) => "/api/enrollments/enroll/" + id
    case EnrollmentsStatus(id) => "/api/enrollments/status/" + id
    case EnrollmentsProgress(id) => "/api/enrollments/progress/" + id
    case EnrollmentsCompleteLesson => "/api/enrollments/complete"
    case QuizAttemptsLatest(id) => "/api/quiz-attempts/" + id + "/latest"
    case QuizAttemptsCreate => "/api/quiz-attempts"
    case QuizAttemptsSubmit(id) => "/api/quiz-attempts/" + id + "/submit"
    case ProgressLesson(id) => "/api/progress/lesson/" + id
    case ProgressMarkDone => "/api/progress/mark-done"
    case ProgressCourse(id) => "/api/progress/course/" + id
    case LessonsList => "/api/lessons"
    case LessonsUpload => "/api/lessons/upload"
    case LessonsCourseLessons(id) => "/api/lessons/course/" + id
    case LessonsCreate => "/api/lessons"
    case LessonsUpdate(id) => "/api/lessons/" + id
    case LessonsDelete(id) => "/api/lessons/" + id
    case LessonsDetail(id) => "/api/lessons/" + id
    case LessonsNext(id) => "/api/lessons/" + id + "/next"
    case LessonsPrev(id) => "/api/lessons/" + id + "/prev"
    case QuizzesList => "/api/quizzes"
    case QuizzesCreate => "/api/quizzes"
    case QuizzesUpdate(id) => "/api/quizzes/" + id
    case QuizzesDelete(id) => "/api/quizzes/" + id
    case QuizzesDetail(id) => "/api/quizzes/" + id
    case QuizzesCourseQuizzes(id) => "/api/quizzes/course/" + id
    case AnalyticsProgress(id) => "/api/analytics/progress/" + id
    case AnalyticsHours => "/api/analytics/hours"
    case NotificationsList => "/api/notifications"
    case NotificationsCreate => "/api/notifications"
    case NotificationsDelete(id) => "/api/notifications/" + id
    case AffiliationsList => "/api/affiliations"
    case AffiliationsCreate => "/api/affiliations"
    case AffiliationsUpdate(id) => "/api/affiliations/" + id
    case AffiliationsDelete(id) => "/api/affiliations/" + id
    case AffiliationsDetail(id) => "/api/affiliations/" + id
    case FranchiseList => "/api/franchise"
    case FranchiseCreate => "/api/franchise"
    case FranchiseUpdate(id) => "/api/franchise/" + id
    case FranchiseDelete(id) => "/api/franchise/" + id
    case FranchiseDetail(id) => "/api/franchise/" + id
    case ContactSend => "/api/contact"
  }

  /** `URLS.API.*`: every endpoint URL is the backend origin followed by an
      `/api/` path. */
  function ApiUrl(env: Env, e: Endpoint): (r: string)
    ensures StartsWith(r, env.backend)
    ensures StartsWith(r[|env.backend|..], "/api/")
  {
    BuildUrl(env, EndpointPath(e))
  }

  /** Removing a common prefix and suffix recovers the middle. */
  lemma CancelAffixes(p: string, a: string, b: string, s: string)
    requires p + a + s == p + b + s
    ensures a == b
  {
    var u := p + a + s;
    assert |a| == |b|;
    assert a == u[|p|..|p| + |a|];
    assert b == (p + b + s)[|p|..|p| + |b|];
  }

  /** The next- and previous-lesson URLs, spelled out. */
  lemma NeighbourUrls(env: Env, id: string)
    ensures ApiUrl(env, LessonsNext(id)) == (env.backend + "/api/lessons/") + id + "/next"
    ensures ApiUrl(env, LessonsPrev(id)) == (env.backend + "/api/lessons/") + id + "/prev"
  {
    var b, m := env.backend, "/api/lessons/";
    assert EndpointPath(LessonsNext(id)) == m + id + "/next";
    assert b + (m + id + "/next") == (b + m) + id + "/next";
    assert EndpointPath(LessonsPrev(id)) == m + id + "/prev";
    assert b + (m + id + "/prev") == (b + m) + id + "/prev";
  }

  /** `LESSONS.NEXT` and `LESSONS.PREV` are injective in the lesson id. */
  lemma NextPrevInjective(env: Env, a: string, b: string)
    ensures ApiUrl(env, LessonsNext(a)) == ApiUrl(env, LessonsNext(b)) ==> a == b
    ensures ApiUrl(env, LessonsPrev(a)) == ApiUrl(env, LessonsPrev(b)) ==> a == b
  {
    NeighbourUrls(env, a);
    NeighbourUrls(env, b);
    var p := env.backend + "/api/lessons/";
    if ApiUrl(env, LessonsNext(a)) == ApiUrl(env, LessonsNext(b)) {
      CancelAffixes(p, a, b, "/next");
    }
    if ApiUrl(env, LessonsPrev(a)) == ApiUrl(env, LessonsPrev(b)) {
      CancelAffixes(p, a, b, "/prev");
    }
  }

  /** No next-lesson URL is ever a previous-lesson URL: their last
      characters differ (`t` against `v`). */
  lemma NextNeverPrev(env: Env, a: string, b: string)
    ensures ApiUrl(env, LessonsNext(a)) != ApiUrl(env, LessonsPrev(b))
  {
    NeighbourUrls(env, a);
    NeighbourUrls(env, b);
    var n := (env.backend + "/api/lessons/") + a + "/next";
    var v := (env.backend + "/api/lessons/") + b + "/prev";
    assert n[|n| - 1] == 't';
    assert v[|v| - 1] == 'v';
  }

  // Single table lookups, one per lemma, so that each proof unfolds the
  // table once.

  lemma LessonsUpdatePath(id: string)
    ensures EndpointPath(LessonsUpdate(id)) == "/api/lessons/" + id
  {
  }

  lemma LessonsDeletePath(id: string)
    ensures EndpointPath(LessonsDelete(id)) == "/api/lessons/" + id
  {
  }

  lemma LessonsDetailPath(id: string)
    ensures EndpointPath(LessonsDetail(id)) == "/api/lessons/" + id
  {
  }

  lemma CoursesEnrollPath(id: string)
    ensures EndpointPath(CoursesEnroll(id)) == "/api/enrollments/enroll/" + id
  {
  }

  lemma EnrollmentsEnrollPath(id: string)
    ensures EndpointPath(EnrollmentsEnroll(id)) == "/api/enrollments/enroll/" + id
  {
  }

  /** A lesson's update, delete and detail entries are one URL. */
  lemma SharedLessonUrls(env: Env, id: string)
    ensures ApiUrl(env, LessonsUpdate(id)) == ApiUrl(env, LessonsDelete(id))
    ensures ApiUrl(env, LessonsDelete(id)) == ApiUrl(env, LessonsDetail(id))
  {
    LessonsUpdatePath(id);
    LessonsDeletePath(id);
    LessonsDetailPath(id);
  }

  /** The two enrol entries are one URL. */
  lemma SharedEnrollUrls(env: Env, id: string)
    ensures ApiUrl(env, CoursesEnroll(id)) == ApiUrl(env, EnrollmentsEnroll(id))
  {
    CoursesEnrollPath(id);
    EnrollmentsEnrollPath(id);
  }

  /** The entries of `URLS.FILES`. */
  datatype FileRoute = Logo(filename: string) | Thumbnail(path: string) | Upload(path: string)

  /** `URLS.FILES.*`: a logo is looked up under `/logo/`, thumbnails and
      uploads are rewritten as given. */
  function FileUrl(env: Env, f: FileRoute): (r: string)
    ensures f.Logo? ==> r != "" && EndsWith(r, "/logo/" + f.filename)
    ensures !f.Logo? ==> r == BuildFileUrl(env, f.path)
  {
    match f
    case Logo(name) => BuildFileUrl(env, "/logo/" + name)
    case Thumbnail(p) => BuildFileUrl(env, p)
    case Upload(p) => BuildFileUrl(env, p)
  }

  /** A logo path is relative, so its URL is always the rewritten one. */
  lemma LogoIsRewritten(env: Env, name: string)
    ensures FileUrl(env, Logo(name)) ==
              (if UsesS3(env) then S3Url(env, "/logo/" + name) else BuildUrl(env, "/logo/" + name))
  {
    var p := "/logo/" + name;
    assert p[..4] == "/log";
    assert !StartsWith(p, "http");
  }
}
