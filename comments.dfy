/**
 * The `addComment` action: schema validation of the submitted form, the
 * in-handler origin guard, the optional reCAPTCHA decision, construction of
 * the one `comments` row (unapproved, with a normalised parent) and the
 * mapping of the stored row back to the caller.
 *
 * The reCAPTCHA service, the e-mail grammar and the database are oracles:
 * `siteverify` answers a request body, `isEmail` decides the e-mail check,
 * and a `StoreReply` is what the database says to the one insert.
 */
module CommentActions {
  import opened Wrappers
  import opened Strings
  import Origin
  import Middleware

  /** The environment the handler reads (`import.meta.env`). */
  datatype Env = Env(allowedDomain: Option<string>, recaptchaSecret: Option<string>)

  /** The two request headers the origin guard reads. */
  datatype Headers = Headers(origin: Option<string>, referer: Option<string>)

  // ---------------------------------------------------------------------------
  // Input schema
  // ---------------------------------------------------------------------------

  /** The submitted fields as decoded from the form; `None` is a missing field. */
  datatype FormFields = FormFields(
    postSlug: Option<string>,
    name: Option<string>,
    email: Option<string>,
    message: Option<string>,
    parentId: Option<string>,
    recaptchaToken: Option<string>)

  /** The schema's fields that can be rejected (`parentId` is optional and never is). */
  datatype Field = PostSlug | Name | Email | Message | RecaptchaToken

  /** One schema failure: the field and the message the schema attaches to it. */
  datatype Issue = Issue(field: Field, message: string)

  /** The handler's input once the schema accepted it. */
  datatype CommentInput = CommentInput(
    postSlug: string,
    name: string,
    email: string,
    message: string,
    parentId: Option<string>,
    recaptchaToken: string)

  /** What the schema demands of each field. */
  predicate FieldValid(f: FormFields, isEmail: string -> bool, field: Field) {
    match field
    case PostSlug => f.postSlug.Some?
    case Name => f.name.Some? && |f.name.value| >= 1
    case Email => f.email.Some? && isEmail(f.email.value)
    case Message => f.message.Some? && |f.message.value| >= 1
    case RecaptchaToken => f.recaptchaToken.Some? && |f.recaptchaToken.value| >= 1
  }

  /** `z.string().min(1, msg)`: a missing field is "Required", an empty one gets `msg`. */
  function MinOneIssues(field: Field, v: Option<string>, msg: string): (issues: seq<Issue>)
    ensures |issues| <= 1
    ensures forall k :: 0 <= k < |issues| ==> issues[k].field == field
    ensures issues == [] <==> v.Some? && |v.value| >= 1
  {
    if v.None? then [Issue(field, "Required")]
    else if |v.value| < 1 then [Issue(field, msg)]
    else []
  }

  /** `z.string().email(msg)`: a missing field is "Required", a malformed one gets `msg`. */
  function EmailIssues(v: Option<string>, isEmail: string -> bool): (issues: seq<Issue>)
    ensures |issues| <= 1
    ensures forall k :: 0 <= k < |issues| ==> issues[k].field == Email
    ensures issues == [] <==> v.Some? && isEmail(v.value)
  {
    if v.None? then [Issue(Email, "Required")]
    else if !isEmail(v.value) then [Issue(Email, "Valid email is required")]
    else []
  }

  /** Every schema failure, in the schema's field order. */
  function Issues(f: FormFields, isEmail: string -> bool): (issues: seq<Issue>)
    ensures |issues| <= 5
    ensures forall k :: 0 <= k < |issues| ==> !FieldValid(f, isEmail, issues[k].field)
  {
    (if f.postSlug.None? then [Issue(PostSlug, "Required")] else [])
    + MinOneIssues(Name, f.name, "Name is required")
    + EmailIssues(f.email, isEmail)
    + MinOneIssues(Message, f.message, "Comment cannot be empty")
    + MinOneIssues(RecaptchaToken, f.recaptchaToken, "Security token is missing")
  }

  /** The issues name exactly the fields that fail their rule. */
  lemma IssuesNameFailingFields(f: FormFields, isEmail: string -> bool, field: Field)
    ensures !FieldValid(f, isEmail, field) <==>
      exists k :: 0 <= k < |Issues(f, isEmail)| && Issues(f, isEmail)[k].field == field
  {
    var slug := if f.postSlug.None? then [Issue(PostSlug, "Required")] else [];
    var name := MinOneIssues(Name, f.name, "Name is required");
    var email := EmailIssues(f.email, isEmail);
    var message := MinOneIssues(Message, f.message, "Comment cannot be empty");
    var token := MinOneIssues(RecaptchaToken, f.recaptchaToken, "Security token is missing");
    var all := Issues(f, isEmail);
    assert all == slug + name + email + message + token;
    if !FieldValid(f, isEmail, field) {
      match field
      case PostSlug => assert all[0].field == PostSlug;
      case Name => assert all[|slug|].field == Name;
      case Email => assert all[|slug| + |name|].field == Email;
      case Message => assert all[|slug| + |name| + |email|].field == Message;
      case RecaptchaToken => assert all[|slug| + |name| + |email| + |message|].field == RecaptchaToken;
    }
  }

  /**
   * The input schema: the form is accepted exactly when every field meets
   * its rule, and then the handler gets the submitted values unchanged;
   * otherwise the result lists the failing fields and nothing else runs.
   */
  function Validate(f: FormFields, isEmail: string -> bool): (r: Result<CommentInput, seq<Issue>>)
    ensures r.Success? <==> forall field: Field :: FieldValid(f, isEmail, field)
    ensures r.Success? ==>
      && Some(r.value.postSlug) == f.postSlug && Some(r.value.name) == f.name
      && Some(r.value.email) == f.email && Some(r.value.message) == f.message
      && r.value.parentId == f.parentId && Some(r.value.recaptchaToken) == f.recaptchaToken
    ensures r.Failure? ==> r.error != [] && r.error == Issues(f, isEmail)
  {
    var issues := Issues(f, isEmail);
    assert issues == [] <==> forall field: Field :: FieldValid(f, isEmail, field) by {
      forall field: Field { IssuesNameFailingFields(f, isEmail, field); }
      assert issues != [] ==> !FieldValid(f, isEmail, issues[0].field);
    }
    if issues == [] then
      Success(CommentInput(f.postSlug.value, f.name.value, f.email.value, f.message.value,
                           f.parentId, f.recaptchaToken.value))
    else
      Failure(issues)
  }

  /** `parentId` never affects whether the schema accepts a form. */
  lemma ParentIdNeverRejected(f: FormFields, isEmail: string -> bool, p: Option<string>)
    ensures Validate(f, isEmail).Success? == Validate(f.(parentId := p), isEmail).Success?
  {
    var g := f.(parentId := p);
    assert forall field: Field :: FieldValid(f, isEmail, field) == FieldValid(g, isEmail, field);
  }

  // ---------------------------------------------------------------------------
  // Handler stages before the insert
  // ---------------------------------------------------------------------------

  /** Whether the handler carries on, or throws an `Error` with this message. */
  datatype Verdict = Proceed | Throw(message: string)

  const OriginRejectedMessage: string := "Unauthorized origin. Submission blocked."
  const VerificationFailedMessage: string := "Security verification failed. Please try again."
  const SaveFailedPrefix: string := "Failed to save comment to database: "

  /** The in-handler origin guard: the same predicate as the edge middleware's. */
  function OriginStage(env: Env, h: Headers): (v: Verdict)
    ensures v == Proceed <==> Origin.GuardPasses(env.allowedDomain, h.origin, h.referer)
    ensures v != Proceed ==> v == Throw(OriginRejectedMessage)
  {
    if Origin.GuardPasses(env.allowedDomain, h.origin, h.referer) then Proceed
    else Throw(OriginRejectedMessage)
  }

  /** The parsed siteverify answer; an absent `score` is `None`. */
  datatype RecaptchaData = RecaptchaData(success: bool, score: Option<real>)

  /** What `fetch` + `response.json()` give: an answer, or an exception with its message. */
  datatype SiteverifyReply = Answered(data: RecaptchaData) | FetchFailed(message: string)

  /** The form-encoded request body, concatenated without URL encoding. */
  function SiteverifyBody(secret: string, token: string): (body: string)
    ensures StartsWith(body, "secret=")
    ensures |body| == |secret| + |token| + 17
    ensures body[7..7 + |secret|] == secret
    ensures body[7 + |secret|..17 + |secret|] == "&response="
    ensures body[17 + |secret|..] == token
  {
    "secret=" + secret + "&response=" + token
  }

  /**
   * `!success || score < 0.5`: in JavaScript a missing score compared with
   * `< 0.5` is false, so a missing score does not reject.
   */
  predicate RecaptchaRejects(d: RecaptchaData)
    ensures !RecaptchaRejects(d) <==> d.success && (d.score.None? || d.score.value >= 0.5)
  {
    !d.success || (d.score.Some? && d.score.value < 0.5)
  }

  /**
   * The reCAPTCHA stage: skipped without a secret; with one, the service is
   * asked once and its answer accepted exactly when `success` holds and the
   * score is absent or at least 0.5. A failing fetch propagates its own error.
   */
  function RecaptchaStage(secret: Option<string>, token: string,
                          siteverify: string -> SiteverifyReply): (v: Verdict)
    ensures !Truthy(secret) ==> v == Proceed
    ensures Truthy(secret) && siteverify(SiteverifyBody(secret.value, token)).FetchFailed? ==>
      v == Throw(siteverify(SiteverifyBody(secret.value, token)).message)
    ensures Truthy(secret) && siteverify(SiteverifyBody(secret.value, token)).Answered? ==>
      var d := siteverify(SiteverifyBody(secret.value, token)).data;
      && (v == Proceed <==> d.success && (d.score.None? || d.score.value >= 0.5))
      && (v != Proceed ==> v == Throw(VerificationFailedMessage))
  {
    if !Truthy(secret) then Proceed
    else
      match siteverify(SiteverifyBody(secret.value, token))
      case FetchFailed(m) => Throw(m)
      case Answered(d) => if RecaptchaRejects(d) then Throw(VerificationFailedMessage) else Proceed
  }

  /** The body sent to the reCAPTCHA service, if the handler gets as far as sending one. */
  function SiteverifyRequest(env: Env, h: Headers, input: CommentInput): (req: Option<string>)
    ensures req.Some? <==> Origin.GuardPasses(env.allowedDomain, h.origin, h.referer) && Truthy(env.recaptchaSecret)
  {
    if OriginStage(env, h) == Proceed && Truthy(env.recaptchaSecret)
    then Some(SiteverifyBody(env.recaptchaSecret.value, input.recaptchaToken))
    else None
  }

  /** Every stage of the handler before the insert: origin guard, then reCAPTCHA. */
  function PreInsert(env: Env, h: Headers, input: CommentInput,
                     siteverify: string -> SiteverifyReply): (v: Verdict)
    ensures OriginStage(env, h) != Proceed ==> v == Throw(OriginRejectedMessage)
    ensures OriginStage(env, h) == Proceed ==>
      v == RecaptchaStage(env.recaptchaSecret, input.recaptchaToken, siteverify)
  {
    match OriginStage(env, h)
    case Throw(m) => Throw(m)
    case Proceed => RecaptchaStage(env.recaptchaSecret, input.recaptchaToken, siteverify)
  }

  /**
   * The handler consults the reCAPTCHA service at most once, with the body
   * `SiteverifyRequest` names, and not at all when that is `None`: two
   * services that agree on that one body cannot be told apart.
   */
  lemma SiteverifyConsultedOnlyAtRequest(env: Env, h: Headers, input: CommentInput,
                                         sv1: string -> SiteverifyReply, sv2: string -> SiteverifyReply)
    requires SiteverifyRequest(env, h, input).Some? ==>
      sv1(SiteverifyRequest(env, h, input).value) == sv2(SiteverifyRequest(env, h, input).value)
    ensures PreInsert(env, h, input, sv1) == PreInsert(env, h, input, sv2)
  {
  }

  // ---------------------------------------------------------------------------
  // Persistence
  // ---------------------------------------------------------------------------

  /** The row the handler inserts into `comments` (columns `post_slug` … `is_approved`). */
  datatype InsertRow = InsertRow(
    postSlug: string,
    name: string,
    email: string,
    message: string,
    parentId: Option<string>,
    isApproved: bool)

  /** `parentId || null`: an absent or empty parent becomes `null`. */
  function ParentOrNull(p: Option<string>): (r: Option<string>)
    ensures r.Some? <==> p.Some? && p.value != ""
    ensures r.Some? ==> r == p
  {
    if Truthy(p) then p else None
  }

  /** The one row the handler inserts: the submitted fields, a normalised parent, never pre-approved. */
  function NewRow(input: CommentInput): (row: InsertRow)
    ensures !row.isApproved
    ensures row.postSlug == input.postSlug && row.name == input.name
    ensures row.email == input.email && row.message == input.message
    ensures row.parentId.Some? <==> Truthy(input.parentId)
    ensures row.parentId.Some? ==> row.parentId == input.parentId
  {
    InsertRow(input.postSlug, input.name, input.email, input.message, ParentOrNull(input.parentId), false)
  }

  /** A row as the database holds it, with its server-assigned `id` and `created_at`. */
  datatype StoredRow = StoredRow(id: string, createdAt: string, row: InsertRow)

  /** The database's answer to `insert(...).select().single()`. */
  datatype StoreReply = Accepted(id: string, createdAt: string) | StoreError(message: string)

  /** The action's return value: the stored row renamed to camelCase (no parent field). */
  datatype CommentView = CommentView(
    id: string,
    postSlug: string,
    name: string,
    email: string,
    message: string,
    createdAt: string,
    isApproved: bool)

  /** The response mapping: every returned field is the stored row's column of that name. */
  function ToView(s: StoredRow): (v: CommentView)
    ensures v.id == s.id && v.createdAt == s.createdAt && v.isApproved == s.row.isApproved
    ensures v.postSlug == s.row.postSlug && v.name == s.row.name
    ensures v.email == s.row.email && v.message == s.row.message
  {
    CommentView(s.id, s.row.postSlug, s.row.name, s.row.email, s.row.message, s.createdAt, s.row.isApproved)
  }

  // ---------------------------------------------------------------------------
  // The whole action
  // ---------------------------------------------------------------------------

  /**
   * What the caller gets: the stored comment, the schema's issues, or the
   * message of an `Error` the handler threw.
   */
  datatype ActionResult = Saved(comment: CommentView) | InputError(issues: seq<Issue>) | Failed(message: string)

  /** The result of one submission and the rows it added to `comments`. */
  datatype Run = Run(result: ActionResult, inserted: seq<StoredRow>)

  /**
   * One submission, end to end: at most one row is added, only after the
   * schema, the origin guard and the reCAPTCHA stage all pass, and only if
   * the database accepts it; that row is never approved, and its camelCase
   * copy is what the caller gets.
   */
  function Submission(env: Env, h: Headers, f: FormFields, isEmail: string -> bool,
                      siteverify: string -> SiteverifyReply, store: StoreReply): (run: Run)
    ensures |run.inserted| <= 1
    ensures run.inserted != [] <==> run.result.Saved?
    ensures run.result.Saved? <==>
      && Validate(f, isEmail).Success?
      && PreInsert(env, h, Validate(f, isEmail).value, siteverify) == Proceed
      && store.Accepted?
    ensures forall k :: 0 <= k < |run.inserted| ==> !run.inserted[k].row.isApproved
    ensures run.result.Saved? ==> run.result.comment == ToView(run.inserted[0]) && !run.result.comment.isApproved
    ensures run.result.InputError? <==> Validate(f, isEmail).Failure?
    ensures run.result.InputError? ==> run.result.issues == Validate(f, isEmail).error
    ensures Validate(f, isEmail).Success? && PreInsert(env, h, Validate(f, isEmail).value, siteverify).Throw? ==>
      run == Run(Failed(PreInsert(env, h, Validate(f, isEmail).value, siteverify).message), [])
    ensures run.inserted != [] ==>
      run.inserted[0] == StoredRow(store.id, store.createdAt, NewRow(Validate(f, isEmail).value))
  {
    match Validate(f, isEmail)
    case Failure(issues) => Run(InputError(issues), [])
    case Success(input) =>
      match PreInsert(env, h, input, siteverify)
      case Throw(m) => Run(Failed(m), [])
      case Proceed =>
        match store
        case StoreError(m) => Run(Failed(SaveFailedPrefix + m), [])
        case Accepted(id, createdAt) =>
          var stored := StoredRow(id, createdAt, NewRow(input));
          Run(Saved(ToView(stored)), [stored])
  }

  /** An origin rejection ends the action: no reCAPTCHA answer and no database reply matters. */
  lemma OriginRejectionStopsEverything(env: Env, h: Headers, f: FormFields, isEmail: string -> bool,
                                       siteverify: string -> SiteverifyReply, store: StoreReply)
    requires Validate(f, isEmail).Success?
    requires !Origin.GuardPasses(env.allowedDomain, h.origin, h.referer)
    ensures Submission(env, h, f, isEmail, siteverify, store) == Run(Failed(OriginRejectedMessage), [])
    ensures SiteverifyRequest(env, h, Validate(f, isEmail).value).None?
  {
  }

  /** A low score rejects the submission and nothing is written. */
  lemma LowScoreRejected(env: Env, h: Headers, f: FormFields, isEmail: string -> bool,
                         siteverify: string -> SiteverifyReply, store: StoreReply, score: real)
    requires Validate(f, isEmail).Success?
    requires Origin.GuardPasses(env.allowedDomain, h.origin, h.referer)
    requires Truthy(env.recaptchaSecret)
    requires siteverify(SiteverifyBody(env.recaptchaSecret.value, f.recaptchaToken.value))
             == Answered(RecaptchaData(true, Some(score)))
    requires score < 0.5
    ensures Submission(env, h, f, isEmail, siteverify, store) == Run(Failed(VerificationFailedMessage), [])
  {
  }

  /** A successful answer without a score passes verification. */
  lemma MissingScoreAccepted(env: Env, h: Headers, input: CommentInput, siteverify: string -> SiteverifyReply)
    requires Origin.GuardPasses(env.allowedDomain, h.origin, h.referer)
    requires Truthy(env.recaptchaSecret)
    requires siteverify(SiteverifyBody(env.recaptchaSecret.value, input.recaptchaToken))
             == Answered(RecaptchaData(true, None))
    ensures PreInsert(env, h, input, siteverify) == Proceed
  {
  }

  /** Without a secret the service is never asked and the flow goes on to the insert. */
  lemma NoSecretSkipsVerification(env: Env, h: Headers, input: CommentInput, siteverify: string -> SiteverifyReply)
    requires !Truthy(env.recaptchaSecret)
    ensures SiteverifyRequest(env, h, input).None?
    ensures PreInsert(env, h, input, siteverify) == OriginStage(env, h)
  {
  }

  /** A database error surfaces as a prefixed message, with the database's own text, and no row. */
  lemma StoreErrorReported(env: Env, h: Headers, f: FormFields, isEmail: string -> bool,
                           siteverify: string -> SiteverifyReply, message: string)
    requires Validate(f, isEmail).Success?
    requires PreInsert(env, h, Validate(f, isEmail).value, siteverify) == Proceed
    ensures Submission(env, h, f, isEmail, siteverify, StoreError(message))
            == Run(Failed(SaveFailedPrefix + message), [])
  {
  }

  /** The edge middleware, on an action path, and the handler's own guard agree. */
  lemma EdgeAndHandlerAgree(pathname: string, env: Env, h: Headers)
    requires StartsWith(pathname, Middleware.ActionsPrefix)
    ensures Middleware.OnRequest(pathname, env.allowedDomain, h.origin, h.referer).Next?
            <==> OriginStage(env, h) == Proceed
  {
  }

  // ---------------------------------------------------------------------------
  // End-to-end scenarios
  // ---------------------------------------------------------------------------

  function ScenarioForm(): FormFields {
    FormFields(Some("intro-course"), Some("Jane Doe"), Some("jane@example.com"),
               Some("Great class!"), None, Some("token"))
  }

  /** Open configuration: the stored row is unapproved, has no parent, and is returned. */
  lemma ScenarioOpenConfiguration(h: Headers, isEmail: string -> bool,
                                  siteverify: string -> SiteverifyReply, id: string, createdAt: string)
    requires isEmail("jane@example.com")
    ensures var run := Submission(Env(None, None), h, ScenarioForm(), isEmail, siteverify, Accepted(id, createdAt));
      && run.inserted == [StoredRow(id, createdAt,
                                    InsertRow("intro-course", "Jane Doe", "jane@example.com", "Great class!", None, false))]
      && run.result == Saved(CommentView(id, "intro-course", "Jane Doe", "jane@example.com", "Great class!", createdAt, false))
  {
    assert forall field: Field :: FieldValid(ScenarioForm(), isEmail, field);
  }

  /** A foreign origin with the domain configured and no referer is rejected. */
  lemma ScenarioForeignOrigin(isEmail: string -> bool, siteverify: string -> SiteverifyReply, store: StoreReply)
    requires isEmail("jane@example.com")
    ensures Submission(Env(Some("livefireinstruction.com"), None),
                       Headers(Some("https://evil.example.com"), None),
                       ScenarioForm(), isEmail, siteverify, store)
            == Run(Failed(OriginRejectedMessage), [])
  {
    assert forall field: Field :: FieldValid(ScenarioForm(), isEmail, field);
    NotContainsByFirstChar("https://evil.example.com", "livefireinstruction.com");
  }

  /** An attacker host that embeds the allowed domain gets through the guard. */
  lemma ScenarioEmbeddingHostAccepted(isEmail: string -> bool, id: string, createdAt: string,
                                      siteverify: string -> SiteverifyReply)
    requires isEmail("jane@example.com")
    ensures Submission(Env(Some("livefireinstruction.com"), None),
                       Headers(Some("https://" + "livefireinstruction.com" + ".attacker.example"), None),
                       ScenarioForm(), isEmail, siteverify, Accepted(id, createdAt)).result.Saved?
  {
    assert forall field: Field :: FieldValid(ScenarioForm(), isEmail, field);
    Origin.EmbeddedDomainPasses("livefireinstruction.com", "https://", ".attacker.example", None);
  }

  /** A malformed e-mail is reported against the e-mail field alone and nothing is written. */
  lemma ScenarioBadEmail(env: Env, h: Headers, isEmail: string -> bool,
                         siteverify: string -> SiteverifyReply, store: StoreReply)
    requires !isEmail("not-an-email")
    ensures Submission(env, h, ScenarioForm().(email := Some("not-an-email")), isEmail, siteverify, store)
            == Run(InputError([Issue(Email, "Valid email is required")]), [])
  {
  }

  /** A rejected answer from the service blocks the insert. */
  lemma ScenarioChallengeFailed(isEmail: string -> bool, siteverify: string -> SiteverifyReply, store: StoreReply)
    requires isEmail("jane@example.com")
    requires siteverify(SiteverifyBody("secret", "token")) == Answered(RecaptchaData(false, None))
    ensures Submission(Env(None, Some("secret")), Headers(None, None), ScenarioForm(), isEmail, siteverify, store)
            == Run(Failed(VerificationFailedMessage), [])
  {
    assert forall field: Field :: FieldValid(ScenarioForm(), isEmail, field);
  }

  /** A reply keeps its parent id as given, with no check that the parent exists. */
  lemma ScenarioReply(isEmail: string -> bool, siteverify: string -> SiteverifyReply, id: string, createdAt: string)
    requires isEmail("jane@example.com")
    ensures Submission(Env(None, None), Headers(None, None), ScenarioForm().(parentId := Some("abc123")),
                       isEmail, siteverify, Accepted(id, createdAt)).inserted[0].row.parentId == Some("abc123")
  {
    assert forall field: Field :: FieldValid(ScenarioForm().(parentId := Some("abc123")), isEmail, field);
  }

  // ---------------------------------------------------------------------------
  // The `comments` table and the action as it runs against it
  // ---------------------------------------------------------------------------

  /** The `comments` table, as far as this action can see it: rows are only ever appended. */
  class CommentsTable {
    var rows: seq<StoredRow>

    /** Every row is still awaiting moderation. */
    predicate AllPending()
      reads this
    {
      forall k :: 0 <= k < |rows| ==> !rows[k].row.isApproved
    }

    constructor ()
      ensures rows == []
    {
      rows := [];
    }

    /** `insert([row]).select().single()`: one row appended, or the database's error and no change. */
    method Insert(row: InsertRow, reply: StoreReply) returns (r: Result<StoredRow, string>)
      modifies this
      ensures reply.Accepted? ==> r == Success(StoredRow(reply.id, reply.createdAt, row)) && rows == old(rows) + [r.value]
      ensures reply.StoreError? ==> r == Failure(reply.message) && rows == old(rows)
    {
      match reply
      case StoreError(m) =>
        r := Failure(m);
      case Accepted(id, createdAt) =>
        var stored := StoredRow(id, createdAt, row);
        rows := rows + [stored];
        r := Success(stored);
    }
  }

  /**
   * The `addComment` action run against the table: it returns what
   * `Submission` says and appends exactly the rows `Submission` inserts, so
   * a table of pending comments stays one.
   */
  method AddComment(table: CommentsTable, env: Env, h: Headers, f: FormFields, isEmail: string -> bool,
                    siteverify: string -> SiteverifyReply, store: StoreReply) returns (result: ActionResult)
    modifies table
    ensures result == Submission(env, h, f, isEmail, siteverify, store).result
    ensures table.rows == old(table.rows) + Submission(env, h, f, isEmail, siteverify, store).inserted
    ensures old(table.AllPending()) ==> table.AllPending()
  {
    var validated := Validate(f, isEmail);
    if validated.Failure? {
      return InputError(validated.error);
    }
    var input := validated.value;
    var verdict := PreInsert(env, h, input, siteverify);
    if verdict.Throw? {
      return Failed(verdict.message);
    }
    var saved := table.Insert(NewRow(input), store);
    if saved.Failure? {
      return Failed(SaveFailedPrefix + saved.error);
    }
    result := Saved(ToView(saved.value));
  }
}
