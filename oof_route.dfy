/** The out-of-office API (app/app/api/oof/route.ts): GET reads the mailbox's
    automatic-reply setting; POST validates, runs the Graph or n8n backend, audits
    the outcome once and answers. */
module OofRoute {
  import opened Common
  import opened Validators
  import opened Store
  import opened Execution
  import Graph
  import Auth

  const SetOofAction := "set-oof"
  const GraphSetMessage := "OOF settings updated successfully"
  const GetFallback := "Failed to get OOF settings"
  const SetFallback := "Failed to set OOF settings"

  /** The parsed JSON body of a POST: `settings` and `mode`, each possibly absent. */
  datatype SetOofRequest = SetOofRequest(settings: Option<RawOofSettings>, mode: Option<string>)

  function DateTimeJson(d: DateTimeTimeZone): Json {
    JObj([Field("dateTime", JStr(d.dateTime)), Field("timeZone", JStr(d.timeZone))])
  }

  /** Validated settings as a JSON object: absent optional fields are left out. */
  function SettingsJson(s: OofSettings): (j: Json)
    ensures j.JObj? && Get(j.fields, "status") == JStr(StatusName(s.status))
  {
    JObj([Field("status", JStr(StatusName(s.status)))]
         + (if s.internalReplyMessage.Some? then [Field("internalReplyMessage", JStr(s.internalReplyMessage.value))] else [])
         + (if s.externalReplyMessage.Some? then [Field("externalReplyMessage", JStr(s.externalReplyMessage.value))] else [])
         + (if s.scheduledStartDateTime.Some? then [Field("scheduledStartDateTime", DateTimeJson(s.scheduledStartDateTime.value))] else [])
         + (if s.scheduledEndDateTime.Some? then [Field("scheduledEndDateTime", DateTimeJson(s.scheduledEndDateTime.value))] else []))
  }

  /** What GET answers for the outcome of `getCurrentOofSettings`. */
  function OofView(r: Result<Option<OofSettings>>): (reply: Reply)
    ensures r.Err? ==> reply == Caught(r.error, GetFallback)
    ensures r.Ok? ==> reply.Success?
    ensures r.Ok? && r.value.Some? ==> reply == Success(SettingsJson(r.value.value))
  {
    match r
    case Err(e) => Caught(e, GetFallback)
    case Ok(None) => Success(JUndefined)
    case Ok(Some(s)) => Success(SettingsJson(s))
  }

  /** GET /api/oof for the signed-in user `current`, against that user's mailbox. */
  method HandleGet(mailbox: Graph.Mailbox, current: Option<UserProfile>, b: Backends) returns (reply: Reply)
    ensures current.None? ==> reply == Caught(Error(Auth.AuthenticationRequiredMessage, None), GetFallback)
    ensures current.Some? ==>
      reply == OofView(Graph.Fetch(b.token, Graph.Answer(b.fails, mailbox.automaticReplies)).result)
    ensures current.Some? && reply.Success? ==> mailbox.automaticReplies.Some? ==>
      reply.data == SettingsJson(mailbox.automaticReplies.value)
  {
    var user := Auth.RequireAuth(current);
    if user.Err? {
      return Caught(user.error, GetFallback);
    }
    var settings := mailbox.GetCurrentOofSettings(b.token, b.fails);
    reply := OofView(settings);
  }

  /** Lines 46-51 of POST, before the inner `try`: authenticate, read the body,
      validate the settings and choose the mode. Any failure is answered at once. */
  function PrepareSet(current: Option<UserProfile>, body: Result<SetOofRequest>, env: Environment)
    : (p: Plan<OofSettings>)
    ensures p.Proceed? <==>
      current.Some? && body.Ok? && ParseOofSettings(body.value.settings).Ok?
      && ChooseMode(body.value.mode, env.executionMode).Ok?
    ensures current.None? ==> p == Reject(Caught(Error(Auth.AuthenticationRequiredMessage, None), SetFallback))
    ensures p.Proceed? ==>
      && p.input == ParseOofSettings(body.value.settings).value
      && ScheduleComplete(p.input)
      && p.job == Job(current.value, SetOofAction, ChooseMode(body.value.mode, env.executionMode).value,
                     SettingsJson(p.input))
  {
    match Auth.RequireAuth(current)
    case Err(e) => Reject(Caught(e, SetFallback))
    case Ok(user) =>
      match body
      case Err(e) => Reject(Caught(e, SetFallback))
      case Ok(request) =>
        match ParseOofSettings(request.settings)
        case Err(e) => Reject(Caught(e, SetFallback))
        case Ok(settings) =>
          match ChooseMode(request.mode, env.executionMode)
          case Err(e) => Reject(Caught(e, SetFallback))
          case Ok(mode) => Proceed(Job(user, SetOofAction, mode, SettingsJson(settings)), settings)
  }

  /** What the inner `try` yields: Graph's `setOof` then `{message}`, or the n8n
      call with the settings as `data`. */
  function SetOutcome(b: Backends, job: Job): Result<Json> {
    match job.mode
    case Graph => GraphOutcome(Graph.Performed(b.token, b.fails), GraphSetMessage)
    case N8n => N8nOutcome(b, job, job.payload)
  }

  /** POST /api/oof at time `now`. */
  method HandlePost(db: Database, mailbox: Graph.Mailbox, current: Option<UserProfile>, body: Result<SetOofRequest>,
                    env: Environment, b: Backends, now: nat, auditFault: Option<Error>)
    returns (reply: Reply)
    modifies db, mailbox
    ensures db.profiles == old(db.profiles) && db.secrets == old(db.secrets) && db.nextDocId == old(db.nextDocId)
    ensures mailbox.rules == old(mailbox.rules) && mailbox.nextId == old(mailbox.nextId)
    ensures var p := PrepareSet(current, body, env);
      p.Reject? ==>
        reply == p.reply && db.auditLogs == old(db.auditLogs) && mailbox.automaticReplies == old(mailbox.automaticReplies)
    ensures var p := PrepareSet(current, body, env);
      p.Proceed? ==>
        var outcome := SetOutcome(b, p.job);
        && reply == ReplyFor(outcome, SetFallback)
        && db.auditLogs == old(db.auditLogs) + (if auditFault.None? then [AuditLog(AuditFor(p.job, outcome), now)] else [])
        && mailbox.automaticReplies ==
             (if p.job.mode == Graph && outcome.Ok? then Some(p.input) else old(mailbox.automaticReplies))
  {
    var plan := PrepareSet(current, body, env);
    if plan.Reject? {
      return plan.reply;
    }
    var job, settings := plan.job, plan.input;
    var outcome: Result<Json>;
    if job.mode == Graph {
      var done := mailbox.SetOof(b.token, b.fails, settings);
      outcome := GraphOutcome(done, GraphSetMessage);
    } else {
      outcome := Notify(b, job, job.payload);
    }
    reply := Conclude(db, job, outcome, SetFallback, now, auditFault);
  }

  /** A valid Graph-mode POST whose sign-in has expired (the first token request
      fails as `getAccessToken` does) is answered 500 with the sign-in message. */
  lemma ExpiredSignInIs500(current: Option<UserProfile>, body: Result<SetOofRequest>, env: Environment, b: Backends)
    requires PrepareSet(current, body, env).Proceed? && PrepareSet(current, body, env).job.mode == Graph
    requires Graph.FailsLikeGetAccessToken(b.token) && b.token(1).Err?
    ensures ReplyFor(SetOutcome(b, PrepareSet(current, body, env).job), SetFallback)
            == Failure(500, Graph.AuthFailedMessage)
  {
    GraphTokenFailureIs500(b.token, b.fails, GraphSetMessage, SetFallback);
  }

  /** A request without a signed-in user is answered 401, before anything runs. */
  lemma UnauthenticatedIs401(body: Result<SetOofRequest>, env: Environment)
    ensures var p := PrepareSet(None, body, env);
      p.Reject? && StatusCode(p.reply) == 401 && p.reply.error == Auth.AuthenticationRequiredMessage
  {
    AuthenticationRequiredIs401();
  }

  /** Invalid settings or an unknown mode are answered 500 (not 400): none of the
      validation messages contains 'Authentication'. */
  lemma InvalidInputIs500(user: UserProfile, request: SetOofRequest, env: Environment)
    ensures var p := PrepareSet(Some(user), Ok(request), env);
      p.Reject? ==> StatusCode(p.reply) == 500
  {
    var p := PrepareSet(Some(user), Ok(request), env);
    var parsed := ParseOofSettings(request.settings);
    if parsed.Err? {
      ValidationMessageIs500(parsed.error.message);
    } else if ChooseMode(request.mode, env.executionMode).Err? {
      ValidationMessageIs500(InvalidModeMessage);
    }
  }

  /** With neither a requested nor a configured mode, valid settings go to Graph. */
  lemma DefaultsToGraph(user: UserProfile, settings: RawOofSettings, env: Environment)
    requires !Truthy(env.executionMode)
    requires ParseOofSettings(Some(settings)).Ok?
    ensures var p := PrepareSet(Some(user), Ok(SetOofRequest(Some(settings), None)), env);
      p.Proceed? && p.job.mode == Graph
  {
  }
}
