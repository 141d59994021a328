/** The forwarding API (app/app/api/forwarding/route.ts): GET reports the
    mailbox's forwarding rule; POST validates a rule, refuses external addresses
    unless allowed, runs the backend and audits; DELETE needs a `forwardTo`
    query parameter, runs the backend and audits. */
module ForwardingRoute {
  import opened Common
  import opened Validators
  import opened Store
  import opened Execution
  import Graph
  import Auth

  const SetForwardingAction := "set-forwarding"
  const ClearForwardingAction := "clear-forwarding"
  const GraphCreatedMessage := "Forwarding rule created successfully"
  const GraphDeletedMessage := "Forwarding rule deleted successfully"
  const ForwardToRequiredMessage := "forwardTo parameter is required"
  const GetFallback := "Failed to get forwarding status"
  const PostFallback := "Failed to create forwarding rule"
  const DeleteFallback := "Failed to delete forwarding rule"

  /** The parsed JSON body of a POST: `rule` and `mode`, each possibly absent. */
  datatype CreateRequest = CreateRequest(rule: Option<RawForwardingRule>, mode: Option<string>)

  /** The query of a DELETE: `forwardTo` and `mode`, `null` when absent. */
  datatype DeleteQuery = DeleteQuery(forwardTo: Option<string>, mode: Option<string>)

  /** A validated rule as a JSON object. */
  function RuleJson(rule: ForwardingRule): (j: Json)
    ensures j.JObj? && Get(j.fields, "forwardTo") == JStr(rule.forwardTo)
  {
    JObj([Field("forwardTo", JStr(rule.forwardTo)), Field("keepCopy", JBool(rule.keepCopy)),
          Field("enabled", JBool(rule.enabled))])
  }

  /** `{ forwardTo }`. */
  function ForwardToJson(forwardTo: string): Json {
    Single("forwardTo", JStr(forwardTo))
  }

  /** The forwarding state as a JSON object; absent fields are left out. */
  function StateJson(s: Graph.ForwardingState): (j: Json)
    ensures j.JObj? && Get(j.fields, "hasRule") == JBool(s.hasRule)
  {
    JObj([Field("hasRule", JBool(s.hasRule))]
         + (if s.forwardTo.Some? then [Field("forwardTo", JStr(s.forwardTo.value))] else [])
         + (if s.keepCopy.Some? then [Field("keepCopy", JBool(s.keepCopy.value))] else []))
  }

  /** GET /api/forwarding: once authenticated it always succeeds, because
      `getForwardingStatus` answers "no rule" instead of failing. */
  method HandleGet(mailbox: Graph.Mailbox, current: Option<UserProfile>, b: Backends) returns (reply: Reply)
    ensures current.None? ==> reply == Caught(Error(Auth.AuthenticationRequiredMessage, None), GetFallback)
    ensures current.Some? ==>
      reply == Success(StateJson(Graph.ForwardingStatus(Graph.Fetch(b.token, Graph.Answer(b.fails, mailbox.rules)).result)))
  {
    var user := Auth.RequireAuth(current);
    if user.Err? {
      return Caught(user.error, GetFallback);
    }
    var status := mailbox.GetForwardingStatus(b.token, b.fails);
    reply := Success(StateJson(status));
  }

  /** Lines 47-61 of POST: authenticate, read the body, validate the rule, choose
      the mode, then refuse an external address with 403 unless allowed. */
  function PreparePost(current: Option<UserProfile>, body: Result<CreateRequest>, env: Environment)
    : (p: Plan<ForwardingRule>)
    ensures current.None? ==> p == Reject(Caught(Error(Auth.AuthenticationRequiredMessage, None), PostFallback))
    ensures p.Proceed? <==>
      && current.Some? && body.Ok? && ParseForwardingRule(body.value.rule).Ok?
      && ChooseMode(body.value.mode, env.executionMode).Ok?
      && ValidateExternalForwarding(ParseForwardingRule(body.value.rule).value.forwardTo, current.value.email,
                                    env.allowExternalForwarding).valid
    ensures p.Proceed? ==>
      && p.input == ParseForwardingRule(body.value.rule).value
      && p.job == Job(current.value, SetForwardingAction, ChooseMode(body.value.mode, env.executionMode).value,
                     RuleJson(p.input))
    ensures
      && current.Some? && body.Ok? && ParseForwardingRule(body.value.rule).Ok?
      && ChooseMode(body.value.mode, env.executionMode).Ok? ==>
      var v := ValidateExternalForwarding(ParseForwardingRule(body.value.rule).value.forwardTo, current.value.email,
                                          env.allowExternalForwarding);
      !v.valid ==> p == Reject(Failure(403, v.error.value))
  {
    match Auth.RequireAuth(current)
    case Err(e) => Reject(Caught(e, PostFallback))
    case Ok(user) =>
      match body
      case Err(e) => Reject(Caught(e, PostFallback))
      case Ok(request) =>
        match ParseForwardingRule(request.rule)
        case Err(e) => Reject(Caught(e, PostFallback))
        case Ok(rule) =>
          match ChooseMode(request.mode, env.executionMode)
          case Err(e) => Reject(Caught(e, PostFallback))
          case Ok(mode) =>
            var validation := ValidateExternalForwarding(rule.forwardTo, user.email, env.allowExternalForwarding);
            if !validation.valid then Reject(Failure(403, validation.error.value))
            else Proceed(Job(user, SetForwardingAction, mode, RuleJson(rule)), rule)
  }

  /** What POST's inner `try` yields: Graph's `createForwardingRule` then
      `{message}`, or the n8n call with the rule as `data`. */
  function PostOutcome(b: Backends, job: Job): Result<Json> {
    match job.mode
    case Graph => GraphOutcome(Graph.Performed(b.token, b.fails), GraphCreatedMessage)
    case N8n => N8nOutcome(b, job, job.payload)
  }

  /** POST /api/forwarding at time `now`. */
  method HandlePost(db: Database, mailbox: Graph.Mailbox, current: Option<UserProfile>, body: Result<CreateRequest>,
                    env: Environment, b: Backends, now: nat, auditFault: Option<Error>)
    returns (reply: Reply)
    modifies db, mailbox
    ensures db.profiles == old(db.profiles) && db.secrets == old(db.secrets) && db.nextDocId == old(db.nextDocId)
    ensures mailbox.automaticReplies == old(mailbox.automaticReplies)
    ensures var p := PreparePost(current, body, env);
      p.Reject? ==>
        && reply == p.reply && db.auditLogs == old(db.auditLogs)
        && mailbox.rules == old(mailbox.rules) && mailbox.nextId == old(mailbox.nextId)
    ensures var p := PreparePost(current, body, env);
      p.Proceed? ==>
        var outcome := PostOutcome(b, p.job);
        && reply == ReplyFor(outcome, PostFallback)
        && db.auditLogs == old(db.auditLogs) + (if auditFault.None? then [AuditLog(AuditFor(p.job, outcome), now)] else [])
        && (if p.job.mode == Graph && outcome.Ok?
            then mailbox.rules == old(mailbox.rules) + [Graph.RuleBody(p.input).(id := old(mailbox.nextId))]
                 && mailbox.nextId == old(mailbox.nextId) + 1
            else mailbox.rules == old(mailbox.rules) && mailbox.nextId == old(mailbox.nextId))
  {
    var plan := PreparePost(current, body, env);
    if plan.Reject? {
      return plan.reply;
    }
    var job, rule := plan.job, plan.input;
    var outcome: Result<Json>;
    if job.mode == Graph {
      var done := mailbox.CreateForwardingRule(b.token, b.fails, rule);
      outcome := GraphOutcome(done, GraphCreatedMessage);
    } else {
      outcome := Notify(b, job, job.payload);
    }
    reply := Conclude(db, job, outcome, PostFallback, now, auditFault);
  }

  /** Lines 133-145 of DELETE: authenticate, require `forwardTo` (400 without it),
      then choose the mode. */
  function PrepareDelete(current: Option<UserProfile>, query: DeleteQuery, env: Environment): (p: Plan<string>)
    ensures current.None? ==> p == Reject(Caught(Error(Auth.AuthenticationRequiredMessage, None), DeleteFallback))
    ensures current.Some? && !Truthy(query.forwardTo) ==> p == Reject(Failure(400, ForwardToRequiredMessage))
    ensures p.Proceed? <==>
      current.Some? && Truthy(query.forwardTo) && ChooseMode(query.mode, env.executionMode).Ok?
    ensures p.Proceed? ==>
      && p.input == query.forwardTo.value
      && p.job == Job(current.value, ClearForwardingAction, ChooseMode(query.mode, env.executionMode).value,
                     ForwardToJson(p.input))
  {
    match Auth.RequireAuth(current)
    case Err(e) => Reject(Caught(e, DeleteFallback))
    case Ok(user) =>
      if !Truthy(query.forwardTo) then Reject(Failure(400, ForwardToRequiredMessage))
      else
        match ChooseMode(query.mode, env.executionMode)
        case Err(e) => Reject(Caught(e, DeleteFallback))
        case Ok(mode) => Proceed(Job(user, ClearForwardingAction, mode, ForwardToJson(query.forwardTo.value)),
                                 query.forwardTo.value)
  }

  /** What DELETE's inner `try` yields: Graph's `deleteForwardingRule` then
      `{message}`, or the n8n call with `{forwardTo}` as `data`. */
  function DeleteOutcome(b: Backends, job: Job): Result<Json> {
    match job.mode
    case Graph => GraphOutcome(Graph.Performed(b.token, b.fails), GraphDeletedMessage)
    case N8n => N8nOutcome(b, job, job.payload)
  }

  /** DELETE /api/forwarding at time `now`. */
  method HandleDelete(db: Database, mailbox: Graph.Mailbox, current: Option<UserProfile>, query: DeleteQuery,
                      env: Environment, b: Backends, now: nat, auditFault: Option<Error>)
    returns (reply: Reply)
    modifies db, mailbox
    ensures db.profiles == old(db.profiles) && db.secrets == old(db.secrets) && db.nextDocId == old(db.nextDocId)
    ensures mailbox.automaticReplies == old(mailbox.automaticReplies) && mailbox.nextId == old(mailbox.nextId)
    ensures var p := PrepareDelete(current, query, env);
      p.Reject? ==> reply == p.reply && db.auditLogs == old(db.auditLogs) && mailbox.rules == old(mailbox.rules)
    ensures var p := PrepareDelete(current, query, env);
      p.Proceed? ==>
        var outcome := DeleteOutcome(b, p.job);
        && reply == ReplyFor(outcome, DeleteFallback)
        && db.auditLogs == old(db.auditLogs) + (if auditFault.None? then [AuditLog(AuditFor(p.job, outcome), now)] else [])
        && mailbox.rules ==
             (if p.job.mode == Graph && outcome.Ok? then Graph.AfterDelete(old(mailbox.rules), p.input)
              else old(mailbox.rules))
  {
    var plan := PrepareDelete(current, query, env);
    if plan.Reject? {
      return plan.reply;
    }
    var job, forwardTo := plan.job, plan.input;
    var outcome: Result<Json>;
    if job.mode == Graph {
      var done := mailbox.DeleteForwardingRule(b.token, b.fails, forwardTo);
      outcome := GraphOutcome(done, GraphDeletedMessage);
    } else {
      outcome := Notify(b, job, job.payload);
    }
    reply := Conclude(db, job, outcome, DeleteFallback, now, auditFault);
  }

  /** Forwarding to one's own, valid address always passes the external-forwarding
      gate, whatever ALLOW_EXTERNAL_FORWARDING says. */
  lemma OwnAddressPassesGate(user: UserProfile, raw: RawForwardingRule, mode: Option<string>, env: Environment)
    requires raw.forwardTo == user.email && IsEmail(user.email)
    requires ChooseMode(mode, env.executionMode).Ok?
    ensures PreparePost(Some(user), Ok(CreateRequest(Some(raw), mode)), env).Proceed?
  {
    ExternalForwardingReflexive(user.email, env.allowExternalForwarding);
  }

  /** With external forwarding not allowed, an address in another domain is
      refused with 403, before any backend call or audit record. */
  lemma OtherDomainRefused(user: UserProfile, raw: RawForwardingRule, mode: Option<string>, env: Environment)
    requires IsEmail(raw.forwardTo) && ChooseMode(mode, env.executionMode).Ok?
    requires env.allowExternalForwarding != Some("true")
    requires DomainOf(raw.forwardTo) != DomainOf(user.email)
    ensures var p := PreparePost(Some(user), Ok(CreateRequest(Some(raw), mode)), env);
      p.Reject? && StatusCode(p.reply) == 403
  {
  }

  /** Invalid rules and unknown modes are answered 500, not 400. */
  lemma InvalidInputIs500(user: UserProfile, request: CreateRequest, env: Environment)
    ensures var p := PreparePost(Some(user), Ok(request), env);
      p.Reject? && StatusCode(p.reply) != 403 ==> StatusCode(p.reply) == 500
  {
    var parsed := ParseForwardingRule(request.rule);
    if parsed.Err? {
      ValidationMessageIs500(parsed.error.message);
    } else if ChooseMode(request.mode, env.executionMode).Err? {
      ValidationMessageIs500(InvalidModeMessage);
    }
  }

  /** Every unauthenticated request is answered 401; a signed-in DELETE without
      `forwardTo` is answered 400. */
  lemma GuardStatuses(body: Result<CreateRequest>, query: DeleteQuery, user: UserProfile, env: Environment)
    ensures StatusCode(PreparePost(None, body, env).reply) == 401
    ensures StatusCode(PrepareDelete(None, query, env).reply) == 401
    ensures !Truthy(query.forwardTo) ==> StatusCode(PrepareDelete(Some(user), query, env).reply) == 400
  {
    AuthenticationRequiredIs401();
  }
}
