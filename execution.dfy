/** What the mutating API handlers (app/app/api/oof/route.ts and
    app/app/api/forwarding/route.ts) share: the choice of execution mode, the
    n8n call, the audit record written after the backend answers, and the mapping
    of a thrown error to an HTTP status.

    A handler first authenticates and validates; a failure there is answered at
    once, before anything is executed or audited. Otherwise it runs one backend
    (Graph or n8n), appends exactly one audit record for the outcome, and answers
    with the result or with the original error. */
module Execution {
  import opened Common
  import opened Validators
  import opened Store
  import Graph
  import Webhook
  import Auth

  const ExecutionFailedMessage := "Execution failed"
  const AuthenticationWord := "Authentication"
  const DefaultModeName := "graph"
  const SuccessStatus := "success"
  const ErrorStatus := "error"

  /** What a handler answers: `{success: true, data}` with status 200, or
      `{success: false, error}` with an error status. */
  datatype Reply = Success(data: Json) | Failure(status: nat, error: string)

  function StatusCode(r: Reply): nat {
    match r
    case Success(_) => 200
    case Failure(status, _) => status
  }

  /** `error.message?.includes('Authentication') ? 401 : 500` (case-sensitive). */
  function StatusFor(message: string): (s: nat)
    ensures s == 401 <==> Contains(message, AuthenticationWord)
    ensures s == 500 <==> !Contains(message, AuthenticationWord)
  {
    if Contains(message, AuthenticationWord) then 401 else 500
  }

  /** The outer catch of a handler: the status chosen from the message, and the
      message itself, or the handler's fallback text when the message is empty. */
  function Caught(e: Error, fallback: string): (r: Reply)
    ensures r.Failure? && r.status == StatusFor(e.message)
    ensures r.error == if e.message == "" then fallback else e.message
  {
    Failure(StatusFor(e.message), if e.message == "" then fallback else e.message)
  }

  /** A message without a capital 'A' never yields 401. */
  lemma NoCapitalAIs500(message: string)
    requires 'A' !in message
    ensures StatusFor(message) == 500
  {
    NotContainsChar(message, AuthenticationWord, 0);
  }

  /** `requireAuth`'s error is answered with 401. */
  lemma AuthenticationRequiredIs401()
    ensures StatusFor(Auth.AuthenticationRequiredMessage) == 401
  {
    assert StartsWith(Auth.AuthenticationRequiredMessage, AuthenticationWord);
  }

  /** The Graph token error reads "Failed to authenticate...": lower-case 'a', so
      an expired sign-in is answered with 500, not 401. */
  lemma TokenFailureIs500()
    ensures StatusFor(Graph.AuthFailedMessage) == 500
  {
    NoCapitalAIs500(Graph.AuthFailedMessage);
  }

  /** The schema messages the validators throw are all answered with 500. */
  lemma ValidationMessageIs500(message: string)
    requires message == RequiredMessage || message == InvalidStatusMessage || message == ScheduleRequiredMessage
             || message == InvalidModeMessage || message == InvalidEmailMessage
    ensures StatusFor(message) == 500
  {
    if message == RequiredMessage {
      NoCapitalAIs500(RequiredMessage);
    } else if message == InvalidStatusMessage {
      InvalidStatusIs500();
    } else if message == ScheduleRequiredMessage {
      ScheduleRequiredIs500();
    } else if message == InvalidModeMessage {
      InvalidModeIs500();
    } else {
      InvalidEmailIs500();
    }
  }

  lemma InvalidStatusIs500()
    ensures StatusFor(InvalidStatusMessage) == 500
  {
    NoCapitalAIs500(InvalidStatusMessage);
  }

  lemma ScheduleRequiredIs500()
    ensures StatusFor(ScheduleRequiredMessage) == 500
  {
    NoCapitalAIs500(ScheduleRequiredMessage);
  }

  lemma InvalidModeIs500()
    ensures StatusFor(InvalidModeMessage) == 500
  {
    NoCapitalAIs500(InvalidModeMessage);
  }

  lemma InvalidEmailIs500()
    ensures StatusFor(InvalidEmailMessage) == 500
  {
    NoCapitalAIs500(InvalidEmailMessage);
  }

  /** A Graph-mode change whose first token request fails, with tokens that fail
      only as `getAccessToken` does, is answered 500 with the sign-in message:
      an expired sign-in never reads as a 401. */
  lemma GraphTokenFailureIs500(token: nat -> Result<string>, fails: nat -> Option<Error>, text: string, fallback: string)
    requires Graph.FailsLikeGetAccessToken(token) && token(1).Err?
    ensures ReplyFor(GraphOutcome(Graph.Performed(token, fails), text), fallback) == Failure(500, Graph.AuthFailedMessage)
  {
    assert token(1) == Fail(Graph.AuthFailedMessage);
    TokenFailureIs500();
  }

  /** `execError.message || 'Execution failed'`: the text the error record keeps. */
  function ErrorText(message: string): (t: string)
    ensures t != ""
    ensures message != "" ==> t == message
  {
    if message == "" then ExecutionFailedMessage else message
  }

  /** `body.mode || DEFAULT_EXECUTION_MODE`, where the default is
      `process.env.EXECUTION_MODE || 'graph'`. */
  function ModeChoice(requested: Option<string>, configured: Option<string>): string {
    OrElse(requested, OrElse(configured, DefaultModeName))
  }

  /** `executionModeSchema.parse(...)` of the chosen mode name. */
  function ChooseMode(requested: Option<string>, configured: Option<string>): (r: Result<Mode>)
    ensures Truthy(requested) ==> (r.Ok? <==> requested.value == "graph" || requested.value == "n8n")
    ensures Truthy(requested) && r.Ok? ==> ModeName(r.value) == requested.value
    ensures !Truthy(requested) && Truthy(configured) ==> r == ParseMode(configured.value)
    ensures !Truthy(requested) && !Truthy(configured) ==> r == Ok(Graph)
    ensures r.Err? ==> r == Fail(InvalidModeMessage)
  {
    ParseMode(ModeChoice(requested, configured))
  }

  /** Environment settings the handlers read. */
  datatype Environment = Environment(executionMode: Option<string>, allowExternalForwarding: Option<string>)

  /** The backends a handler may call: Graph, through its token and failure
      oracles (see `Graph.Fetch`), and the n8n webhook with its configuration,
      collaborators and clock reading. */
  datatype Backends = Backends(
    token: nat -> Result<string>,
    fails: nat -> Option<Error>,
    n8n: Webhook.Config,
    serialize: Json -> string,
    hmac: (string, string) -> string,
    send: Webhook.Request -> Result<Webhook.Response>,
    clock: string)

  /** A request that passed authentication and validation: who asks, for which
      action, in which mode, with what audit payload. */
  datatype Job = Job(user: UserProfile, action: string, mode: Mode, payload: Json)

  /** The outcome of the preliminary steps: answer at once, or run `job` on `input`. */
  datatype Plan<T> = Reject(reply: Reply) | Proceed(job: Job, input: T)

  /** `{ message }`, the result of a Graph-mode call. */
  function Message(text: string): Json {
    Single("message", JStr(text))
  }

  /** A Graph call that resolves to nothing yields `{ message }`; its error is kept. */
  function GraphOutcome(r: Result<()>, text: string): (o: Result<Json>)
    ensures o.Ok? <==> r.Ok?
    ensures o.Ok? ==> o.value == Message(text)
    ensures o.Err? ==> o.error == r.error
  {
    match r
    case Ok(_) => Ok(Message(text))
    case Err(e) => Err(e)
  }

  /** What `postToN8n({subjectId, upn, action, data})` yields for `job`. */
  function N8nOutcome(b: Backends, job: Job, data: Json): Result<Json> {
    Webhook.PostOutcome(b.n8n, Webhook.Payload(job.user.userId, job.user.email, job.action, data),
                        b.clock, b.serialize, b.hmac, b.send)
  }

  /** The n8n branch of a handler. */
  method Notify(b: Backends, job: Job, data: Json) returns (outcome: Result<Json>)
    ensures outcome == N8nOutcome(b, job, data)
  {
    var sent;
    outcome, sent := Webhook.PostToN8n(b.n8n, Webhook.Payload(job.user.userId, job.user.email, job.action, data),
                                       b.clock, b.serialize, b.hmac, b.send);
  }

  /** The audit record of a finished job: 'success' with the response, or 'error'
      with the error text; the payload either way. */
  function AuditFor(job: Job, outcome: Result<Json>): (a: AuditRecord)
    ensures a.userId == job.user.userId && a.userEmail == job.user.email
    ensures a.action == job.action && a.mode == ModeName(job.mode) && a.payload == Some(job.payload)
    ensures a.status == SuccessStatus <==> outcome.Ok?
    ensures a.status == ErrorStatus <==> outcome.Err?
    ensures outcome.Ok? ==> a.responseData == Some(outcome.value) && a.error.None?
    ensures outcome.Err? ==> a.error == Some(ErrorText(outcome.error.message)) && a.responseData.None?
  {
    match outcome
    case Ok(result) =>
      AuditRecord(job.user.userId, job.user.email, job.action, ModeName(job.mode), SuccessStatus,
                  Some(job.payload), None, Some(result))
    case Err(e) =>
      AuditRecord(job.user.userId, job.user.email, job.action, ModeName(job.mode), ErrorStatus,
                  Some(job.payload), Some(ErrorText(e.message)), None)
  }

  /** The answer to a finished job: the result, or the original error re-thrown to
      the outer catch. */
  function ReplyFor(outcome: Result<Json>, fallback: string): (r: Reply)
    ensures outcome.Ok? ==> r == Success(outcome.value)
    ensures outcome.Err? ==> r == Caught(outcome.error, fallback)
  {
    match outcome
    case Ok(result) => Success(result)
    case Err(e) => Caught(e, fallback)
  }

  /** The audit record and the answer agree: success is recorded exactly when the
      answer is 200, and an error record keeps a non-empty text. */
  lemma AuditMatchesReply(job: Job, outcome: Result<Json>, fallback: string)
    ensures AuditFor(job, outcome).status == SuccessStatus <==> StatusCode(ReplyFor(outcome, fallback)) == 200
    ensures AuditFor(job, outcome).status == ErrorStatus ==>
      AuditFor(job, outcome).error.Some? && AuditFor(job, outcome).error.value != ""
  {
  }

  /** The end of every inner `try`: one audit record for the outcome (the store
      swallows its own failure), then the answer. */
  method Conclude(db: Database, job: Job, outcome: Result<Json>, fallback: string, now: nat,
                  auditFault: Option<Error>)
    returns (reply: Reply)
    modifies db
    ensures db.auditLogs == old(db.auditLogs) + (if auditFault.None? then [AuditLog(AuditFor(job, outcome), now)] else [])
    ensures db.profiles == old(db.profiles) && db.secrets == old(db.secrets) && db.nextDocId == old(db.nextDocId)
    ensures reply == ReplyFor(outcome, fallback)
  {
    db.CreateAuditLog(AuditFor(job, outcome), now, auditFault);
    reply := ReplyFor(outcome, fallback);
  }
}
