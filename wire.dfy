/** The JSON boundary between the out-of-office form and the API routes.

    It has three parts:
    - how the routes read a parsed request body into their request values (the
      structural half of the zod schemas: which fields exist, and what type
      each has);
    - the bodies the form (app/components/dashboard/out-of-office-settings.tsx)
      sends;
    - the bodies it would have to send for the routes to accept them. */
module Wire {
  import opened Common
  import opened Validators
  import opened Execution
  import opened Store
  import OofForm
  import OofRoute
  import ForwardingRoute

  // ---------------------------------------------------------------------------
  // Reading a body

  /** zod's name for the type of a value, as used in its messages. */
  function TypeName(j: Json): string {
    match j
    case JUndefined => "undefined"
    case JNull => "null"
    case JBool(_) => "boolean"
    case JNum(_) => "number"
    case JStr(_) => "string"
    case JArr(_) => "array"
    case JObj(_) => "object"
  }

  /** zod's issue for a value of the wrong type: "Required" when it is missing,
      "Expected …, received …" otherwise. */
  function Mismatch(expected: string, j: Json): string {
    if j.JUndefined? then RequiredMessage else "Expected " + expected + ", received " + TypeName(j)
  }

  /** `obj[key]`; a value that is not an object has no such property. */
  function Member(j: Json, key: string): Json {
    if j.JObj? then Get(j.fields, key) else JUndefined
  }

  /** A lookup finds a field that no earlier field shadows. */
  lemma {:induction false} GetPast(before: seq<Field>, f: Field, after: seq<Field>)
    requires forall k :: 0 <= k < |before| ==> before[k].key != f.key
    ensures Get(before + [f] + after, f.key) == f.value
  {
    if before != [] {
      assert (before + [f] + after)[1..] == before[1..] + [f] + after;
      GetPast(before[1..], f, after);
    }
  }

  /** The error of reading a property of `null`. */
  function NullRead(key: string): string {
    "Cannot read properties of null (reading '" + key + "')"
  }

  /** `z.string().optional()`. */
  function ReadOptString(j: Json): (r: Result<Option<string>>)
    ensures r.Ok? <==> j.JUndefined? || j.JStr?
    ensures j.JStr? ==> r == Ok(Some(j.s))
    ensures j.JUndefined? ==> r == Ok(None)
    ensures r.Err? ==> r == Fail(Mismatch("string", j))
  {
    match j
    case JUndefined => Ok(None)
    case JStr(s) => Ok(Some(s))
    case _ => Fail(Mismatch("string", j))
  }

  /** `z.boolean().optional()`. */
  function ReadOptBool(j: Json): (r: Result<Option<bool>>)
    ensures r.Ok? <==> j.JUndefined? || j.JBool?
    ensures j.JBool? ==> r == Ok(Some(j.b))
    ensures j.JUndefined? ==> r == Ok(None)
  {
    match j
    case JUndefined => Ok(None)
    case JBool(b) => Ok(Some(b))
    case _ => Fail(Mismatch("boolean", j))
  }

  /** A schedule bound in the shape Graph expects: an object with a string
      `dateTime` and a string `timeZone`. */
  predicate IsBound(j: Json) {
    j.JObj? && Member(j, "dateTime").JStr? && Member(j, "timeZone").JStr?
  }

  /** `z.object({ dateTime: z.string(), timeZone: z.string() }).optional()`. */
  function ReadBound(j: Json): (r: Result<Option<DateTimeTimeZone>>)
    ensures r.Ok? <==> j.JUndefined? || IsBound(j)
    ensures j.JUndefined? ==> r == Ok(None)
    ensures IsBound(j) ==> r == Ok(Some(DateTimeTimeZone(Member(j, "dateTime").s, Member(j, "timeZone").s)))
    ensures !j.JUndefined? && !j.JObj? ==> r == Fail(Mismatch("object", j))
  {
    if j.JUndefined? then Ok(None)
    else if !j.JObj? then Fail(Mismatch("object", j))
    else
      var dateTime, timeZone := Member(j, "dateTime"), Member(j, "timeZone");
      if !dateTime.JStr? then Fail(Mismatch("string", dateTime))
      else if !timeZone.JStr? then Fail(Mismatch("string", timeZone))
      else Ok(Some(DateTimeTimeZone(dateTime.s, timeZone.s)))
  }

  const StatusNames := "'disabled' | 'alwaysEnabled' | 'scheduled'"

  /** The fields of `oofSettingsSchema` have the right types. */
  predicate SettingsShaped(j: Json) {
    && j.JObj? && Member(j, "status").JStr?
    && ReadOptString(Member(j, "internalReplyMessage")).Ok?
    && ReadOptString(Member(j, "externalReplyMessage")).Ok?
    && ReadBound(Member(j, "scheduledStartDateTime")).Ok?
    && ReadBound(Member(j, "scheduledEndDateTime")).Ok?
  }

  /** The structural half of `oofSettingsSchema.parse(body.settings)`: a missing
      `settings` is `None` (zod's "Required" comes from `ParseOofSettings`), and
      a present one is read field by field. */
  function ReadSettings(j: Json): (r: Result<Option<RawOofSettings>>)
    ensures r.Ok? <==> j.JUndefined? || SettingsShaped(j)
    ensures j.JUndefined? ==> r == Ok(None)
    ensures SettingsShaped(j) ==> r == Ok(Some(RawOofSettings(
      Member(j, "status").s,
      ReadOptString(Member(j, "internalReplyMessage")).value,
      ReadOptString(Member(j, "externalReplyMessage")).value,
      ReadBound(Member(j, "scheduledStartDateTime")).value,
      ReadBound(Member(j, "scheduledEndDateTime")).value)))
  {
    if j.JUndefined? then Ok(None)
    else if !j.JObj? then Fail(Mismatch("object", j))
    else
      var status := Member(j, "status");
      if !status.JStr? then Fail(Mismatch(StatusNames, status))
      else
        match ReadOptString(Member(j, "internalReplyMessage"))
        case Err(e) => Err(e)
        case Ok(internal) =>
          match ReadOptString(Member(j, "externalReplyMessage"))
          case Err(e) => Err(e)
          case Ok(external) =>
            match ReadBound(Member(j, "scheduledStartDateTime"))
            case Err(e) => Err(e)
            case Ok(start) =>
              match ReadBound(Member(j, "scheduledEndDateTime"))
              case Err(e) => Err(e)
              case Ok(end) => Ok(Some(RawOofSettings(status.s, internal, external, start, end)))
  }

  /** `body.mode || DEFAULT_EXECUTION_MODE`, typed for `executionModeSchema`: a
      string is passed on, a falsy value leaves the choice to the default, and
      any other value fails the enum. */
  function ReadMode(j: Json): (r: Result<Option<string>>)
    ensures j.JStr? ==> r == Ok(Some(j.s))
    ensures j.JUndefined? || j.JNull? || j == JBool(false) || j == JNum(0) ==> r == Ok(None)
  {
    match j
    case JStr(s) => Ok(Some(s))
    case JUndefined => Ok(None)
    case JNull => Ok(None)
    case JBool(b) => if b then Fail(Mismatch("'graph' | 'n8n'", j)) else Ok(None)
    case JNum(n) => if n != 0 then Fail(Mismatch("'graph' | 'n8n'", j)) else Ok(None)
    case _ => Fail(Mismatch("'graph' | 'n8n'", j))
  }

  /** The parsed body of POST /api/oof as the route reads it (route.ts:47-51):
      `body.settings` and `body.mode`. Reading a property of `null` throws. */
  function ReadSetOofRequest(body: Json): (r: Result<OofRoute.SetOofRequest>)
    ensures body.JNull? ==> r == Fail(NullRead("settings"))
    ensures !body.JNull? ==>
      (r.Ok? <==> ReadSettings(Member(body, "settings")).Ok? && ReadMode(Member(body, "mode")).Ok?)
    ensures r.Ok? ==> r.value == OofRoute.SetOofRequest(ReadSettings(Member(body, "settings")).value,
                                                       ReadMode(Member(body, "mode")).value)
    ensures !body.JNull? && ReadSettings(Member(body, "settings")).Err? ==> r == Err(ReadSettings(Member(body, "settings")).error)
  {
    if body.JNull? then Fail(NullRead("settings"))
    else
      match ReadSettings(Member(body, "settings"))
      case Err(e) => Err(e)
      case Ok(settings) =>
        match ReadMode(Member(body, "mode"))
        case Err(e) => Err(e)
        case Ok(mode) => Ok(OofRoute.SetOofRequest(settings, mode))
  }

  /** The structural half of `forwardingRuleSchema.parse(body.rule)`. */
  function ReadRule(j: Json): (r: Result<Option<RawForwardingRule>>)
    ensures j.JUndefined? ==> r == Ok(None)
    ensures r.Ok? && r.value.Some? ==>
      j.JObj? && Member(j, "forwardTo") == JStr(r.value.value.forwardTo)
    ensures j.JObj? && Member(j, "forwardTo").JStr? && ReadOptBool(Member(j, "keepCopy")).Ok? &&
            ReadOptBool(Member(j, "enabled")).Ok? ==>
      r == Ok(Some(RawForwardingRule(Member(j, "forwardTo").s, ReadOptBool(Member(j, "keepCopy")).value,
                                     ReadOptBool(Member(j, "enabled")).value)))
  {
    if j.JUndefined? then Ok(None)
    else if !j.JObj? then Fail(Mismatch("object", j))
    else
      var forwardTo := Member(j, "forwardTo");
      if !forwardTo.JStr? then Fail(Mismatch("string", forwardTo))
      else
        match ReadOptBool(Member(j, "keepCopy"))
        case Err(e) => Err(e)
        case Ok(keepCopy) =>
          match ReadOptBool(Member(j, "enabled"))
          case Err(e) => Err(e)
          case Ok(enabled) => Ok(Some(RawForwardingRule(forwardTo.s, keepCopy, enabled)))
  }

  /** The parsed body of POST /api/forwarding as the route reads it
      (forwarding/route.ts:48-52): `body.rule` and `body.mode`. */
  function ReadCreateRequest(body: Json): (r: Result<ForwardingRoute.CreateRequest>)
    ensures body.JNull? ==> r == Fail(NullRead("rule"))
    ensures r.Ok? <==> !body.JNull? && ReadRule(Member(body, "rule")).Ok? && ReadMode(Member(body, "mode")).Ok?
    ensures r.Ok? ==> r.value == ForwardingRoute.CreateRequest(ReadRule(Member(body, "rule")).value,
                                                              ReadMode(Member(body, "mode")).value)
  {
    if body.JNull? then Fail(NullRead("rule"))
    else
      match ReadRule(Member(body, "rule"))
      case Err(e) => Err(e)
      case Ok(rule) =>
        match ReadMode(Member(body, "mode"))
        case Err(e) => Err(e)
        case Ok(mode) => Ok(ForwardingRoute.CreateRequest(rule, mode))
  }

  // ---------------------------------------------------------------------------
  // The schedule bounds

  /** An optional string as a property value: `undefined` when absent, which
      `JSON.stringify` leaves out. */
  function OptStr(o: Option<string>): Json {
    if o.Some? then JStr(o.value) else JUndefined
  }

  /** The settings object the form builds, with the bounds given by `bound`. */
  function SettingsBody(s: OofForm.FormSettings, bound: Option<string> -> Json): Json {
    JObj(SettingsFieldList(s, bound))
  }

  /** The body the form posts to /api/oof (out-of-office-settings.tsx:84-101),
      as written: the schedule bounds are the ISO strings themselves. */
  function FormOofBody(p: OofForm.ApiPayload): Json {
    JObj([Field("settings", SettingsBody(p.settings, OptStr)), Field("mode", JStr(p.mode))])
  }

  /** The message zod gives a bound that is a string. */
  const BoundIsStringMessage := "Expected " + "object" + ", received " + "string"

  /** A key that no field has reads as `undefined`. */
  lemma GetAbsent(fields: seq<Field>, key: string)
    requires forall k :: 0 <= k < |fields| ==> fields[k].key != key
    ensures Get(fields, key) == JUndefined
  {
    assert key !in Keys(fields);
  }

  /** A bound given as a string fails the schema with zod's type error, which a
      handler answers with 500. */
  lemma StringBoundRefused(text: string)
    ensures ReadBound(JStr(text)) == Fail(BoundIsStringMessage)
    ensures StatusFor(BoundIsStringMessage) == 500
  {
    assert 'A' !in BoundIsStringMessage;
    NoCapitalAIs500(BoundIsStringMessage);
  }

  /** The fields of the settings object the form builds, in order. */
  function SettingsFieldList(s: OofForm.FormSettings, bound: Option<string> -> Json): seq<Field> {
    [Field("status", JStr(StatusName(s.status))),
     Field("internalReplyMessage", JStr(s.internalReplyMessage)),
     Field("externalReplyMessage", JStr(s.externalReplyMessage))]
    + (if s.status == Scheduled
       then [Field("scheduledStartDateTime", bound(s.scheduledStartDateTime)),
             Field("scheduledEndDateTime", bound(s.scheduledEndDateTime))]
       else [])
  }

  /** The status and the two messages of the settings object. */
  lemma SettingsMessages(s: OofForm.FormSettings, bound: Option<string> -> Json)
    ensures var j := SettingsBody(s, bound);
      && Member(j, "status") == JStr(StatusName(s.status))
      && Member(j, "internalReplyMessage") == JStr(s.internalReplyMessage)
      && Member(j, "externalReplyMessage") == JStr(s.externalReplyMessage)
  {
    var fields := SettingsFieldList(s, bound);
    assert SettingsBody(s, bound) == JObj(fields);
    GetPast([], fields[0], fields[1..]);
    assert fields == [fields[0]] + [fields[1]] + fields[2..];
    GetPast([fields[0]], fields[1], fields[2..]);
    assert fields == fields[..2] + [fields[2]] + fields[3..];
    GetPast(fields[..2], fields[2], fields[3..]);
  }

  /** The schedule bounds of the settings object: present only when scheduled. */
  lemma SettingsBounds(s: OofForm.FormSettings, bound: Option<string> -> Json)
    ensures var j := SettingsBody(s, bound);
      && Member(j, "scheduledStartDateTime") == (if s.status == Scheduled then bound(s.scheduledStartDateTime) else JUndefined)
      && Member(j, "scheduledEndDateTime") == (if s.status == Scheduled then bound(s.scheduledEndDateTime) else JUndefined)
  {
    var fields := SettingsFieldList(s, bound);
    assert SettingsBody(s, bound) == JObj(fields);
    if s.status == Scheduled {
      assert fields == fields[..3] + [fields[3]] + fields[4..];
      GetPast(fields[..3], fields[3], fields[4..]);
      assert fields == fields[..4] + [fields[4]] + [];
      GetPast(fields[..4], fields[4], []);
    } else {
      GetAbsent(fields, "scheduledStartDateTime");
      GetAbsent(fields, "scheduledEndDateTime");
    }
  }

  /** The two fields of a two-field object. */
  lemma TwoFields(k1: string, v1: Json, k2: string, v2: Json)
    requires k1 != k2
    ensures Member(JObj([Field(k1, v1), Field(k2, v2)]), k1) == v1
    ensures Member(JObj([Field(k1, v1), Field(k2, v2)]), k2) == v2
  {
    assert [Field(k1, v1), Field(k2, v2)] == [Field(k1, v1)] + [Field(k2, v2)] + [];
    GetPast([Field(k1, v1)], Field(k2, v2), []);
  }

  /** As written, every scheduled request the form can build is refused: the
      first bound is a string where the schema wants an object, and the handler
      answers 500 with zod's type error. Unscheduled requests are not affected
      (`UnscheduledFormAccepted`). */
  lemma ScheduledFormRefused(user: UserProfile, p: OofForm.ApiPayload, env: Environment)
    requires p.settings.status == Scheduled && p.settings.scheduledStartDateTime.Some?
    ensures var plan := OofRoute.PrepareSet(Some(user), ReadSetOofRequest(FormOofBody(p)), env);
      plan == Reject(Failure(500, BoundIsStringMessage))
  {
    var body, settings := FormOofBody(p), SettingsBody(p.settings, OptStr);
    var start := JStr(p.settings.scheduledStartDateTime.value);
    TwoFields("settings", settings, "mode", JStr(p.mode));
    SettingsMessages(p.settings, OptStr);
    SettingsBounds(p.settings, OptStr);
    assert Member(settings, "scheduledStartDateTime") == start;
    StringBoundRefused(start.s);
    assert ReadSettings(settings) == Fail(BoundIsStringMessage);
    assert ReadSetOofRequest(body) == Fail(BoundIsStringMessage);
  }

  /** An unscheduled settings object reads back as the form's status and
      messages, with no bounds. */
  lemma UnscheduledSettingsRead(s: OofForm.FormSettings, bound: Option<string> -> Json)
    requires s.status != Scheduled
    ensures ReadSettings(SettingsBody(s, bound)) ==
      Ok(Some(RawOofSettings(StatusName(s.status), Some(s.internalReplyMessage), Some(s.externalReplyMessage), None, None)))
  {
    SettingsMessages(s, bound);
    SettingsBounds(s, bound);
  }

  /** A Graph-mode body whose settings read back as `raw`. */
  lemma ReadGraphBody(settings: Json, raw: RawOofSettings)
    requires ReadSettings(settings) == Ok(Some(raw))
    ensures ReadSetOofRequest(JObj([Field("settings", settings), Field("mode", JStr(OofForm.GraphMode))])) ==
      Ok(OofRoute.SetOofRequest(Some(raw), Some(OofForm.GraphMode)))
  {
    TwoFields("settings", settings, "mode", JStr(OofForm.GraphMode));
  }

  /** A signed-in Graph-mode request with valid settings goes on with them. */
  lemma GraphRequestProceeds(user: UserProfile, raw: RawOofSettings, env: Environment)
    requires ParseOofSettings(Some(raw)).Ok?
    ensures var plan := OofRoute.PrepareSet(Some(user), Ok(OofRoute.SetOofRequest(Some(raw), Some(OofForm.GraphMode))), env);
      plan.Proceed? && plan.input == ParseOofSettings(Some(raw)).value && plan.job.mode == Graph
  {
    assert ChooseMode(Some(OofForm.GraphMode), env.executionMode) == Ok(Graph);
  }

  /** Disabled and always-enabled requests from the form go through: the route
      proceeds with the form's status and its HTML messages. */
  lemma UnscheduledFormAccepted(user: UserProfile, p: OofForm.ApiPayload, env: Environment)
    requires p.settings.status != Scheduled && p.mode == OofForm.GraphMode
    ensures var plan := OofRoute.PrepareSet(Some(user), ReadSetOofRequest(FormOofBody(p)), env);
      && plan.Proceed? && plan.input.status == p.settings.status
      && plan.input.internalReplyMessage == Some(p.settings.internalReplyMessage)
      && plan.job.mode == Graph
  {
    var settings := SettingsBody(p.settings, OptStr);
    var raw := RawOofSettings(StatusName(p.settings.status), Some(p.settings.internalReplyMessage),
                              Some(p.settings.externalReplyMessage), None, None);
    UnscheduledSettingsRead(p.settings, OptStr);
    ReadGraphBody(settings, raw);
    StatusRoundTrip(p.settings.status);
    GraphRequestProceeds(user, raw, env);
  }

  /** A bound in the shape the schema asks for: `{ dateTime, timeZone }`. */
  function BoundObject(timeZone: string): Option<string> -> Json {
    (o: Option<string>) =>
      if o.Some? then JObj([Field("dateTime", JStr(o.value)), Field("timeZone", JStr(timeZone))])
      else JUndefined
  }

  /** The body the form evidently means to post: each bound as `{ dateTime,
      timeZone }`, in the time zone the ISO string is written in. */
  function CorrectedOofBody(p: OofForm.ApiPayload, timeZone: string): Json {
    JObj([Field("settings", SettingsBody(p.settings, BoundObject(timeZone))), Field("mode", JStr(p.mode))])
  }

  /** A bound written as `{ dateTime, timeZone }` reads back as that pair. */
  lemma ObjectBoundRead(o: Option<string>, timeZone: string)
    ensures ReadBound(BoundObject(timeZone)(o)) ==
      Ok(if o.Some? then Some(DateTimeTimeZone(o.value, timeZone)) else None)
  {
    if o.Some? {
      TwoFields("dateTime", JStr(o.value), "timeZone", JStr(timeZone));
    }
  }

  /** The schedule bound the corrected body carries for an ISO string. */
  function CorrectedBound(s: OofForm.FormSettings, iso: Option<string>, timeZone: string): Option<DateTimeTimeZone> {
    if s.status == Scheduled && iso.Some? then Some(DateTimeTimeZone(iso.value, timeZone)) else None
  }

  /** The settings the route reads from the corrected body. */
  function CorrectedRaw(s: OofForm.FormSettings, timeZone: string): RawOofSettings {
    RawOofSettings(StatusName(s.status), Some(s.internalReplyMessage), Some(s.externalReplyMessage),
                   CorrectedBound(s, s.scheduledStartDateTime, timeZone), CorrectedBound(s, s.scheduledEndDateTime, timeZone))
  }

  /** The corrected settings object reads back as the form's settings. */
  lemma CorrectedSettingsRead(s: OofForm.FormSettings, timeZone: string)
    requires s.status == Scheduled ==> s.scheduledStartDateTime.Some? && s.scheduledEndDateTime.Some?
    ensures ReadSettings(SettingsBody(s, BoundObject(timeZone))) == Ok(Some(CorrectedRaw(s, timeZone)))
  {
    var bound := BoundObject(timeZone);
    SettingsMessages(s, bound);
    SettingsBounds(s, bound);
    if s.status == Scheduled {
      ObjectBoundRead(s.scheduledStartDateTime, timeZone);
      ObjectBoundRead(s.scheduledEndDateTime, timeZone);
    }
  }

  /** The corrected settings pass the schema unchanged. */
  lemma CorrectedSettingsValid(s: OofForm.FormSettings, timeZone: string)
    requires s.status == Scheduled ==> s.scheduledStartDateTime.Some? && s.scheduledEndDateTime.Some?
    ensures ParseOofSettings(Some(CorrectedRaw(s, timeZone))) == Ok(OofSettings(
      s.status, Some(s.internalReplyMessage), Some(s.externalReplyMessage),
      CorrectedBound(s, s.scheduledStartDateTime, timeZone), CorrectedBound(s, s.scheduledEndDateTime, timeZone)))
  {
    StatusRoundTrip(s.status);
  }

  /** With the corrected body every request the form builds goes through: the
      route proceeds with the form's status, messages and bounds. The
      requirements are what `OofForm.BuildPayload` ensures. */
  lemma CorrectedScheduleAccepted(user: UserProfile, p: OofForm.ApiPayload, timeZone: string, env: Environment)
    requires p.mode == OofForm.GraphMode
    requires p.settings.status == Scheduled ==>
      p.settings.scheduledStartDateTime.Some? && p.settings.scheduledEndDateTime.Some?
    ensures var plan := OofRoute.PrepareSet(Some(user), ReadSetOofRequest(CorrectedOofBody(p, timeZone)), env);
      && plan.Proceed? && plan.input.status == p.settings.status
      && plan.input.internalReplyMessage == Some(p.settings.internalReplyMessage)
      && plan.input.externalReplyMessage == Some(p.settings.externalReplyMessage)
      && (p.settings.status == Scheduled ==>
            && plan.input.scheduledStartDateTime == Some(DateTimeTimeZone(p.settings.scheduledStartDateTime.value, timeZone))
            && plan.input.scheduledEndDateTime == Some(DateTimeTimeZone(p.settings.scheduledEndDateTime.value, timeZone)))
      && plan.job.mode == Graph
  {
    var raw := CorrectedRaw(p.settings, timeZone);
    CorrectedSettingsRead(p.settings, timeZone);
    ReadGraphBody(SettingsBody(p.settings, BoundObject(timeZone)), raw);
    CorrectedSettingsValid(p.settings, timeZone);
    GraphRequestProceeds(user, raw, env);
  }

  // ---------------------------------------------------------------------------
  // Setting up forwarding

  /** The body the form posts to /api/forwarding (out-of-office-settings.tsx:111-118),
      as written: the address under `forwardingAddress`. */
  function FormForwardingBody(address: string): Json {
    JObj([Field("forwardingAddress", JStr(address)), Field("mode", JStr(OofForm.GraphMode))])
  }

  /** As written, the form's forwarding request is refused whatever the address:
      the route reads `body.rule`, which is missing, so the schema throws
      "Required" and the handler answers 500. */
  lemma FormForwardingRefused(user: UserProfile, address: string, env: Environment)
    ensures ForwardingRoute.PreparePost(Some(user), ReadCreateRequest(FormForwardingBody(address)), env)
            == Reject(Failure(500, RequiredMessage))
  {
    TwoFields("forwardingAddress", JStr(address), "mode", JStr(OofForm.GraphMode));
    assert Member(FormForwardingBody(address), "rule") == JUndefined;
    ValidationMessageIs500(RequiredMessage);
  }

  /** The body the form evidently means to post: the address as the rule's
      `forwardTo`, the copy and enabled flags left to their defaults. */
  function CorrectedForwardingBody(address: string): Json {
    JObj([Field("rule", Single("forwardTo", JStr(address))), Field("mode", JStr(OofForm.GraphMode))])
  }

  /** With the corrected body the request reaches the route's real checks: it
      goes on exactly when the address is valid and passes the
      external-forwarding gate, with a rule that keeps a copy and is enabled. */
  lemma CorrectedForwardingAccepted(user: UserProfile, address: string, env: Environment)
    ensures var plan := ForwardingRoute.PreparePost(Some(user), ReadCreateRequest(CorrectedForwardingBody(address)), env);
      && (plan.Proceed? <==>
            IsEmail(address) && ValidateExternalForwarding(address, user.email, env.allowExternalForwarding).valid)
      && (plan.Proceed? ==> plan.input == ForwardingRule(address, true, true) && plan.job.mode == Graph)
  {
    var rule := Single("forwardTo", JStr(address));
    TwoFields("rule", rule, "mode", JStr(OofForm.GraphMode));
    assert Member(rule, "keepCopy") == JUndefined && Member(rule, "enabled") == JUndefined;
  }

  // ---------------------------------------------------------------------------
  // Clearing forwarding

  /** The query of the form's DELETE (out-of-office-settings.tsx:125-129), as
      written: the URL is '/api/forwarding' with no query at all; the mode goes
      in a body the route never reads. */
  const FormClearQuery := ForwardingRoute.DeleteQuery(None, None)

  /** As written, the form's request to clear forwarding is always answered 400
      'forwardTo parameter is required', so forwarding is never removed. */
  lemma FormClearRefused(user: UserProfile, env: Environment)
    ensures ForwardingRoute.PrepareDelete(Some(user), FormClearQuery, env)
            == Reject(Failure(400, ForwardingRoute.ForwardToRequiredMessage))
  {
  }

  /** The query the form evidently means to send: `?forwardTo=…&mode=graph`. */
  function CorrectedClearQuery(forwardTo: string): ForwardingRoute.DeleteQuery {
    ForwardingRoute.DeleteQuery(Some(forwardTo), Some(OofForm.GraphMode))
  }

  /** With the corrected query, clearing goes on in Graph mode for the address
      given, and is refused with 400 only when no address is known. */
  lemma CorrectedClearAccepted(user: UserProfile, forwardTo: string, env: Environment)
    ensures var plan := ForwardingRoute.PrepareDelete(Some(user), CorrectedClearQuery(forwardTo), env);
      && (plan.Proceed? <==> forwardTo != "")
      && (plan.Proceed? ==> plan.input == forwardTo && plan.job.mode == Graph)
      && (forwardTo == "" ==> plan == Reject(Failure(400, ForwardingRoute.ForwardToRequiredMessage)))
  {
  }
}
