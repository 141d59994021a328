/** Request validation (app/lib/validators.ts): the out-of-office settings schema
    with its "scheduled needs both bounds" refinement, the forwarding-rule schema
    with its defaults, the execution-mode enumeration, and the two e-mail domain
    checks. */
module Validators {
  import opened Common

  // ---------------------------------------------------------------------------
  // Out-of-office settings

  datatype OofStatus = Disabled | AlwaysEnabled | Scheduled

  function StatusName(s: OofStatus): string {
    match s
    case Disabled => "disabled"
    case AlwaysEnabled => "alwaysEnabled"
    case Scheduled => "scheduled"
  }

  /** `z.enum(['disabled', 'alwaysEnabled', 'scheduled'])`. */
  function ParseStatus(name: string): (r: Option<OofStatus>)
    ensures r.Some? <==> name == "disabled" || name == "alwaysEnabled" || name == "scheduled"
    ensures r.Some? ==> StatusName(r.value) == name
  {
    if name == "disabled" then Some(Disabled)
    else if name == "alwaysEnabled" then Some(AlwaysEnabled)
    else if name == "scheduled" then Some(Scheduled)
    else None
  }

  /** Every status survives the round trip through its wire name. */
  lemma StatusRoundTrip(s: OofStatus)
    ensures ParseStatus(StatusName(s)) == Some(s)
  {
  }

  /** `{ dateTime, timeZone }` as Graph expects it. */
  datatype DateTimeTimeZone = DateTimeTimeZone(dateTime: string, timeZone: string)

  /** A request's `settings` before validation: the status is still a string. */
  datatype RawOofSettings = RawOofSettings(
    status: string,
    internalReplyMessage: Option<string>,
    externalReplyMessage: Option<string>,
    scheduledStartDateTime: Option<DateTimeTimeZone>,
    scheduledEndDateTime: Option<DateTimeTimeZone>)

  datatype OofSettings = OofSettings(
    status: OofStatus,
    internalReplyMessage: Option<string>,
    externalReplyMessage: Option<string>,
    scheduledStartDateTime: Option<DateTimeTimeZone>,
    scheduledEndDateTime: Option<DateTimeTimeZone>)

  const ScheduleRequiredMessage := "Start and end date/time " + "are required for scheduled status"
  const RequiredMessage := "Required"
  const InvalidStatusMessage := "Invalid enum value. " + "Expected 'disabled' | " + "'alwaysEnabled' | 'scheduled'"

  /** The `.refine` of `oofSettingsSchema`: a scheduled status needs both bounds;
      any other status passes whatever the bounds are. */
  predicate ScheduleComplete(s: OofSettings) {
    s.status == Scheduled ==> s.scheduledStartDateTime.Some? && s.scheduledEndDateTime.Some?
  }

  /** `oofSettingsSchema.parse(body.settings)`; `None` is a missing `settings`. */
  function ParseOofSettings(raw: Option<RawOofSettings>): (r: Result<OofSettings>)
    ensures r.Ok? <==>
      raw.Some? && ParseStatus(raw.value.status).Some? &&
      (raw.value.status == "scheduled" ==>
        raw.value.scheduledStartDateTime.Some? && raw.value.scheduledEndDateTime.Some?)
    ensures r.Ok? ==> ScheduleComplete(r.value) && StatusName(r.value.status) == raw.value.status
    ensures r.Ok? ==>
      r.value.internalReplyMessage == raw.value.internalReplyMessage &&
      r.value.externalReplyMessage == raw.value.externalReplyMessage &&
      r.value.scheduledStartDateTime == raw.value.scheduledStartDateTime &&
      r.value.scheduledEndDateTime == raw.value.scheduledEndDateTime
    ensures raw.Some? && raw.value.status == "scheduled" &&
            (raw.value.scheduledStartDateTime.None? || raw.value.scheduledEndDateTime.None?) ==>
      r == Fail(ScheduleRequiredMessage)
  {
    if raw.None? then Fail(RequiredMessage)
    else
      match ParseStatus(raw.value.status)
      case None => Fail(InvalidStatusMessage)
      case Some(status) =>
        var s := OofSettings(status, raw.value.internalReplyMessage, raw.value.externalReplyMessage,
                             raw.value.scheduledStartDateTime, raw.value.scheduledEndDateTime);
        if ScheduleComplete(s) then Ok(s) else Fail(ScheduleRequiredMessage)
  }

  /** Disabled and always-enabled settings pass with or without schedule bounds. */
  lemma UnscheduledAlwaysAccepted(raw: RawOofSettings)
    requires raw.status == "disabled" || raw.status == "alwaysEnabled"
    ensures ParseOofSettings(Some(raw)).Ok?
  {
  }

  // ---------------------------------------------------------------------------
  // Execution mode

  datatype Mode = Graph | N8n

  function ModeName(m: Mode): string {
    match m
    case Graph => "graph"
    case N8n => "n8n"
  }

  const InvalidModeMessage := "Invalid enum value. " + "Expected 'graph' | 'n8n'"

  /** `executionModeSchema.parse`: only "graph" and "n8n" are accepted. */
  function ParseMode(name: string): (r: Result<Mode>)
    ensures r.Ok? <==> name == "graph" || name == "n8n"
    ensures r.Ok? ==> ModeName(r.value) == name
    ensures r.Err? ==> r == Fail(InvalidModeMessage)
  {
    if name == "graph" then Ok(Graph)
    else if name == "n8n" then Ok(N8n)
    else Fail(InvalidModeMessage)
  }

  // ---------------------------------------------------------------------------
  // Forwarding rule

  datatype RawForwardingRule = RawForwardingRule(forwardTo: string, keepCopy: Option<bool>, enabled: Option<bool>)

  datatype ForwardingRule = ForwardingRule(forwardTo: string, keepCopy: bool, enabled: bool)

  const InvalidEmailMessage := "Must be a valid email address"

  predicate EmailChar(c: char) {
    ('a' <= c <= 'z') || ('A' <= c <= 'Z') || ('0' <= c <= '9') || c in "._%+-'"
  }

  /** The e-mail check of `z.string().email()`, approximated: exactly one '@',
      a non-empty local part, and a domain with a dot that neither starts nor
      ends it, all of safe characters. */
  predicate IsEmail(s: string) {
    && (forall i :: 0 <= i < |s| ==> s[i] == '@' || EmailChar(s[i]))
    && |Split(s, '@')| == 2
    && var local, domain := Split(s, '@')[0], Split(s, '@')[1];
    && local != ""
    && '.' in domain && domain[0] != '.' && domain[|domain| - 1] != '.'
  }

  /** `forwardingRuleSchema.parse(body.rule)`: `keepCopy` and `enabled` default to true. */
  function ParseForwardingRule(raw: Option<RawForwardingRule>): (r: Result<ForwardingRule>)
    ensures r.Ok? <==> raw.Some? && IsEmail(raw.value.forwardTo)
    ensures r.Ok? ==> r.value.forwardTo == raw.value.forwardTo
    ensures r.Ok? ==> r.value.keepCopy == (raw.value.keepCopy.None? || raw.value.keepCopy.value)
    ensures r.Ok? ==> r.value.enabled == (raw.value.enabled.None? || raw.value.enabled.value)
  {
    if raw.None? then Fail(RequiredMessage)
    else if !IsEmail(raw.value.forwardTo) then Fail(InvalidEmailMessage)
    else
      Ok(ForwardingRule(
        raw.value.forwardTo,
        match raw.value.keepCopy case None => true case Some(b) => b,
        match raw.value.enabled case None => true case Some(b) => b))
  }

  // ---------------------------------------------------------------------------
  // Domain checks

  /** `email.split('@')[1]?.toLowerCase()`: the lower-cased text between the first
      and the second '@', or `undefined` when there is no '@'. */
  function DomainOf(email: string): (r: Option<string>)
    ensures r.None? <==> '@' !in email
  {
    var parts := Split(email, '@');
    if |parts| >= 2 then Some(Lower(parts[1]))
    else
      assert IndexOf(email, '@').None? by { SplitRestJoin(email, '@'); }
      None
  }

  /** For an address `local@domain` with no other '@', the domain is found. */
  lemma {:induction false} DomainOfAddress(local: string, domain: string)
    requires '@' !in local && '@' !in domain
    ensures DomainOf(local + "@" + domain) == Some(Lower(domain))
  {
    var e := local + "@" + domain;
    IndexOfAfter(local, '@', domain);
    assert e[|local| + 1..] == domain;
    assert e[..|local|] == local;
    assert Split(domain, '@') == [domain];
    assert Split(e, '@') == [local, domain];
  }

  /** `validateSameDomain(email, allowedDomain)`. */
  function ValidateSameDomain(email: string, allowedDomain: Option<string>): (ok: bool)
    ensures !Truthy(allowedDomain) ==> ok
    ensures Truthy(allowedDomain) && '@' !in email ==> !ok
  {
    if !Truthy(allowedDomain) then true
    else DomainOf(email) == Some(Lower(allowedDomain.value))
  }

  /** With a domain configured, `local@domain` passes exactly when the domains
      agree ignoring case. */
  lemma SameDomainForAddress(local: string, domain: string, allowed: string)
    requires '@' !in local && '@' !in domain && allowed != ""
    ensures ValidateSameDomain(local + "@" + domain, Some(allowed)) <==> Lower(domain) == Lower(allowed)
  {
    DomainOfAddress(local, domain);
  }

  datatype Validation = Validation(valid: bool, error: Option<string>)

  /** The text `${userDomain}` renders: `undefined` when there is no domain. */
  function Render(domain: Option<string>): string {
    match domain
    case None => "undefined"
    case Some(d) => d
  }

  /** `validateExternalForwarding(forwardTo, userEmail)`, reading
      ALLOW_EXTERNAL_FORWARDING from `allowExternal`. */
  function ValidateExternalForwarding(forwardTo: string, userEmail: string, allowExternal: Option<string>): (v: Validation)
    ensures v.valid <==> allowExternal == Some("true") || DomainOf(forwardTo) == DomainOf(userEmail)
    ensures v.valid <==> v.error.None?
    ensures !v.valid ==>
      v.error == Some("External forwarding is disabled. Must forward to @" + Render(DomainOf(userEmail)))
  {
    if allowExternal == Some("true") then Validation(true, None)
    else
      var userDomain := DomainOf(userEmail);
      var forwardDomain := DomainOf(forwardTo);
      if userDomain != forwardDomain then
        Validation(false, Some("External forwarding is disabled. Must forward to @" + Render(userDomain)))
      else Validation(true, None)
  }

  /** Forwarding to one's own address is always allowed. */
  lemma ExternalForwardingReflexive(email: string, allowExternal: Option<string>)
    ensures ValidateExternalForwarding(email, email, allowExternal).valid
  {
  }

  /** Within one domain, whatever the case of the letters, forwarding is allowed;
      across domains it is refused unless external forwarding is switched on. */
  lemma ExternalForwardingByDomain(fLocal: string, fDomain: string, uLocal: string, uDomain: string,
                                   allowExternal: Option<string>)
    requires '@' !in fLocal && '@' !in fDomain && '@' !in uLocal && '@' !in uDomain
    ensures ValidateExternalForwarding(fLocal + "@" + fDomain, uLocal + "@" + uDomain, allowExternal).valid
            <==> allowExternal == Some("true") || Lower(fDomain) == Lower(uDomain)
  {
    DomainOfAddress(fLocal, fDomain);
    DomainOfAddress(uLocal, uDomain);
  }
}
