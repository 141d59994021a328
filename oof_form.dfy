/** The decision logic of the out-of-office form
    (app/components/dashboard/out-of-office-settings.tsx): deriving the status
    from the fields filled in, wrapping the message in paragraphs, building the
    request, choosing the forwarding call, and filtering the user picker.

    Combining a calendar date and a time of day into an ISO-8601 string is the
    parameter `combine`. */
module OofForm {
  import opened Common
  import opened Validators

  const ParagraphBreak := "</p><p>"
  const GraphMode := "graph"
  const SavedNotice := "Out of Office settings updated successfully!"
  const RequestFailedMessage := "Failed to update settings"

  /** The form's fields. A picked calendar day is a `Date` object, so it is
      present or absent; times and texts are strings. */
  datatype FormData = FormData(
    startDate: Option<nat>,
    endDate: Option<nat>,
    startTime: string,
    endTime: string,
    message: string,
    forwardEmails: bool,
    forwardTo: string)

  /** Both days and both times are filled in. */
  predicate ScheduleGiven(data: FormData) {
    data.startDate.Some? && data.endDate.Some? && data.startTime != "" && data.endTime != ""
  }

  // ---------------------------------------------------------------------------
  // Paragraph wrapping

  /** `message.replace(/\n/g, '</p><p>')`. */
  function BreakLines(s: string): (r: string)
    ensures '\n' !in s ==> r == s
  {
    if s == [] then []
    else (if s[0] == '\n' then ParagraphBreak else [s[0]]) + BreakLines(s[1..])
  }

  lemma {:induction false} BreakLinesAppend(a: string, b: string)
    ensures BreakLines(a + b) == BreakLines(a) + BreakLines(b)
  {
    if a == [] {
      assert a + b == b;
    } else {
      assert (a + b)[0] == a[0] && (a + b)[1..] == a[1..] + b;
      BreakLinesAppend(a[1..], b);
    }
  }

  /** No newline survives the replacement. */
  lemma {:induction false} BreakLinesHasNoNewline(s: string)
    ensures '\n' !in BreakLines(s)
  {
    if s != [] {
      BreakLinesHasNoNewline(s[1..]);
      assert '\n' !in ParagraphBreak;
    }
  }

  /** The replacement is the same as joining the message's lines with a paragraph
      break: one paragraph per line. */
  lemma {:induction false} BreakLinesJoinsLines(s: string)
    ensures BreakLines(s) == Join(Split(s, '\n'), ParagraphBreak)
    decreases |s|
  {
    match IndexOf(s, '\n')
    case None =>
    case Some(i) =>
      var head, rest := s[..i], s[i + 1..];
      assert s == head + ['\n'] + rest;
      BreakLinesAppend(head + ['\n'], rest);
      BreakLinesAppend(head, ['\n']);
      assert BreakLines(['\n']) == ParagraphBreak;
      BreakLinesJoinsLines(rest);
      assert Split(s, '\n') == [head] + Split(rest, '\n');
  }

  /** The HTML reply: nothing for an empty message, otherwise one `<p>` per line. */
  function HtmlMessage(message: string): (html: string)
    ensures message == "" ==> html == ""
    ensures message != "" ==> html == "<p>" + Join(Split(message, '\n'), ParagraphBreak) + "</p>"
    ensures '\n' !in html
  {
    BreakLinesJoinsLines(message);
    BreakLinesHasNoNewline(message);
    if message == "" then "" else "<p>" + BreakLines(message) + "</p>"
  }

  // ---------------------------------------------------------------------------
  // The request body

  /** The `settings` the form sends: the schedule bounds are ISO strings here. */
  datatype FormSettings = FormSettings(
    status: OofStatus,
    internalReplyMessage: string,
    externalReplyMessage: string,
    scheduledStartDateTime: Option<string>,
    scheduledEndDateTime: Option<string>)

  datatype ApiPayload = ApiPayload(settings: FormSettings, mode: string)

  /** The first half of `onSubmit`: derive the status step by step, compute the
      schedule bounds only for a complete schedule, wrap the message and build the
      body posted to /api/oof. */
  method BuildPayload(data: FormData, combine: (nat, string) -> string) returns (payload: ApiPayload)
    ensures payload.settings.status == Scheduled <==> ScheduleGiven(data)
    ensures !ScheduleGiven(data) ==> (payload.settings.status == AlwaysEnabled <==> data.message != "")
    ensures payload.settings.internalReplyMessage == payload.settings.externalReplyMessage == HtmlMessage(data.message)
    ensures payload.settings.scheduledStartDateTime.Some? <==> payload.settings.status == Scheduled
    ensures payload.settings.scheduledEndDateTime.Some? <==> payload.settings.status == Scheduled
    ensures payload.settings.status == Scheduled ==>
      payload.settings.scheduledStartDateTime == Some(combine(data.startDate.value, data.startTime)) &&
      payload.settings.scheduledEndDateTime == Some(combine(data.endDate.value, data.endTime))
    ensures payload.mode == GraphMode
  {
    var status := Disabled;
    var scheduledStartDateTime: Option<string> := None;
    var scheduledEndDateTime: Option<string> := None;
    if data.startDate.Some? && data.endDate.Some? && data.startTime != "" && data.endTime != "" {
      status := Scheduled;
      scheduledStartDateTime := Some(combine(data.startDate.value, data.startTime));
      scheduledEndDateTime := Some(combine(data.endDate.value, data.endTime));
    } else if data.message != "" {
      status := AlwaysEnabled;
    }
    var htmlMessage := HtmlMessage(data.message);
    var settings := if status == Scheduled
      then FormSettings(status, htmlMessage, htmlMessage, scheduledStartDateTime, scheduledEndDateTime)
      else FormSettings(status, htmlMessage, htmlMessage, None, None);
    payload := ApiPayload(settings, GraphMode);
  }

  // ---------------------------------------------------------------------------
  // Forwarding

  /** The forwarding request that follows a saved setting. */
  datatype ForwardingCall = PostForwarding(address: string) | DeleteForwarding | NoForwardingCall

  function ForwardingChoice(forwardEmails: bool, forwardTo: string): (c: ForwardingCall)
    ensures c.PostForwarding? <==> forwardEmails && forwardTo != ""
    ensures c.PostForwarding? ==> c.address == forwardTo
    ensures c == DeleteForwarding <==> !forwardEmails
    ensures c == NoForwardingCall <==> forwardEmails && forwardTo == ""
  {
    if forwardEmails && forwardTo != "" then PostForwarding(forwardTo)
    else if !forwardEmails then DeleteForwarding
    else NoForwardingCall
  }

  /** A request the form sends. */
  datatype ClientRequest = SaveOof(payload: ApiPayload) | Forward(call: ForwardingCall)

  /** `onSubmit` given the answer of the /api/oof POST (`ok`, and the `error` text of
      its body when it failed): the requests sent in order, and the notice shown.
      A failed forwarding call is only logged. */
  method Submit(data: FormData, combine: (nat, string) -> string, oofOk: bool, oofError: Option<string>)
    returns (requests: seq<ClientRequest>, notice: string)
    ensures |requests| >= 1 && requests[0].SaveOof?
    ensures !oofOk ==> |requests| == 1 && notice == OrElse(oofError, RequestFailedMessage)
    ensures oofOk ==> notice == SavedNotice
    ensures oofOk ==>
      var choice := ForwardingChoice(data.forwardEmails, data.forwardTo);
      requests[1..] == if choice == NoForwardingCall then [] else [Forward(choice)]
  {
    var payload := BuildPayload(data, combine);
    requests := [SaveOof(payload)];
    if !oofOk {
      return requests, OrElse(oofError, RequestFailedMessage);
    }
    var choice := ForwardingChoice(data.forwardEmails, data.forwardTo);
    if choice != NoForwardingCall {
      requests := requests + [Forward(choice)];
    }
    notice := SavedNotice;
  }

  // ---------------------------------------------------------------------------
  // The user picker

  datatype PickerUser = PickerUser(value: string, labelText: string)

  predicate Matches(u: PickerUser, query: string) {
    Contains(Lower(u.labelText), Lower(query))
  }

  /** `users.filter(u => u.label.toLowerCase().includes(query.toLowerCase()))`. */
  function FilteredUsers(users: seq<PickerUser>, query: string): (r: seq<PickerUser>)
    ensures |r| <= |users|
    ensures forall k :: 0 <= k < |r| ==> r[k] in users && Matches(r[k], query)
    ensures forall k :: 0 <= k < |users| && Matches(users[k], query) ==> users[k] in r
  {
    if users == [] then []
    else (if Matches(users[0], query) then [users[0]] else []) + FilteredUsers(users[1..], query)
  }

  /** Filtering a concatenation filters each part and keeps them in order. */
  lemma {:induction false} FilteredUsersAppend(a: seq<PickerUser>, b: seq<PickerUser>, query: string)
    ensures FilteredUsers(a + b, query) == FilteredUsers(a, query) + FilteredUsers(b, query)
  {
    if a == [] {
      assert a + b == b;
    } else {
      assert (a + b)[0] == a[0];
      assert (a + b)[1..] == a[1..] + b;
      FilteredUsersAppend(a[1..], b, query);
    }
  }

  /** One user is kept, once, exactly when it matches. */
  lemma FilteredUsersOne(u: PickerUser, query: string)
    ensures FilteredUsers([u], query) == if Matches(u, query) then [u] else []
  {
    assert [u][1..] == [];
  }

  /** An empty search keeps every user, in order. */
  lemma {:induction false} EmptyQueryKeepsAll(users: seq<PickerUser>)
    ensures FilteredUsers(users, "") == users
  {
    if users != [] {
      ContainsEmpty(Lower(users[0].labelText));
      EmptyQueryKeepsAll(users[1..]);
    }
  }

  /** The search ignores case in the query. */
  lemma QueryCaseIgnored(users: seq<PickerUser>, query: string)
    ensures FilteredUsers(users, Lower(query)) == FilteredUsers(users, query)
  {
    LowerIdempotent(query);
  }
}
